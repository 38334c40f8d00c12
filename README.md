# ClickHouse client options — a Dafny model

This project models the configuration record of a TypeScript HTTP client for
ClickHouse, `src/client/interfaces/ClickHouseClientOptions.ts`:

- `ClickHouseSettings`, the server-side settings profile. It has three optional
  public properties with field initializers: `send_progress_in_http_headers`
  (a `0 | 1` flag, default 0), `wait_end_of_query` (a `0 | 1` flag, default 1)
  and `buffer_size` (default 1048576).
- `ClickHouseClientOptions`, the connection options. The connection fields
  have literal defaults. `settings` gets a new default `ClickHouseSettings`
  instance. `logger` defaults to the global `console` (see "## Left out").
  The two Node.js agents stay unset. Its constructor takes no arguments. It rebuilds `settings` by
  `Object.assign(new ClickHouseSettings(), this.settings)`.

Both classes are Dafny classes (`ClientOptions.ClickHouseSettings`,
`ClientOptions.ClickHouseClientOptions`). Their constructors establish the
defaults. `ClickHouseSettings.AssignFrom` updates a settings object in place.

The state of one optional JavaScript property is a `Slot`:
- `Absent`: no own key;
- `Undefined`: an own key holding `undefined`;
- `Defined(v)`: an own key holding `v`.

`Object.assign` distinguishes the first two cases. It copies every own key of
the source, including one that holds `undefined`. The pure function `Assign`
gives these semantics over the three settings keys. It is defined as
`AssignKeys`, a walk over the source's own keys (`OwnKeys`), each once, in
some order, one `[[Set]]` step (`CopyKey`) per key. The flags have the subset type
`Flag` (`0` or `1`).

The code has no validation. A port out of range, a non-positive `buffer_size`
and an unknown enum member are all accepted, and the model has no error cases.
The constructor cannot fail.

The field initializers run before the constructor body. So at line 145,
`this.settings` is always the instance created at line 131, and the merge
always yields the default values (`MergeOfDefaultsIsDefaults`). The merge of a
caller-supplied partial settings object exists only as the pure function
`Assign`. No operation of the file accepts such an object.

The default `name` is `"CLICKHOUSE_DEFAULT"`. The constructor takes no
arguments. No input is validated and no error is raised. An own settings key
holding `undefined` is copied by the merge.

## Model

| member | source | states |
|---|---|---|
| ClientOptions.ClickHouseSettings.constructor | src/client/interfaces/ClickHouseClientOptions.ts:10-39 | A new settings object has `send_progress_in_http_headers = 0`, `wait_end_of_query = 1` and `buffer_size = 1048576`, all three set. |
| ClientOptions.ClickHouseClientOptions.constructor | src/client/interfaces/ClickHouseClientOptions.ts:41-151 | A new options object has the defaults `"CLICKHOUSE_DEFAULT"`, `"127.0.0.1"`, 8123, `"default"`, `""`, `"default"`, HTTP, NONE and JSON. Both agents are unset. `settings` is present, complete and equal to the default settings. It is a fresh object, distinct from the instance the field initializer created. Construction has no precondition. |
| ClientOptions.ClickHouseSettings.AssignFrom | src/client/interfaces/ClickHouseClientOptions.ts:146-149 | `Object.assign(this, source)`: the object's new properties are the merge of its old ones with the source's. |
| ClientOptions.Assign | src/client/interfaces/ClickHouseClientOptions.ts:146-149 | For every settings key, the result takes the source's property when the source owns the key, even when it holds `undefined`. Otherwise it keeps the target's property. |
| ClientOptions.AssignKeys | src/client/interfaces/ClickHouseClientOptions.ts:146-149 | Copying a list of keys one at a time gives every listed key the source's property and leaves every other key as in the target. Order and repetition do not matter. |
| ClientOptions.OwnKeys | src/client/interfaces/ClickHouseClientOptions.ts:16-38 | The keys visited in a settings object are exactly its own keys, each once. |
| ClientOptions.CopyKey | src/client/interfaces/ClickHouseClientOptions.ts:146-149 | One copy step sets key `k` to the source's property and changes no other key. |
| ClientOptions.AssignIdempotent | src/client/interfaces/ClickHouseClientOptions.ts:146-149 | Assigning the same source a second time changes nothing. |
| ClientOptions.AssignAbsorbs | src/client/interfaces/ClickHouseClientOptions.ts:146-149 | Merging a merge result again over the same target returns it unchanged. |
| ClientOptions.AssignOwningSource | src/client/interfaces/ClickHouseClientOptions.ts:146-149 | A source that owns all three keys yields exactly its own properties. |
| ClientOptions.AssignAssociative | src/client/interfaces/ClickHouseClientOptions.ts:146-149 | `Assign(Assign(a, b), c) == Assign(a, Assign(b, c))`. |
| ClientOptions.MergeOfDefaultsIsDefaults | src/client/interfaces/ClickHouseClientOptions.ts:131-149 | The constructor's merge, whose source is always the default instance, yields the default settings. |
| ClientOptions.MergeOverDefaultsCompleteness | src/client/interfaces/ClickHouseClientOptions.ts:146-149 | A merge over the defaults leaves all three keys set if and only if the source holds `undefined` at none of them. |
| ClientOptions.MergeBufferSizeOnly | src/client/interfaces/ClickHouseClientOptions.ts:146-149 | A source with only `buffer_size = n` yields flags 0 and 1 with `buffer_size = n`. |
| ClientOptions.MergedFlagsAreBits | src/client/interfaces/ClickHouseClientOptions.ts:16-27 | After any merge, a set flag holds 0 or 1. The `Flag` subset type guarantees this; `Assign` never widens a flag. |
| ClientOptions.SettingsAreNotShared | src/client/interfaces/ClickHouseClientOptions.ts:131-149 | Two options objects have distinct settings objects. Writing one's `buffer_size` leaves the other's settings at the defaults. |

## Left out

- `logger` (line 139): its default is the process-global `console`, an opaque I/O sink. It is not modelled.
- `httpAgent`, `httpsAgent` (lines 100, 110): opaque Node.js transport objects, modelled as empty classes. A null reference stands for "unset". No agent behaviour is modelled.
- The enumerations of `../enums` (lines 1-5): their definitions are not part of this model. Each type keeps the member the file names (HTTP, NONE, JSON) and one opaque case, told apart by a numeric tag, for the members it does not name. No member names or string values are modelled.
- Numbers: `port` and `buffer_size` are JavaScript numbers (IEEE doubles). The model uses unbounded integers, so fractions, NaN and infinities are not represented.
- Optionality of the options fields other than `settings` and the agents: after construction every one of them holds its default. Nothing in the file reads them as absent, so they are plain fields.
- `Assign` covers the three settings keys only. Extra keys of the source object, getters, non-enumerable and symbol keys are not modelled.
- Request composition (URL, query string, headers, authentication) does not exist in this file and is not modelled.
