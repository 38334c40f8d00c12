/** The three enumerations the options record refers to. Their definitions are
    not part of this model: each type keeps the one member the options file
    names, and an opaque case stands for every member it does not name. */
module Enums {

  /** ClickHouseConnectionProtocol. */
  datatype ConnectionProtocol = HTTP | OtherProtocol(tag: nat)

  /** ClickHouseCompressionMethod. */
  datatype CompressionMethod = NONE | OtherCompression(tag: nat)

  /** ClickHouseDataFormat. Only JSON is documented as working end to end;
      the type still admits the other members. */
  datatype DataFormat = JSON | OtherFormat(tag: nat)
}

/** The configuration record of the ClickHouse HTTP client: the server-side
    settings profile, the connection options, and the field-level merge the
    options constructor performs with `Object.assign`. */
module ClientOptions {
  import opened Enums

  /** A 0/1 switch, as the TypeScript type `0 | 1`. */
  type Flag = x: int | x == 0 || x == 1

  /** The state of one optional property of a JavaScript object: no own key
      at all, an own key holding `undefined`, or an own key holding a value.
      `Object.assign` tells the first two apart: it copies the second. */
  datatype Slot<+T> = Absent | Undefined | Defined(value: T)

  /** The own keys a settings object can carry. */
  datatype SettingKey = SendProgressInHttpHeaders | WaitEndOfQuery | BufferSize

  /** The property state of a ClickHouseSettings object, as a value. */
  datatype SettingsValue = SettingsValue(
    sendProgressInHttpHeaders: Slot<Flag>,
    waitEndOfQuery: Slot<Flag>,
    bufferSize: Slot<int>)

  /** What the field initializers of a fresh ClickHouseSettings produce. */
  const DefaultSettings := SettingsValue(Defined(0), Defined(1), Defined(1048576))

  /** The property `k` of `v`, with the flag values seen as numbers. */
  function Entry(v: SettingsValue, k: SettingKey): Slot<int>
  {
    match k
    case SendProgressInHttpHeaders => v.sendProgressInHttpHeaders
    case WaitEndOfQuery => v.waitEndOfQuery
    case BufferSize => v.bufferSize
  }

  /** Every key is an own key (possibly holding `undefined`). */
  predicate OwnsAllKeys(v: SettingsValue)
  {
    forall k :: !Entry(v, k).Absent?
  }

  /** Every key holds a value: nothing is absent and nothing is `undefined`. */
  predicate IsComplete(v: SettingsValue)
  {
    forall k :: Entry(v, k).Defined?
  }

  /** Two settings values with the same property at every key are equal. */
  lemma SettingsExtensional(a: SettingsValue, b: SettingsValue)
    requires forall k :: Entry(a, k) == Entry(b, k)
    ensures a == b
  {
    assert Entry(a, SendProgressInHttpHeaders) == Entry(b, SendProgressInHttpHeaders);
    assert Entry(a, WaitEndOfQuery) == Entry(b, WaitEndOfQuery);
    assert Entry(a, BufferSize) == Entry(b, BufferSize);
  }

  /** The own keys of `v`, each once, in some order: the keys
      `Object.assign` visits in its source. The order does not affect the
      result (see AssignKeys). */
  function OwnKeys(v: SettingsValue): (keys: seq<SettingKey>)
    ensures forall k :: k in keys <==> !Entry(v, k).Absent?
    ensures forall i, j :: 0 <= i < j < |keys| ==> keys[i] != keys[j]
  {
    (if v.sendProgressInHttpHeaders.Absent? then [] else [SendProgressInHttpHeaders])
    + (if v.waitEndOfQuery.Absent? then [] else [WaitEndOfQuery])
    + (if v.bufferSize.Absent? then [] else [BufferSize])
  }

  /** One `[[Set]]` step of `Object.assign`: key `k` of `target` takes the
      source's property; every other key is left as it was. */
  function CopyKey(target: SettingsValue, source: SettingsValue, k: SettingKey): (r: SettingsValue)
    ensures Entry(r, k) == Entry(source, k)
    ensures forall j :: j != k ==> Entry(r, j) == Entry(target, j)
  {
    match k
    case SendProgressInHttpHeaders => target.(sendProgressInHttpHeaders := source.sendProgressInHttpHeaders)
    case WaitEndOfQuery => target.(waitEndOfQuery := source.waitEndOfQuery)
    case BufferSize => target.(bufferSize := source.bufferSize)
  }

  /** `Object.assign`'s walk over a list of source keys: every listed key is
      copied from `source`, every other key keeps the target's property. */
  function AssignKeys(target: SettingsValue, source: SettingsValue, keys: seq<SettingKey>): (r: SettingsValue)
    ensures forall k :: Entry(r, k) == if k in keys then Entry(source, k) else Entry(target, k)
    decreases |keys|
  {
    if keys == [] then target
    else AssignKeys(CopyKey(target, source, keys[0]), source, keys[1..])
  }

  /** `Object.assign(target, source)` over the settings keys: a key the
      source owns overwrites the target's property (even when it holds
      `undefined`); a key the source lacks keeps the target's. */
  function Assign(target: SettingsValue, source: SettingsValue): (r: SettingsValue)
    ensures forall k :: Entry(r, k) == if Entry(source, k).Absent? then Entry(target, k) else Entry(source, k)
  {
    AssignKeys(target, source, OwnKeys(source))
  }

  /** Assigning the same source twice changes nothing the first time did not. */
  lemma AssignIdempotent(target: SettingsValue, source: SettingsValue)
    ensures Assign(Assign(target, source), source) == Assign(target, source)
  {
    SettingsExtensional(Assign(Assign(target, source), source), Assign(target, source));
  }

  /** Re-merging a merge result over the same defaults returns it unchanged. */
  lemma AssignAbsorbs(target: SettingsValue, source: SettingsValue)
    ensures Assign(target, Assign(target, source)) == Assign(target, source)
  {
    SettingsExtensional(Assign(target, Assign(target, source)), Assign(target, source));
  }

  /** A source that owns every key replaces the target completely. */
  lemma AssignOwningSource(target: SettingsValue, source: SettingsValue)
    requires OwnsAllKeys(source)
    ensures Assign(target, source) == source
  {
    SettingsExtensional(Assign(target, source), source);
  }

  /** Layered merges may be grouped either way. */
  lemma AssignAssociative(a: SettingsValue, b: SettingsValue, c: SettingsValue)
    ensures Assign(Assign(a, b), c) == Assign(a, Assign(b, c))
  {
    SettingsExtensional(Assign(Assign(a, b), c), Assign(a, Assign(b, c)));
  }

  /** The merge the options constructor performs, over the default instance
      it always sees, yields the defaults. */
  lemma MergeOfDefaultsIsDefaults()
    ensures Assign(DefaultSettings, DefaultSettings) == DefaultSettings
  {
    AssignOwningSource(DefaultSettings, DefaultSettings);
  }

  /** Merging over the defaults leaves every key set unless the source holds
      `undefined` at it; a key holding `undefined` stays `undefined`. */
  lemma MergeOverDefaultsCompleteness(source: SettingsValue)
    ensures IsComplete(Assign(DefaultSettings, source)) <==> forall k :: !Entry(source, k).Undefined?
  {
    if !IsComplete(Assign(DefaultSettings, source)) {
      var k :| !Entry(Assign(DefaultSettings, source), k).Defined?;
      assert Entry(DefaultSettings, k).Defined?;
    }
  }

  /** A partial source that sets only `buffer_size` keeps the two flag
      defaults. */
  lemma MergeBufferSizeOnly(n: int)
    ensures Assign(DefaultSettings, SettingsValue(Absent, Absent, Defined(n)))
         == SettingsValue(Defined(0), Defined(1), Defined(n))
  {
    SettingsExtensional(Assign(DefaultSettings, SettingsValue(Absent, Absent, Defined(n))),
                        SettingsValue(Defined(0), Defined(1), Defined(n)));
  }

  /** Whatever the merge produces, a flag that holds a value holds 0 or 1.
      The `Flag` subset type guarantees this: the merge only moves flag
      properties between settings values, never widens them. */
  lemma MergedFlagsAreBits(target: SettingsValue, source: SettingsValue)
    ensures Entry(Assign(target, source), SendProgressInHttpHeaders).Defined? ==>
              Entry(Assign(target, source), SendProgressInHttpHeaders).value in {0, 1}
    ensures Entry(Assign(target, source), WaitEndOfQuery).Defined? ==>
              Entry(Assign(target, source), WaitEndOfQuery).value in {0, 1}
  {
  }

  /** An HTTP agent of Node.js: an opaque transport object. */
  class HttpAgent { }

  /** An HTTPS agent of Node.js: an opaque transport object. */
  class HttpsAgent { }

  /** The server-side settings profile. Its three properties are optional
      and public: a caller may overwrite them, set them to `undefined` or
      delete them. */
  class ClickHouseSettings {
    var sendProgressInHttpHeaders: Slot<Flag>
    var waitEndOfQuery: Slot<Flag>
    var bufferSize: Slot<int>

    /** The object's properties as a value. */
    function Value(): SettingsValue
      reads this
    {
      SettingsValue(sendProgressInHttpHeaders, waitEndOfQuery, bufferSize)
    }

    /** `new ClickHouseSettings()`: the field initializers. */
    constructor ()
      ensures sendProgressInHttpHeaders == Defined(0)
      ensures waitEndOfQuery == Defined(1)
      ensures bufferSize == Defined(1048576)
      ensures Value() == DefaultSettings && IsComplete(Value())
    {
      sendProgressInHttpHeaders := Defined(0);
      waitEndOfQuery := Defined(1);
      bufferSize := Defined(1048576);
    }

    /** `Object.assign(this, source)` restricted to the settings keys: this
        object is updated in place; `source` is only read. */
    method AssignFrom(source: ClickHouseSettings)
      modifies this
      ensures Value() == Assign(old(Value()), old(source.Value()))
    {
      var merged := Assign(Value(), source.Value());
      sendProgressInHttpHeaders := merged.sendProgressInHttpHeaders;
      waitEndOfQuery := merged.waitEndOfQuery;
      bufferSize := merged.bufferSize;
    }
  }

  /** The connection options of the client. */
  class ClickHouseClientOptions {
    var name: string
    var host: string
    var port: int
    var username: string
    var password: string
    var database: string
    var protocol: ConnectionProtocol
    var httpAgent: HttpAgent?
    var httpsAgent: HttpsAgent?
    var compression: CompressionMethod
    var format: DataFormat
    var settings: ClickHouseSettings?
    /** The instance the `settings` field initializer created, which the
        constructor body then merges from. */
    ghost var initialSettings: ClickHouseSettings?

    /** `new ClickHouseClientOptions()`: the field initializers, then the
        constructor body that rebuilds `settings` by merging the initial
        instance into another fresh default instance. */
    constructor ()
      ensures name == "CLICKHOUSE_DEFAULT" && host == "127.0.0.1" && port == 8123
      ensures username == "default" && password == "" && database == "default"
      ensures protocol == HTTP && compression == NONE && format == JSON
      ensures httpAgent == null && httpsAgent == null
      ensures settings != null && fresh(settings) && IsComplete(settings.Value())
      ensures settings.Value() == DefaultSettings
      ensures initialSettings != null && fresh(initialSettings) && settings != initialSettings
    {
      name := "CLICKHOUSE_DEFAULT";
      host := "127.0.0.1";
      port := 8123;
      username := "default";
      password := "";
      database := "default";
      protocol := HTTP;
      httpAgent := null;
      httpsAgent := null;
      compression := NONE;
      format := JSON;
      var initial := new ClickHouseSettings();
      settings := initial;
      initialSettings := initial;
      new;
      if settings != null {
        var merged := new ClickHouseSettings();
        merged.AssignFrom(settings);
        MergeOfDefaultsIsDefaults();
        settings := merged;
      }
    }
  }

  /** Two options objects never share a settings object: writing one's
      `buffer_size` leaves the other's at its default. */
  method SettingsAreNotShared() returns (a: ClickHouseClientOptions, b: ClickHouseClientOptions)
    ensures a.settings != null && b.settings != null && a.settings != b.settings
    ensures a.settings.bufferSize == Defined(2048)
    ensures b.settings.Value() == DefaultSettings
  {
    a := new ClickHouseClientOptions();
    b := new ClickHouseClientOptions();
    a.settings.bufferSize := Defined(2048);
  }
}
