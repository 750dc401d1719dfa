/**
 * The i3bar protocol header: the first line of the status stream, a JSON
 * object with the protocol version and the optional signal and click-event
 * settings. The module list lives in the same record but is never written.
 */
module Header {
  import opened Json
  import Settings

  datatype Config = Config(
    version: int,
    stopSignal: int,
    contSignal: int,
    clickEvents: bool,
    modules: seq<Settings.ModuleConfig>)

  /** The JSON keys of the header's serialised fields; `Modules` is tagged `-` and has none. */
  datatype Key = Version | StopSignal | ContSignal | ClickEvents

  function KeyName(k: Key): string {
    match k
    case Version => "version"
    case StopSignal => "stop_signal"
    case ContSignal => "cont_signal"
    case ClickEvents => "click_events"
  }

  function FieldValue(c: Config, k: Key): GoValue {
    match k
    case Version => GoInt(c.version)
    case StopSignal => GoInt(c.stopSignal)
    case ContSignal => GoInt(c.contSignal)
    case ClickEvents => GoBool(c.clickEvents)
  }

  /** Every field but `version` carries `omitempty`. */
  predicate OmitEmpty(k: Key) {
    k != Version
  }

  const FIELD_ORDER: seq<Key> := [Version, StopSignal, ContSignal, ClickEvents]

  /** The members json.Marshal writes for the listed fields, in list order. */
  function Marshal(c: Config, keys: seq<Key>): seq<Member<Key>> {
    if |keys| == 0 then []
    else TaggedField(keys[0], FieldValue(c, keys[0]), OmitEmpty(keys[0])) + Marshal(c, keys[1..])
  }

  predicate Written(c: Config, k: Key) {
    !(OmitEmpty(k) && IsEmpty(FieldValue(c, k)))
  }

  lemma {:induction false} MarshalMembers(c: Config, keys: seq<Key>, k: Key, v: Value)
    ensures Member(k, v) in Marshal(c, keys) <==> k in keys && Written(c, k) && v == Encode(FieldValue(c, k))
  {
    if |keys| > 0 {
      MarshalMembers(c, keys[1..], k, v);
      assert keys == [keys[0]] + keys[1..];
    }
  }

  /** Marshal sees a record only through its serialised fields. */
  lemma {:induction false} MarshalReadsFields(c: Config, d: Config, keys: seq<Key>)
    requires forall k :: FieldValue(c, k) == FieldValue(d, k)
    ensures Marshal(c, keys) == Marshal(d, keys)
  {
    if |keys| > 0 {
      MarshalReadsFields(c, d, keys[1..]);
    }
  }

  /**
   * The members of the header object: one per written field, with its
   * encoded value.
   */
  function Fields(c: Config): (ms: seq<Member<Key>>)
    ensures forall k, v :: Member(k, v) in ms <==> Written(c, k) && v == Encode(FieldValue(c, k))
  {
    var ms := Marshal(c, FIELD_ORDER);
    assert forall k, v :: Member(k, v) in ms <==> Written(c, k) && v == Encode(FieldValue(c, k)) by {
      forall k, v ensures Member(k, v) in ms <==> Written(c, k) && v == Encode(FieldValue(c, k)) {
        MarshalMembers(c, FIELD_ORDER, k, v);
        assert k == FIELD_ORDER[0] || k == FIELD_ORDER[1] || k == FIELD_ORDER[2] || k == FIELD_ORDER[3];
      }
    }
    ms
  }

  /** The header line: json.Marshal of the whole record. */
  function HeaderText(c: Config): (t: string)
    ensures Printable(t)
    ensures |t| >= 2 && t[0] == '{' && t[|t| - 1] == '}'
  {
    ObjectText(Fields(c), KeyName)
  }

  /** `version` is written whatever its value, 0 included. */
  lemma VersionAlways(c: Config)
    ensures Member(Version, JInt(c.version)) in Fields(c)
    ensures forall v :: Member(Version, v) in Fields(c) ==> v == JInt(c.version)
  {
  }

  /** `stop_signal`, `cont_signal` and `click_events` are written exactly when not 0 or false. */
  lemma OptionalFields(c: Config)
    ensures forall v :: Member(StopSignal, v) in Fields(c) <==> c.stopSignal != 0 && v == JInt(c.stopSignal)
    ensures forall v :: Member(ContSignal, v) in Fields(c) <==> c.contSignal != 0 && v == JInt(c.contSignal)
    ensures forall v :: Member(ClickEvents, v) in Fields(c) <==> c.clickEvents && v == JBool(true)
  {
  }

  /** The module list has no influence on the header line. */
  lemma ModulesNeverWritten(c: Config, mods: seq<Settings.ModuleConfig>)
    ensures HeaderText(c.(modules := mods)) == HeaderText(c)
  {
    MarshalReadsFields(c.(modules := mods), c, FIELD_ORDER);
  }

  /**
   * The header the program writes: the decoded configuration with the
   * version forced to 1, the only protocol version it speaks.
   */
  function ProtocolHeader(decoded: Config): (c: Config)
    ensures c.version == 1
    ensures c.(version := decoded.version) == decoded
  {
    decoded.(version := 1)
  }

  /** The header line always announces protocol version 1. */
  lemma AnnouncesVersionOne(decoded: Config)
    ensures Member(Version, JInt(1)) in Fields(ProtocolHeader(decoded))
  {
    VersionAlways(ProtocolHeader(decoded));
  }
}
