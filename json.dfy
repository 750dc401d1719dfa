/**
 * The part of encoding/json the core relies on: a struct becomes an object
 * whose members appear in field-declaration order, a slice becomes an array,
 * and strings are escaped the way json.Marshal does by default (HTML-safe)
 * in Go releases before 1.22, which write backspace and form feed as
 * \u0008 and \u000c.
 * The serialised value never contains a raw newline, which is what lets the
 * status stream put exactly one value on each line.
 */
module Json {
  import opened Wrappers
  import Text

  datatype Value = JString(s: string) | JInt(i: int) | JBool(b: bool) | JNull

  /** One object member: its key (of the key type K the caller names) and its value. */
  datatype Member<K> = Member(key: K, val: Value)

  /** A Go struct field's value, by the kinds the core's structs use. */
  datatype GoValue = GoString(s: string) | GoInt(i: int) | GoBool(b: bool) | GoBoolPtr(p: Option<bool>)

  /** encoding/json's notion of an empty value, which an `omitempty` tag drops. */
  predicate IsEmpty(v: GoValue) {
    match v
    case GoString(s) => s == ""
    case GoInt(i) => i == 0
    case GoBool(b) => !b
    case GoBoolPtr(p) => p.None?
  }

  function Encode(v: GoValue): Value {
    match v
    case GoString(s) => JString(s)
    case GoInt(i) => JInt(i)
    case GoBool(b) => JBool(b)
    case GoBoolPtr(p) => if p.Some? then JBool(p.value) else JNull
  }

  /**
   * The members one tagged struct field contributes: none when the tag says
   * `omitempty` and the value is empty, otherwise `key: value`.
   */
  function TaggedField<K>(key: K, v: GoValue, omitEmpty: bool): (ms: seq<Member<K>>)
    ensures |ms| <= 1
    ensures ms == [] <==> omitEmpty && IsEmpty(v)
    ensures ms != [] ==> ms[0] == Member(key, Encode(v))
  {
    if omitEmpty && IsEmpty(v) then [] else [Member(key, Encode(v))]
  }

  const HEX_DIGITS: string := "0123456789abcdef"

  /** How json.Marshal writes one character inside a string literal. */
  function EscapeChar(c: char): (t: string)
    ensures |t| > 0 && Printable(t)
    ensures t != [c] ==> t[0] == '\\'
    ensures (c != '"' && c != '\\' && c >= ' ' && c != '<' && c != '>' && c != '&' &&
             c != '\U{2028}' && c != '\U{2029}') ==> t == [c]
  {
    if c == '"' then "\\\""
    else if c == '\\' then "\\\\"
    else if c == '\n' then "\\n"
    else if c == '\r' then "\\r"
    else if c == '\t' then "\\t"
    else if c < ' ' || c == '<' || c == '>' || c == '&' then
      "\\u00" + [HEX_DIGITS[c as int / 16], HEX_DIGITS[c as int % 16]]
    else if c == '\U{2028}' then "\\u2028"
    else if c == '\U{2029}' then "\\u2029"
    else [c]
  }

  /** True when no character of s is below U+0020 (no raw newline in particular). */
  predicate Printable(s: string) {
    forall i :: 0 <= i < |s| ==> s[i] >= ' '
  }

  lemma PrintableAppend(a: string, b: string)
    requires Printable(a) && Printable(b)
    ensures Printable(a + b)
  {
  }

  function Escape(s: string): (t: string)
    ensures Printable(t)
  {
    if |s| == 0 then ""
    else
      EscapeChar(s[0]) + Escape(s[1..])
  }

  /** A JSON string literal. */
  function Quote(s: string): (t: string)
    ensures Printable(t)
    ensures |t| >= 2 && t[0] == '"' && t[|t| - 1] == '"'
  {
    "\"" + Escape(s) + "\""
  }

  function ValueText(v: Value): (t: string)
    ensures Printable(t)
  {
    match v
    case JString(s) => Quote(s)
    case JInt(i) => Text.IntText(i)
    case JBool(b) => if b then "true" else "false"
    case JNull => "null"
  }

  /** The elements separated by commas. */
  function Join(elems: seq<string>): (t: string)
    requires forall i :: 0 <= i < |elems| ==> Printable(elems[i])
    ensures Printable(t)
  {
    if |elems| == 0 then ""
    else if |elems| == 1 then elems[0]
    else
      var init := Join(elems[..|elems| - 1]);
      PrintableAppend(init, ",");
      PrintableAppend(init + ",", elems[|elems| - 1]);
      init + "," + elems[|elems| - 1]
  }

  function MemberText<K>(m: Member<K>, name: K -> string): (t: string)
    ensures Printable(t)
  {
    Quote(name(m.key)) + ":" + ValueText(m.val)
  }

  /** An object in the order its members are given, as json.Marshal writes a struct. */
  function ObjectText<K>(members: seq<Member<K>>, name: K -> string): (t: string)
    ensures Printable(t)
    ensures |t| >= 2 && t[0] == '{' && t[|t| - 1] == '}'
  {
    var texts := seq(|members|, i requires 0 <= i < |members| => MemberText(members[i], name));
    "{" + Join(texts) + "}"
  }

  /** An array of already-serialised elements. */
  function ArrayText(elems: seq<string>): (t: string)
    requires forall i :: 0 <= i < |elems| ==> Printable(elems[i])
    ensures Printable(t)
    ensures |t| >= 2 && t[0] == '[' && t[|t| - 1] == ']'
  {
    "[" + Join(elems) + "]"
  }
}
