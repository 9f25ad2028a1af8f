/** Python's `json.dumps` with its default arguments (`ensure_ascii=True`, separators
    `", "` and `": "`), over the values the backend hands it: dictionaries in insertion
    order, strings, integers, booleans, `None`, and the two kinds of value it cannot
    serialise and raises `TypeError` for, `datetime` and BSON `ObjectId`. */
module PyJson {
  import opened Wrappers
  import opened Text

  datatype Json =
    | JNull
    | JBool(b: bool)
    | JInt(n: int)
    | JStr(s: string)
    | JObject(fields: seq<Member>)
    | JDateTime(instant: int)
    | JObjectId(hex: string)

  datatype Member = Member(key: string, value: Json)

  /** Whether `json.dumps` gets through a value without a `TypeError`. */
  predicate Serializable(v: Json)
    decreases v
  {
    match v
    case JDateTime(_) => false
    case JObjectId(_) => false
    case JObject(fields) => forall i :: 0 <= i < |fields| ==> Serializable(fields[i].value)
    case _ => true
  }

  predicate PrintableAscii(s: string) {
    forall i :: 0 <= i < |s| ==> ' ' <= s[i] <= '~'
  }

  lemma PrintableConcat(a: string, b: string)
    requires PrintableAscii(a) && PrintableAscii(b)
    ensures PrintableAscii(a + b)
  {
    forall i | 0 <= i < |a + b|
      ensures ' ' <= (a + b)[i] <= '~'
    {
      if i >= |a| {
        assert (a + b)[i] == b[i - |a|];
      }
    }
  }

  function LowerHex(d: nat): char
    requires d < 16
  {
    "0123456789abcdef"[d]
  }

  /** `\uXXXX` with lower-case digits, for one UTF-16 code unit. */
  function UnitEscape(u: int): (r: string)
    requires 0 <= u < 0x1_0000
    ensures PrintableAscii(r)
  {
    ['\\', 'u', LowerHex(u / 0x1000), LowerHex((u / 0x100) % 16), LowerHex((u / 16) % 16), LowerHex(u % 16)]
  }

  function UnitEscapes(units: seq<int>): (r: string)
    requires forall i :: 0 <= i < |units| ==> 0 <= units[i] < 0x1_0000
    ensures PrintableAscii(r)
  {
    if units == [] then [] else UnitEscape(units[0]) + UnitEscapes(units[1..])
  }

  /** One character of a string literal: the short escapes for `"`, `\`, newline, carriage
      return, tab, backspace and form feed, printable ASCII as it is, everything else as
      `\u` escapes of its UTF-16 code units. */
  function EscapeChar(c: char): (r: string)
    ensures PrintableAscii(r)
  {
    if c == '"' then "\\\""
    else if c == '\\' then "\\\\"
    else if c == '\n' then "\\n"
    else if c == '\r' then "\\r"
    else if c == '\t' then "\\t"
    else if c == '\U{8}' then "\\b"
    else if c == '\U{C}' then "\\f"
    else if ' ' <= c <= '~' then [c]
    else UnitEscapes(UnitsOf(c))
  }

  function Quote(s: string): (r: string)
    ensures PrintableAscii(r)
  {
    "\"" + QuoteBody(s) + "\""
  }

  function QuoteBody(s: string): (r: string)
    ensures PrintableAscii(r)
  {
    if s == [] then [] else EscapeChar(s[0]) + QuoteBody(s[1..])
  }

  function IntToString(n: int): (r: string)
    ensures PrintableAscii(r)
  {
    if n < 0 then "-" + NatToString(-n) else NatToString(n)
  }

  /** `json.dumps`: the text, or the `TypeError` raised at a `datetime` or `ObjectId`.
      The text is printable ASCII throughout. */
  function Dumps(v: Json): (r: Result<string, string>)
    ensures r.Ok? <==> Serializable(v)
    ensures r.Ok? ==> PrintableAscii(r.value)
    decreases v, 1
  {
    match v
    case JNull => Ok("null")
    case JBool(b) => Ok(if b then "true" else "false")
    case JInt(n) => Ok(IntToString(n))
    case JStr(s) => Ok(Quote(s))
    case JDateTime(_) => Err("Object of type datetime is not JSON serializable")
    case JObjectId(_) => Err("Object of type ObjectId is not JSON serializable")
    case JObject(fields) =>
      var body := DumpMembers(v, fields);
      if body.Ok? then
        PrintableConcat("{", body.value);
        PrintableConcat("{" + body.value, "}");
        Ok("{" + body.value + "}")
      else body
  }

  /** The members of an object, separated by `", "`. */
  function DumpMembers(ghost parent: Json, fields: seq<Member>): (r: Result<string, string>)
    requires parent.JObject? && forall m :: m in fields ==> m in parent.fields
    ensures r.Ok? <==> forall i :: 0 <= i < |fields| ==> Serializable(fields[i].value)
    ensures r.Ok? ==> PrintableAscii(r.value)
    decreases parent, 0, |fields|
  {
    if fields == [] then Ok("")
    else
      assert fields[0] in parent.fields;
      var first := Dumps(fields[0].value);
      if first.Err? then first
      else
        var rest := DumpMembers(parent, fields[1..]);
        if rest.Err? then
          MembersFail(fields);
          rest
        else
          MembersOk(fields);
          var item := Quote(fields[0].key) + ": " + first.value;
          PrintableConcat(Quote(fields[0].key), ": ");
          PrintableConcat(Quote(fields[0].key) + ": ", first.value);
          PrintableConcat(item, ", ");
          PrintableConcat(item + ", ", rest.value);
          Ok(if |fields| == 1 then item else item + ", " + rest.value)
  }

  lemma MembersFail(fields: seq<Member>)
    requires fields != []
    requires !forall i :: 0 <= i < |fields| - 1 ==> Serializable(fields[1..][i].value)
    ensures !forall i :: 0 <= i < |fields| ==> Serializable(fields[i].value)
  {
    var i :| 0 <= i < |fields| - 1 && !Serializable(fields[1..][i].value);
    assert fields[1..][i] == fields[i + 1];
  }

  lemma MembersOk(fields: seq<Member>)
    requires fields != [] && Serializable(fields[0].value)
    requires forall i :: 0 <= i < |fields| - 1 ==> Serializable(fields[1..][i].value)
    ensures forall i :: 0 <= i < |fields| ==> Serializable(fields[i].value)
  {
    forall i | 0 < i < |fields|
      ensures Serializable(fields[i].value)
    {
      assert fields[1..][i - 1] == fields[i];
    }
  }
}
