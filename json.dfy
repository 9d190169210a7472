/** JSON values and their rendering by `JSON.stringify(value, null, 2)`. */
module Json {

  /** A JSON value. Numbers are integers: no number the model renders is fractional. */
  datatype Json =
    | JNull
    | JBool(b: bool)
    | JNum(n: int)
    | JStr(s: string)
    | JArr(items: seq<Json>)
    | JObj(members: seq<(string, Json)>)

  /** The decimal digits of a natural number, most significant first. */
  function NatToDecimal(n: nat): (r: string)
    ensures |r| > 0
    ensures forall i :: 0 <= i < |r| ==> '0' <= r[i] <= '9'
    decreases n
  {
    var d := [(('0' as int) + n % 10) as char];
    if n < 10 then d else NatToDecimal(n / 10) + d
  }

  /** JavaScript's rendering of an integral number. */
  function IntToString(n: int): (r: string)
    ensures |r| > 0
  {
    if n < 0 then "-" + NatToDecimal(-n) else NatToDecimal(n)
  }

  /** The lower-case hexadecimal digit of a value below 16. */
  function HexDigit(d: nat): char
    requires d < 16
  {
    "0123456789abcdef"[d]
  }

  /** The escape JSON.stringify writes for one character of a string. */
  function EscapeChar(c: char): string
  {
    if c == '"' then "\\\""
    else if c == '\\' then "\\\\"
    else if c as int == 8 then "\\b"
    else if c as int == 12 then "\\f"
    else if c == '\n' then "\\n"
    else if c == '\r' then "\\r"
    else if c == '\t' then "\\t"
    else if (c as int) < 0x20 then "\\u00" + [HexDigit((c as int) / 16), HexDigit((c as int) % 16)]
    else [c]
  }

  function EscapeString(s: string): string
    decreases |s|
  {
    if |s| == 0 then "" else EscapeChar(s[0]) + EscapeString(s[1..])
  }

  /** A JSON string literal for `s`. */
  function Quote(s: string): (r: string)
    ensures |r| >= 2 && r[0] == '"' && r[|r| - 1] == '"'
  {
    "\"" + EscapeString(s) + "\""
  }

  /** `JSON.stringify(v, null, 2)` for a value nested at indentation `indent`. */
  function Render(v: Json, indent: string): (r: string)
    decreases v, 1
  {
    match v
    case JNull => "null"
    case JBool(b) => if b then "true" else "false"
    case JNum(n) => IntToString(n)
    case JStr(s) => Quote(s)
    case JArr(items) =>
      if |items| == 0 then "[]"
      else "[\n" + RenderItems(v, items, indent + "  ") + "\n" + indent + "]"
    case JObj(members) =>
      if |members| == 0 then "{}"
      else "{\n" + RenderMembers(v, members, indent + "  ") + "\n" + indent + "}"
  }

  /** The elements of array `parent` from `items` on, one per line, separated by commas. */
  function RenderItems(parent: Json, items: seq<Json>, indent: string): string
    requires parent.JArr? && |items| > 0
    requires forall i :: 0 <= i < |items| ==> items[i] < parent
    decreases parent, 0, |items|
  {
    indent + Render(items[0], indent)
    + if |items| == 1 then "" else ",\n" + RenderItems(parent, items[1..], indent)
  }

  /** The members of object `parent` from `members` on, one `"key": value` per line. */
  function RenderMembers(parent: Json, members: seq<(string, Json)>, indent: string): string
    requires parent.JObj? && |members| > 0
    requires forall i :: 0 <= i < |members| ==> members[i].1 < parent
    decreases parent, 0, |members|
  {
    indent + Quote(members[0].0) + ": " + Render(members[0].1, indent)
    + if |members| == 1 then "" else ",\n" + RenderMembers(parent, members[1..], indent)
  }

  /** The string form of the TypeError JavaScript throws when a value has no primitive form. */
  const ToPrimitiveError := "TypeError: Cannot convert object to primitive value"

  /**
   * Converting the value to a string, as a template literal does, throws. A JSON
   * object inherits a callable `toString` unless it has a `toString` member of its
   * own, which is never callable; `valueOf` then gives back the object itself, so
   * no primitive is found. An array converts by joining its elements.
   */
  predicate ToStringThrows(v: Json)
  {
    match v
    case JObj(members) => exists i :: 0 <= i < |members| && members[i].0 == "toString"
    case JArr(items) => exists i :: 0 <= i < |items| && ToStringThrows(items[i])
    case _ => false
  }

  /** `JSON.stringify(v, null, 2)` at the top level. */
  function Stringify(v: Json): string
  {
    Render(v, "")
  }
}
