/** JavaScript values as they travel in request and response bodies, with the
    three JavaScript operations the server code applies to them: truthiness
    (`if (!x)`), optional member access (`x?.key`) and `a || b`, and the text a
    value becomes inside a template literal. */
module Json {

  /** Numbers are integers here; `Undefined` is a missing field. */
  datatype Json =
    | Undefined
    | Null
    | Bool(b: bool)
    | Num(n: int)
    | Str(s: string)
    | Arr(items: seq<Json>)
    | Obj(fields: map<string, Json>)

  /** JavaScript truthiness: everything but `undefined`, `null`, `false`, `0` and `""`. */
  predicate Truthy(j: Json)
  {
    match j
    case Undefined => false
    case Null => false
    case Bool(b) => b
    case Num(n) => n != 0
    case Str(s) => s != ""
    case Arr(_) => true
    case Obj(_) => true
  }

  /** `j.key` (or `j?.key`) for a named key: the field of an object, and
      `undefined` for a missing field or a value that is not an object. Numeric
      keys into arrays are not used with it. */
  function Get(j: Json, key: string): Json
  {
    if j.Obj? && key in j.fields then j.fields[key] else Undefined
  }

  /** The message of the TypeError thrown by reading a property of `null` or
      `undefined`. */
  function PropertyReadError(j: Json, key: string): string
  {
    "Cannot read properties of " + (if j.Null? then "null" else "undefined") + " (reading '" + key + "')"
  }

  /** `j[0]` of a value whose reading does not throw: the first element of an
      array, the first character of a string, the field "0" of an object, and
      `undefined` for an empty array, an empty string, a number or a boolean. */
  function First(j: Json): Json
  {
    match j
    case Arr(items) => if items != [] then items[0] else Undefined
    case Str(s) => if s != "" then Str(s[..1]) else Undefined
    case Obj(_) => Get(j, "0")
    case _ => Undefined
  }

  /** `a || b`. */
  function Or(a: Json, b: Json): Json
  {
    if Truthy(a) then a else b
  }

  /** `||` picks one of its operands, is truthy exactly when one of them is,
      skips falsy left operands and groups either way, so a fallback chain
      `a || b || c` is the first truthy value of the chain, or its last value. */
  lemma OrLaws(a: Json, b: Json, c: Json)
    ensures Or(a, b) == a || Or(a, b) == b
    ensures Truthy(Or(a, b)) <==> Truthy(a) || Truthy(b)
    ensures !Truthy(a) ==> Or(a, b) == b
    ensures Or(Or(a, b), c) == Or(a, Or(b, c))
    ensures Or(a, a) == a
  {
  }

  function Digit(d: nat): char
    requires d < 10
  {
    "0123456789"[d]
  }

  /** The decimal numeral of a natural number. */
  function NatText(n: nat): (r: string)
    ensures r != [] && forall k :: 0 <= k < |r| ==> '0' <= r[k] <= '9'
  {
    if n < 10 then [Digit(n)] else NatText(n / 10) + [Digit(n % 10)]
  }

  function IntText(n: int): (r: string)
    ensures r != []
  {
    if n < 0 then "-" + NatText(-n) else NatText(n)
  }

  /** `${j}` in a template literal (String(j)); an array joins its elements with
      commas, writing nothing for `null` and `undefined`. */
  function Text(j: Json): string
  {
    match j
    case Undefined => "undefined"
    case Null => "null"
    case Bool(b) => if b then "true" else "false"
    case Num(n) => IntText(n)
    case Str(s) => s
    case Obj(_) => "[object Object]"
    case Arr(items) =>
      JoinWithCommas(seq(|items|, k requires 0 <= k < |items| =>
        if items[k].Undefined? || items[k].Null? then "" else Text(items[k])))
  }

  function JoinWithCommas(parts: seq<string>): string
  {
    if parts == [] then ""
    else if |parts| == 1 then parts[0]
    else parts[0] + "," + JoinWithCommas(parts[1..])
  }
}
