/** JavaScript values as the client sees them: whatever JSON parsing yields, plus
    `undefined`, together with the few language rules the client relies on
    (truthiness, property reads that may throw, and conversion to a property key). */
module JsValue {

  datatype Option<T> = None | Some(value: T) {
    function GetOr(default: T): T {
      match this
      case Some(v) => v
      case None => default
    }
  }

  /** A JSON value, or `undefined`. Numbers are modelled as integers. */
  datatype Value =
    | Undefined
    | Null
    | Bool(b: bool)
    | Num(n: int)
    | Str(s: string)
    | Arr(items: seq<Value>)
    | Obj(fields: map<string, Value>)

  /** How evaluating an expression (or awaiting a promise) ends: with a value, or by
      throwing (a rejected promise, for an async function). */
  datatype Completion<T> = Normal(value: T) | Throw

  /** JavaScript's `ToBoolean`: what `if (v)` and `v || w` test. */
  predicate Truthy(v: Value) {
    match v
    case Undefined => false
    case Null => false
    case Bool(b) => b
    case Num(n) => n != 0
    case Str(s) => s != ""
    case Arr(_) => true
    case Obj(_) => true
  }

  predicate Nullish(v: Value) {
    v.Undefined? || v.Null?
  }

  /** The property read `v.key`, for a key that no built-in prototype defines
      (the client reads only "variables", "name", "variant" and "value"):
      reading from `null` or `undefined` throws a TypeError, an object yields its
      own property or `undefined`, any other value yields `undefined`. */
  function Get(v: Value, key: string): (r: Completion<Value>)
    ensures r.Throw? <==> Nullish(v)
    ensures v.Obj? && key in v.fields ==> r == Normal(v.fields[key])
    ensures !Nullish(v) && !(v.Obj? && key in v.fields) ==> r == Normal(Undefined)
  {
    match v
    case Undefined => Throw
    case Null => Throw
    case Obj(fields) => Normal(if key in fields then fields[key] else Undefined)
    case _ => Normal(Undefined)
  }

  /** The optional-chaining read `v?.key`: never throws. */
  function GetOptional(v: Value, key: string): (r: Value)
    ensures Nullish(v) ==> r == Undefined
    ensures !Nullish(v) ==> Get(v, key) == Normal(r)
  {
    if Nullish(v) then Undefined else Get(v, key).value
  }

  function DigitChar(d: nat): char
    requires d < 10
  {
    "0123456789"[d]
  }

  /** Decimal digits of a natural number, most significant first. */
  function NatToDecimal(n: nat): (s: string)
    ensures |s| > 0
    ensures forall i :: 0 <= i < |s| ==> '0' <= s[i] <= '9'
    decreases n
  {
    if n < 10 then [DigitChar(n)] else NatToDecimal(n / 10) + [DigitChar(n % 10)]
  }

  /** Sign and decimal digits of an integer: `String(n)` for a safe integer, of
      magnitude at most 2^53. Above that JavaScript writes only the shortest digits
      that round-trip to the same double, and from 10^21 on, exponent form. */
  function IntToDecimal(n: int): (s: string)
    ensures |s| > 0
    ensures (s[0] == '-') <==> n < 0
  {
    if n < 0 then "-" + NatToDecimal(-n) else NatToDecimal(n)
  }

  /** Joins strings with a separator, as `Array.prototype.join` does. */
  function Join(parts: seq<string>, sep: string): (s: string)
    ensures parts == [] ==> s == ""
    ensures |parts| == 1 ==> s == parts[0]
  {
    if |parts| == 0 then ""
    else if |parts| == 1 then parts[0]
    else Join(parts[..|parts| - 1], sep) + sep + parts[|parts| - 1]
  }

  /** `ToPropertyKey(v)`, the string a computed key `[v]` becomes: `String(v)`.
      Arrays convert by joining their elements with "," (where `null` and
      `undefined` elements become ""), plain objects become "[object Object]". */
  function ToKey(v: Value): (k: string)
    ensures v.Str? ==> k == v.s
    decreases v
  {
    match v
    case Undefined => "undefined"
    case Null => "null"
    case Bool(b) => if b then "true" else "false"
    case Num(n) => IntToDecimal(n)
    case Str(s) => s
    case Arr(items) =>
      Join(seq(|items|, i requires 0 <= i < |items| =>
                          if Nullish(items[i]) then "" else ToKey(items[i])), ",")
    case Obj(_) => "[object Object]"
  }
}
