/** JavaScript values as the adapters receive them from the host, and the two
    coercions the adapters rely on: truthiness (`!!v`, `a || b`) and
    `String(v)` (what `toString()` and template literals produce). */
module Js {

  datatype Option<+T> = None | Some(value: T) {
    function GetOr(default: T): T {
      match this
      case Some(v) => v
      case None => default
    }
  }

  /** A JSON-like JavaScript value. Numbers are integers in this model. */
  datatype JsValue =
    | Undefined
    | Null
    | Bool(b: bool)
    | Num(n: int)
    | Str(s: string)
    | Arr(items: seq<JsValue>)
    | Obj(fields: seq<(string, JsValue)>)

  /** `!!v`: everything but undefined, null, false, 0 and '' is truthy. */
  predicate Truthy(v: JsValue) {
    match v
    case Undefined => false
    case Null => false
    case Bool(b) => b
    case Num(n) => n != 0
    case Str(s) => s != ""
    case Arr(_) => true
    case Obj(_) => true
  }

  /** `a || b` */
  function Or(a: JsValue, b: JsValue): JsValue {
    if Truthy(a) then a else b
  }

  /** `typeof v === 'string'` */
  predicate IsStr(v: JsValue) {
    v.Str?
  }

  function DigitChar(d: nat): char
    requires d < 10
  {
    "0123456789"[d]
  }

  /** Decimal digits of a natural number, most significant first. */
  function NatToString(n: nat): (s: string)
    ensures |s| >= 1
    decreases n
  {
    if n < 10 then [DigitChar(n)] else NatToString(n / 10) + [DigitChar(n % 10)]
  }

  /** `String(v)`. An array joins its elements with ',' (undefined and null
      elements become ''); every other object is '[object Object]'. A string
      prints as itself, and only the empty string and arrays print as ''. */
  function ToString(v: JsValue): (s: string)
    ensures v.Str? ==> s == v.s
    ensures s == "" ==> v == Str("") || v.Arr?
    decreases v, 1
  {
    match v
    case Undefined => "undefined"
    case Null => "null"
    case Bool(b) => if b then "true" else "false"
    case Num(n) => if n < 0 then "-" + NatToString(-n) else NatToString(n)
    case Str(s) => s
    case Arr(_) => JoinItems(v, 0)
    case Obj(_) => "[object Object]"
  }

  function JoinItems(v: JsValue, i: nat): string
    requires v.Arr?
    decreases v, 0, |v.items| - i
  {
    if i >= |v.items| then ""
    else
      var e := v.items[i];
      (if i == 0 then "" else ",")
      + (if e.Undefined? || e.Null? then "" else ToString(e))
      + JoinItems(v, i + 1)
  }

}
