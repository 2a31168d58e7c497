/**
 * The JavaScript values that flow through the options bag, with the two
 * language rules the adapter leans on: truthiness (what `if (x)` and `x || y`
 * test) and the string conversion that `x + ':'` applies.
 */
module Js {

  /**
   * A JavaScript value. Numbers are integers here; an `Error` instance is
   * kept apart from other objects because its string form is defined; any
   * other object, array or function is known only by its identity.
   */
  datatype JsValue =
    | Undefined
    | Null
    | Bool(b: bool)
    | Num(n: int)
    | Str(s: string)
    | ErrorObject(message: string)
    | Object(id: nat)

  /** `undefined`, `null`, `false`, `0` and `""` are falsy; everything else is truthy. */
  predicate Truthy(v: JsValue)
    ensures Truthy(v) <==> v !in [Undefined, Null, Bool(false), Num(0), Str("")]
  {
    match v
    case Undefined => false
    case Null => false
    case Bool(b) => b
    case Num(n) => n != 0
    case Str(s) => s != ""
    case ErrorObject(_) => true
    case Object(_) => true
  }

  /** JavaScript's `a || b`: the first operand when it is truthy, otherwise the second. */
  function Or(a: JsValue, b: JsValue): (r: JsValue)
    ensures r == a || r == b
    ensures Truthy(r) <==> Truthy(a) || Truthy(b)
    ensures Truthy(a) ==> r == a
    ensures !Truthy(a) ==> r == b
  {
    if Truthy(a) then a else b
  }

  /** The character of decimal digit `d`. */
  function DigitChar(d: int): (c: char)
    requires 0 <= d < 10
    ensures '0' <= c <= '9'
  {
    ('0' as int + d) as char
  }

  predicate IsDigits(s: string) {
    forall i :: 0 <= i < |s| ==> '0' <= s[i] <= '9'
  }

  /** The decimal numeral of `n`, without leading zeros, as `String(n)` writes it. */
  function Decimal(n: nat): (s: string)
    ensures s != [] && IsDigits(s)
    ensures |s| > 1 ==> s[0] != '0'
    decreases n
  {
    if n < 10 then [DigitChar(n)] else Decimal(n / 10) + [DigitChar(n % 10)]
  }

  /** The number a string of decimal digits denotes: the reference reading of Decimal. */
  function DecimalValue(s: string): (n: nat)
    requires IsDigits(s)
    decreases |s|
  {
    if s == [] then 0 else DecimalValue(s[..|s| - 1]) * 10 + (s[|s| - 1] as int - '0' as int)
  }

  /** Decimal writes exactly the numeral that reads back as `n`. */
  lemma {:induction false} DecimalRoundTrip(n: nat)
    ensures DecimalValue(Decimal(n)) == n
    decreases n
  {
    if n >= 10 {
      DecimalRoundTrip(n / 10);
      var s := Decimal(n);
      assert s[..|s| - 1] == Decimal(n / 10);
    }
  }

  /**
   * `String(v)`, the conversion that `v + ':'` applies to a non-string operand.
   * An Error converts as `Error.prototype.toString` does; any other object as a
   * plain object does.
   */
  function ToString(v: JsValue): (r: string)
    ensures v.Str? ==> r == v.s
    ensures r == "" <==> v == Str("")
    ensures v.Num? ==> r == (if v.n < 0 then "-" + Decimal(-v.n) else Decimal(v.n))
    ensures v.Bool? ==> r == (if v.b then "true" else "false")
  {
    match v
    case Undefined => "undefined"
    case Null => "null"
    case Bool(b) => if b then "true" else "false"
    case Num(n) => if n < 0 then "-" + Decimal(-n) else Decimal(n)
    case Str(s) => s
    case ErrorObject(m) => if m == "" then "Error" else "Error: " + m
    case Object(_) => "[object Object]"
  }

  /** A number converts to its decimal numeral: the digits read back as its magnitude, after a '-' when negative. */
  lemma NumberNumeral(n: int)
    ensures n >= 0 ==> IsDigits(ToString(Num(n))) && DecimalValue(ToString(Num(n))) == n
    ensures n < 0 ==> var r := ToString(Num(n));
      && r[0] == '-' && IsDigits(r[1..]) && DecimalValue(r[1..]) == -n
  {
    if n >= 0 {
      DecimalRoundTrip(n);
    } else {
      DecimalRoundTrip(-n);
      assert ToString(Num(n))[1..] == Decimal(-n);
    }
  }
}
