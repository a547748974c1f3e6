/** The few JavaScript value semantics the characteristic code relies on:
    `undefined` fields, numbers with NaN, booleans, truthiness, `Number(string)`
    and `Math.round`. Number arithmetic is exact (`real`), not IEEE-754. */
module Js {

  /** An optional field or lookup result: `None` is `undefined`. */
  datatype Option<T> = None | Some(value: T)

  /** A HomeKit characteristic value as JavaScript sees it. */
  datatype Value = Num(x: real) | NaN | Bool(b: bool)

  /** JavaScript truthiness: `0`, `NaN` and `false` are falsy. */
  predicate Truthy(v: Value) {
    match v
    case Num(x) => x != 0.0
    case NaN => false
    case Bool(b) => b
  }

  predicate IsDigit(c: char) {
    '0' <= c <= '9'
  }

  predicate IsDecimal(s: string) {
    forall i :: 0 <= i < |s| ==> IsDigit(s[i])
  }

  /** The natural number a string of decimal digits denotes ("" denotes 0). */
  function DigitsValue(s: string): nat
    requires IsDecimal(s)
  {
    if s == [] then 0 else 10 * DigitsValue(s[..|s| - 1]) + (s[|s| - 1] as int - '0' as int)
  }

  /** `Number(s)` on the strings the Tuya API reports: a string of decimal
      digits converts to its value (the empty string to 0, as in JavaScript);
      any other string converts to NaN. */
  function ToNumber(s: string): (r: Value)
    ensures r != NaN <==> IsDecimal(s)
    ensures r.Num? ==> 0.0 <= r.x && r.x == r.x.Floor as real
    ensures s == "" ==> r == Num(0.0)
  {
    if IsDecimal(s) then Num(DigitsValue(s) as real) else NaN
  }

  function Digit(d: nat): (c: char)
    requires d < 10
    ensures IsDigit(c) && c as int - '0' as int == d
  {
    ('0' as int + d) as char
  }

  /** The decimal rendering of a natural number, without leading zeros. */
  function DecimalString(n: nat): (s: string)
    ensures |s| > 0 && IsDecimal(s)
    ensures s[0] == '0' ==> n == 0
  {
    if n < 10 then [Digit(n)] else DecimalString(n / 10) + [Digit(n % 10)]
  }

  /** `Number` reads back exactly the number a decimal string was rendered from. */
  lemma {:induction false} DecimalRoundTrip(n: nat)
    ensures DigitsValue(DecimalString(n)) == n
    ensures ToNumber(DecimalString(n)) == Num(n as real)
  {
    var s := DecimalString(n);
    if n >= 10 {
      DecimalRoundTrip(n / 10);
      assert s[..|s| - 1] == DecimalString(n / 10);
    } else {
      assert s[..|s| - 1] == [];
    }
  }

  /** `Math.round` over exact reals: the nearest integer, halves rounded up. */
  function MathRound(x: real): (r: int)
    ensures r as real - 0.5 <= x < r as real + 0.5
  {
    (x + 0.5).Floor
  }
}
