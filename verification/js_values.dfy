/** JavaScript value semantics shared by every model in this project: a possibly
    missing value, a result with an error, truthiness, the `||` and `??`
    operators, string comparison with `<`, and number formatting in templates. */
module JsValues {

  /** A value that may be `undefined` or `null` (both are `None`). */
  datatype Option<+T> = None | Some(value: T)

  /** A settled promise or a call that may throw: `Ok` resolves, `Err` rejects. */
  datatype Result<+T, +E> = Ok(value: T) | Err(error: E)

  /** Truthiness of a possibly missing string: `undefined`, `null` and `""` are falsy. */
  predicate Truthy(s: Option<string>) {
    s.Some? && s.value != ""
  }

  /** Truthiness of a possibly missing integer: `undefined`, `null` and `0` are falsy. */
  predicate TruthyInt(n: Option<int>) {
    n.Some? && n.value != 0
  }

  /** Truthiness of a possibly missing number (NaN is not modelled). */
  predicate TruthyReal(n: Option<real>) {
    n.Some? && n.value != 0.0
  }

  /** `a || b` on strings: `a` when it is truthy, otherwise `b` as it is. */
  function Or(a: Option<string>, b: Option<string>): (r: Option<string>)
    ensures Truthy(a) ==> r == a
    ensures !Truthy(a) ==> r == b
  {
    if Truthy(a) then a else b
  }

  /** `a || 'literal'`: always a string. */
  function OrStr(a: Option<string>, d: string): (r: string)
    ensures Truthy(a) ==> r == a.value
    ensures !Truthy(a) ==> r == d
  {
    if Truthy(a) then a.value else d
  }

  /** `a || b` on integers. */
  function OrInt(a: Option<int>, b: Option<int>): (r: Option<int>)
    ensures TruthyInt(a) ==> r == a
    ensures !TruthyInt(a) ==> r == b
  {
    if TruthyInt(a) then a else b
  }

  /** `a || 0` on numbers. */
  function OrZero(a: Option<real>): (r: real)
    ensures TruthyReal(a) ==> r == a.value
    ensures !TruthyReal(a) ==> r == 0.0
  {
    if TruthyReal(a) then a.value else 0.0
  }

  /** `a ?? d`: only a missing value is replaced, so falsy values such as 0 are kept. */
  function Coalesce<T>(a: Option<T>, d: T): (r: T)
    ensures a.Some? ==> r == a.value
    ensures a.None? ==> r == d
  {
    match a
    case Some(v) => v
    case None => d
  }

  /** How a template literal or `localStorage.setItem` renders a possibly missing string. */
  function Show(s: Option<string>): (r: string)
    ensures s.Some? ==> r == s.value
    ensures s.None? ==> r == "undefined"
  {
    if s.Some? then s.value else "undefined"
  }

  /** Lexicographic comparison by code unit, as JavaScript's `<` on two strings. */
  predicate StrLess(a: string, b: string)
    decreases |a|
  {
    if |b| == 0 then false
    else if |a| == 0 then true
    else if a[0] != b[0] then a[0] < b[0]
    else StrLess(a[1..], b[1..])
  }

  /** No string is less than itself, so an equal timestamp never wins. */
  lemma {:induction false} StrLessIrreflexive(a: string)
    ensures !StrLess(a, a)
    decreases |a|
  {
    if |a| > 0 {
      StrLessIrreflexive(a[1..]);
    }
  }

  /** At most one of `a < b` and `b < a` holds. */
  lemma {:induction false} StrLessAsymmetric(a: string, b: string)
    ensures !(StrLess(a, b) && StrLess(b, a))
    decreases |a|
  {
    if |a| > 0 && |b| > 0 && a[0] == b[0] {
      StrLessAsymmetric(a[1..], b[1..]);
    }
  }

  /** The empty string is below every non-empty string. */
  lemma EmptyIsLeast(b: string)
    requires b != ""
    ensures StrLess("", b)
  {
  }

  function DigitChar(d: nat): (c: char)
    requires d < 10
    ensures '0' <= c <= '9'
  {
    "0123456789"[d]
  }

  /** Decimal rendering of a non-negative integer, as `${n}` in a template. */
  function NatToString(n: nat): (s: string)
    ensures |s| >= 1
    ensures forall i :: 0 <= i < |s| ==> '0' <= s[i] <= '9'
    decreases n
  {
    if n < 10 then [DigitChar(n)] else NatToString(n / 10) + [DigitChar(n % 10)]
  }

  /** Decimal rendering of any integer, with a leading minus sign when negative. */
  function IntToString(n: int): (s: string)
    ensures |s| >= 1
    ensures n >= 0 ==> s == NatToString(n)
  {
    if n >= 0 then NatToString(n) else "-" + NatToString(-n)
  }

  /** `s.startsWith(p)`. */
  predicate StartsWith(s: string, p: string) {
    |p| <= |s| && s[..|p|] == p
  }
}
