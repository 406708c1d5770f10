/** JavaScript number conversions used by the polyfill.

    A JavaScript number is modelled as a `real` (finite, exact). The double-tilde
    operator `~~v` is ECMAScript's ToInt32: truncate toward zero, reduce modulo
    2^32, and re-read the result as a signed 32-bit integer. */
module JsNumbers {

  const TWO_31: int := 0x8000_0000
  const TWO_32: int := 0x1_0000_0000

  /** The signed 32-bit integers. */
  predicate InInt32(n: int) {
    -TWO_31 <= n < TWO_31
  }

  /** A number with no fractional part. */
  predicate IsInteger(v: real) {
    v.Floor as real == v
  }

  /** Truncation toward zero (the integer part of `v`). */
  function Trunc(v: real): (r: int)
    ensures 0.0 <= v ==> 0 <= r && r as real <= v < r as real + 1.0
    ensures v < 0.0 ==> r <= 0 && r as real - 1.0 < v <= r as real
  {
    if v >= 0.0 then v.Floor else -((-v).Floor)
  }

  /** `~~v`: ToInt32 of a finite number. */
  function ToInt32(v: real): (r: int)
    ensures InInt32(r)
    ensures (r - Trunc(v)) % TWO_32 == 0
  {
    var t := Trunc(v);
    var m := t % TWO_32;
    assert t == (t / TWO_32) * TWO_32 + m;
    if m >= TWO_31 then
      assert m - TWO_32 - t == (-(t / TWO_32) - 1) * TWO_32;
      m - TWO_32
    else
      assert m - t == -(t / TWO_32) * TWO_32;
      m
  }

  /** The two properties in ToInt32's contract determine its result: any signed
      32-bit integer congruent to the truncation modulo 2^32 is ToInt32's. */
  lemma {:induction false} ToInt32Unique(v: real, r: int)
    requires InInt32(r)
    requires (r - Trunc(v)) % TWO_32 == 0
    ensures r == ToInt32(v)
  {
    var s := ToInt32(v);
    var d := r - s;
    assert d == (r - Trunc(v)) - (s - Trunc(v));
    CongruenceSub(r - Trunc(v), s - Trunc(v));
    assert d % TWO_32 == 0;
    assert -TWO_32 < d < TWO_32;
    SmallMultipleIsZero(d);
  }

  lemma CongruenceSub(a: int, b: int)
    requires a % TWO_32 == 0 && b % TWO_32 == 0
    ensures (a - b) % TWO_32 == 0
  {
    assert a == (a / TWO_32) * TWO_32;
    assert b == (b / TWO_32) * TWO_32;
    assert a - b == (a / TWO_32 - b / TWO_32) * TWO_32;
  }

  lemma SmallMultipleIsZero(d: int)
    requires d % TWO_32 == 0 && -TWO_32 < d < TWO_32
    ensures d == 0
  {
    var q := d / TWO_32;
    assert d == q * TWO_32;
  }

  /** Truncating an integer gives the integer back. */
  lemma TruncOfInteger(n: int)
    ensures Trunc(n as real) == n
  {
    if n < 0 {
      assert (-(n as real)).Floor == -n;
    }
  }

  /** Inside the signed 32-bit range `~~` is plain truncation toward zero. */
  lemma {:induction false} ToInt32InRange(v: real)
    requires InInt32(Trunc(v))
    ensures ToInt32(v) == Trunc(v)
  {
    ToInt32Unique(v, Trunc(v));
  }

  /** `~~` of a signed 32-bit integer is that integer. */
  lemma {:induction false} ToInt32OfInt32(n: int)
    requires InInt32(n)
    ensures ToInt32(n as real) == n
  {
    TruncOfInteger(n);
    ToInt32InRange(n as real);
  }

  /** `~~~~v == ~~v`: truncating twice is truncating once. */
  lemma {:induction false} ToInt32Idempotent(v: real)
    ensures ToInt32(ToInt32(v) as real) == ToInt32(v)
  {
    ToInt32OfInt32(ToInt32(v));
  }

  /** `~~undefined` is 0 (ToInt32(NaN)); a present value is converted. */
  function ToInt32Opt(v: Option<real>): (r: int)
    ensures InInt32(r)
    ensures v.None? ==> r == 0
    ensures v.Some? && InInt32(Trunc(v.value)) ==> r == Trunc(v.value)
  {
    match v
    case None => 0
    case Some(x) =>
      assert InInt32(Trunc(x)) ==> ToInt32(x) == Trunc(x) by {
        if InInt32(Trunc(x)) { ToInt32InRange(x); }
      }
      ToInt32(x)
  }

  /** A JavaScript value that may be `undefined`. */
  datatype Option<+T> = None | Some(value: T)
}
