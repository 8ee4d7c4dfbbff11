/**
 * Go's fixed-width integers as the model needs them: the int32/int64 ranges,
 * the truncating conversions int32(x) and wrap-around int64 addition, and
 * Go's integer division, which truncates toward zero (Dafny's `/` does not).
 */
module GoInts {

  const INT32_MIN: int := -0x8000_0000
  const INT32_MAX: int := 0x7fff_ffff
  const INT64_MIN: int := -0x8000_0000_0000_0000
  const INT64_MAX: int := 0x7fff_ffff_ffff_ffff

  predicate InInt32(x: int) { INT32_MIN <= x <= INT32_MAX }
  predicate InInt64(x: int) { INT64_MIN <= x <= INT64_MAX }

  type Int32 = x: int | InInt32(x) witness 0
  /** Go's `int64`, and Go's `int` on the 64-bit platforms the benchmark runs on. */
  type Int64 = x: int | InInt64(x) witness 0

  /** Go's conversion `int32(x)`: keep the low 32 bits as a two's-complement value. */
  function Wrap32(x: int): (r: Int32)
    ensures InInt32(x) ==> r == x
    ensures (x - r) % 0x1_0000_0000 == 0
  {
    (x - INT32_MIN) % 0x1_0000_0000 + INT32_MIN
  }

  /** The result of int64 arithmetic whose exact value is `x`: it wraps modulo 2^64. */
  function Wrap64(x: int): (r: Int64)
    ensures InInt64(x) ==> r == x
    ensures (x - r) % 0x1_0000_0000_0000_0000 == 0
  {
    (x - INT64_MIN) % 0x1_0000_0000_0000_0000 + INT64_MIN
  }

  /** Wrapping an intermediate sum does not change the wrapped total. */
  lemma Wrap64AddLeft(a: int, b: int)
    ensures Wrap64(Wrap64(a) + b) == Wrap64(a + b)
  {
    var m := 0x1_0000_0000_0000_0000;
    var q := (a - INT64_MIN) / m;
    assert Wrap64(a) == a - q * m;
    assert (Wrap64(a) + b - INT64_MIN) == (a + b - INT64_MIN) + (-q) * m;
    ModShift(a + b - INT64_MIN, -q, m);
  }

  lemma ModShift(x: int, k: int, m: int)
    requires m > 0
    ensures (x + k * m) % m == x % m
  {
    var r := x % m;
    assert x + k * m == (x / m + k) * m + r;
    ModUnique(x + k * m, m, x / m + k, r);
  }

  /** The remainder is determined by any quotient/remainder split of `n`. */
  lemma ModUnique(n: int, m: int, q: int, r: int)
    requires m > 0 && 0 <= r < m && n == q * m + r
    ensures n % m == r
  {
    var q', r' := n / m, n % m;
    assert (q - q') * m == r' - r;
    if q - q' >= 1 {
      MulAtLeast(q - q', m);
    } else if q - q' <= -1 {
      MulAtLeast(q' - q, m);
    }
  }

  lemma MulAtLeast(t: int, m: int)
    requires t >= 1 && m > 0
    ensures t * m >= m
  {
    assert t * m == (t - 1) * m + m;
    if t > 1 { MulAtLeast(t - 1, m); }
  }

  function Abs(x: int): nat { if x < 0 then -x else x }

  /**
   * Go's `a / b` on integers: the quotient truncated toward zero, so the
   * remainder `a - q * b` is smaller than `b` in magnitude and never has
   * the opposite sign of `a`.
   */
  function Quot(a: int, b: int): (q: int)
    requires b != 0
    ensures Abs(a - q * b) < Abs(b)
    ensures a - q * b == 0 || ((a - q * b < 0) <==> (a < 0))
  {
    var mag := Abs(a) / Abs(b);
    QuotMagnitude(Abs(a), Abs(b));
    if (a < 0) == (b < 0) then
      assert a - mag * b == (if a < 0 then -(Abs(a) - mag * Abs(b)) else Abs(a) - mag * Abs(b));
      mag
    else
      assert a - (-mag) * b == (if a < 0 then -(Abs(a) - mag * Abs(b)) else Abs(a) - mag * Abs(b));
      -mag
  }

  lemma QuotMagnitude(x: nat, y: nat)
    requires y > 0
    ensures 0 <= x - (x / y) * y < y
  {
  }
}
