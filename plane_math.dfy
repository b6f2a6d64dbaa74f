/**
 * Fixed-width integer arithmetic behind the per-plane dimension accessors of a
 * decoded picture: the C++ `int` and `unsigned int` ranges, powers of two, and
 * the rounded-up right shift `ceilRshift`.
 */
module PlaneMath {

  const INT32_MIN: int := -0x8000_0000
  const INT32_MAX: int := 0x7fff_ffff

  /** A C++ `int` (32-bit, two's complement). */
  type Int32 = x: int | INT32_MIN <= x <= INT32_MAX

  /** A C++ `unsigned int` (32-bit). */
  type UInt32 = x: int | 0 <= x < 0x1_0000_0000

  /**
   * Assigning an `unsigned int` to an `int`: values above INT32_MAX wrap
   * around to negative ones, as on every two's complement target.
   */
  function ToInt32(u: UInt32): (r: Int32)
    ensures r % 0x1_0000_0000 == u
    ensures u <= INT32_MAX <==> r == u
    ensures r < 0 <==> u > INT32_MAX
  {
    if u <= INT32_MAX then u else u - 0x1_0000_0000
  }

  /** 2^n, the value of `1 << n`. */
  function Pow2(n: nat): (p: nat)
    ensures p >= 1
  {
    if n == 0 then 1 else 2 * Pow2(n - 1)
  }

  /**
   * What `(val + (1 << shift) - 1) >> shift` needs to be defined on `int`:
   * the shift count is in range and the left-to-right sum `val + (1 << shift)`
   * does not overflow (subtracting 1 afterwards cannot).
   */
  predicate CeilRshiftDefined(val: int, shift: int)
  {
    0 <= shift <= 30 && INT32_MIN <= val && val + Pow2(shift) <= INT32_MAX
  }

  /** A product of two non-negative integers is non-negative. */
  lemma ProductNonNegative(a: int, b: int)
    requires 0 <= a && 0 <= b
    ensures 0 <= a * b
  {
  }

  /**
   * For `val + d - 1 == q * d + m` with `0 <= m < d`, that is `q` the floor
   * of `(val + d - 1) / d`, the quotient `q` is the ceiling of `val / d`.
   */
  lemma CeilingOfQuotient(val: int, d: int, q: int, m: int)
    requires d >= 1 && 0 <= m < d && val + d - 1 == q * d + m
    ensures (q - 1) * d < val <= q * d
    ensures 0 <= val ==> 0 <= q <= val
    ensures val <= 0 ==> val <= q <= 0
    ensures d == 1 ==> q == val
  {
    assert (q - 1) * d == q * d - d;
    if q >= 1 {
      ProductNonNegative(q - 1, d - 1);
      assert (q - 1) * (d - 1) == (q - 1) * d - (q - 1);
    } else {
      ProductNonNegative(-q, d - 1);
      assert (-q) * (d - 1) == q - q * d;
      if q == 0 {
        assert q * d == 0;
      }
      if 0 <= val {
        ProductNonNegative(-q, d);
        assert (-q) * d == - (q * d);
      }
    }
    if d == 1 {
      assert q * d == q;
    }
  }

  /**
   * `ceilRshift`: `val` divided by 2^shift, rounded up. The shift right of a
   * negative value is arithmetic (floor division), so the ceiling law holds
   * for every `val` the operation is defined on.
   */
  function CeilRshift(val: Int32, shift: Int32): (r: Int32)
    requires CeilRshiftDefined(val, shift)
    ensures (r - 1) * Pow2(shift) < val <= r * Pow2(shift)
    ensures 0 <= val ==> 0 <= r <= val
    ensures shift == 0 ==> r == val
  {
    var d := Pow2(shift);
    var q := (val + d - 1) / d;
    CeilingOfQuotient(val, d, q, (val + d - 1) % d);
    q
  }

  // Concrete values of the ceiling law, one lemma each.

  /** The smallest odd width is not under-counted. */
  lemma CeilRshiftOneAtShiftOne()
    ensures CeilRshift(1, 1) == 1
  {
  }

  lemma CeilRshiftFourAtShiftOne()
    ensures CeilRshift(4, 1) == 2
  {
  }

  /** An odd width is rounded up. */
  lemma CeilRshiftFiveAtShiftOne()
    ensures CeilRshift(5, 1) == 3
  {
  }

  /** Shifting by zero leaves the dimension as it is. */
  lemma CeilRshiftFourAtShiftZero()
    ensures CeilRshift(4, 0) == 4
  {
  }
}
