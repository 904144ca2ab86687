/**
 * The two decimal roundings the system applies to money and multipliers:
 * `round_money` on the server (Decimal quantize to 0.01, ROUND_DOWN) and the
 * round-to-two-decimals used by Python's `round(x, 2)` and JavaScript's
 * `toFixed(2)`. Values are exact reals; binary floating point is not modelled.
 */
module Money {

  /** A value that is a whole number of hundredths (cents). */
  predicate IsCents(v: real)
  {
    (v * 100.0).Floor as real == v * 100.0
  }

  /** Integer part, rounding toward zero (Decimal's ROUND_DOWN). */
  function TruncateToInt(x: real): (n: int)
    ensures x >= 0.0 ==> n as real <= x < n as real + 1.0
    ensures x < 0.0 ==> n as real - 1.0 < x <= n as real
  {
    if x >= 0.0 then x.Floor else -((-x).Floor)
  }

  /** `round_money`: cut a value down to whole cents, toward zero. */
  function RoundMoney(v: real): (r: real)
    ensures IsCents(r)
    ensures v >= 0.0 ==> 0.0 <= r <= v && v - r < 0.01
    ensures v < 0.0 ==> v <= r <= 0.0 && r - v < 0.01
  {
    var n := TruncateToInt(v * 100.0);
    var r := n as real / 100.0;
    assert r * 100.0 == n as real;
    r
  }

  /** A value already in whole cents is left alone by `round_money`. */
  lemma RoundMoneyKeepsCents(v: real)
    requires IsCents(v)
    ensures RoundMoney(v) == v
  {
    var k := (v * 100.0).Floor;
    assert k as real == v * 100.0;
    if v >= 0.0 {
      assert TruncateToInt(v * 100.0) == k;
    } else {
      assert (-(v * 100.0)).Floor == -k;
      assert TruncateToInt(v * 100.0) == k;
    }
  }

  /** Applying `round_money` twice is the same as applying it once. */
  lemma RoundMoneyIdempotent(v: real)
    ensures RoundMoney(RoundMoney(v)) == RoundMoney(v)
  {
    RoundMoneyKeepsCents(RoundMoney(v));
  }

  /** `round_money` never reorders two non-negative amounts. */
  lemma RoundMoneyMonotonic(a: real, b: real)
    requires 0.0 <= a <= b
    ensures RoundMoney(a) <= RoundMoney(b)
  {
    assert (a * 100.0).Floor <= (b * 100.0).Floor;
  }

  /** Round half up to two decimals (`round(x, 2)`, `toFixed(2)`). */
  function Round2(x: real): (r: real)
    ensures IsCents(r)
    ensures x - 0.005 < r <= x + 0.005
  {
    (x * 100.0 + 0.5).Floor as real / 100.0
  }

  /** Rounding to two decimals never goes below a cent-valued lower bound. */
  lemma Round2AtLeast(x: real, lo: real)
    requires IsCents(lo) && lo <= x
    ensures lo <= Round2(x)
  {
    var l := (lo * 100.0).Floor;
    var n := (x * 100.0 + 0.5).Floor;
    assert l as real == lo * 100.0 <= x * 100.0;
    assert l <= n;
    assert Round2(x) == n as real / 100.0;
    assert lo == l as real / 100.0;
  }

  /** Rounding to two decimals never goes above a cent-valued upper bound. */
  lemma Round2AtMost(x: real, hi: real)
    requires IsCents(hi) && x <= hi
    ensures Round2(x) <= hi
  {
    var h := (hi * 100.0).Floor;
    var n := (x * 100.0 + 0.5).Floor;
    assert n as real <= x * 100.0 + 0.5 <= h as real + 0.5;
    assert n <= h;
    assert Round2(x) == n as real / 100.0;
    assert hi == h as real / 100.0;
  }

  /** Rounding to two decimals preserves order. */
  lemma Round2Monotonic(x: real, y: real)
    requires x <= y
    ensures Round2(x) <= Round2(y)
  {
    assert (x * 100.0 + 0.5).Floor <= (y * 100.0 + 0.5).Floor;
  }

  // Multiplication facts on reals, stated once for proofs to instantiate.

  lemma NonNegativeProduct(x: real, y: real)
    ensures x >= 0.0 && y >= 0.0 ==> x * y >= 0.0
  {
  }

  lemma MulMono(a: real, b: real, c: real)
    requires a <= b && 0.0 <= c
    ensures a * c <= b * c
  {
  }

  lemma MulMonoLeft(c: real, a: real, b: real)
    requires a <= b && 0.0 <= c
    ensures c * a <= c * b
  {
  }

  lemma MulMonoStrict(a: real, b: real, c: real)
    requires a < b && 0.0 < c
    ensures a * c < b * c
  {
  }
}
