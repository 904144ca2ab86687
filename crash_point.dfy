/**
 * The crash-point generator, in its two copies: the client's cosmetic
 * prediction drawn when a flight starts, and the server's authoritative draw
 * made when a bet is accepted (with the forced-loss override). Every random
 * draw is a parameter in [0, 1), as `Math.random()` and `random.random()` give.
 */
module CrashPoint {
  import opened Money

  const MaxCrash: real := 1000.0

  predicate IsDraw(x: real)
  {
    0.0 <= x < 1.0
  }

  function Min(a: real, b: real): real
  {
    if a <= b then a else b
  }

  function Max(a: real, b: real): real
  {
    if a >= b then a else b
  }

  lemma QuotientRange(r: real)
    requires 0.0 <= r < 0.99
    ensures 0.99 <= 0.99 / (1.0 - r) < 99.0
  {
    var d := 1.0 - r;
    var q := 0.99 / d;
    assert q * d == 0.99;
    if q < 0.99 {
      MulMonoStrict(q, 0.99, d);
      MulMono(d, 1.0, 0.99);
    }
    if q >= 99.0 {
      MulMono(99.0, q, d);
      MulMonoStrict(0.01, d, 99.0);
    }
  }

  /**
   * The heavy-tailed base both copies share: `0.99 / (1 - r)` below the
   * 0.99 threshold, otherwise a uniform value in [100, 1000).
   */
  function Base(r: real, u: real): (b: real)
    requires IsDraw(r) && IsDraw(u)
    ensures r < 0.99 ==> 0.99 <= b < 99.0
    ensures r >= 0.99 ==> 100.0 <= b < 1000.0
  {
    if r < 0.99 then QuotientRange(r); 0.99 / (1.0 - r) else u * 900.0 + 100.0
  }

  /** The clamped base times the jitter factor 0.8 + 0.4 w, before rounding. */
  function Jittered(r: real, u: real, w: real): real
    requires IsDraw(r) && IsDraw(u) && IsDraw(w)
  {
    Min(Base(r, u), MaxCrash) * (0.8 + w * 0.4)
  }

  lemma JitteredRange(r: real, u: real, w: real)
    requires IsDraw(r) && IsDraw(u) && IsDraw(w)
    ensures 0.79 <= Jittered(r, u, w) <= 1200.0
  {
    var b := Min(Base(r, u), MaxCrash);
    var j := 0.8 + w * 0.4;
    ProductRange(b, j);
    assert Jittered(r, u, w) == b * j;
  }

  lemma ProductRange(b: real, j: real)
    requires 0.99 <= b <= 1000.0 && 0.8 <= j < 1.2
    ensures 0.79 <= b * j <= 1200.0
  {
    MulMono(0.99, b, j);
    assert 0.99 * j <= b * j;
    MulMono(b, 1000.0, j);
    assert b * j <= 1000.0 * j;
  }

  /** Client prediction: clamp the base to 1000, jitter by 0.8 + 0.4 w, round to cents. */
  function ClientCrashPoint(r: real, u: real, w: real): real
    requires IsDraw(r) && IsDraw(u) && IsDraw(w)
  {
    Round2(Jittered(r, u, w))
  }

  /** The jitter is applied after the clamp, so the prediction lies in [0.79, 1200]. */
  lemma ClientCrashPointRange(r: real, u: real, w: real)
    requires IsDraw(r) && IsDraw(u) && IsDraw(w)
    ensures 0.79 <= ClientCrashPoint(r, u, w) <= 1200.0
  {
    JitteredRange(r, u, w);
    Round2AtLeast(Jittered(r, u, w), 0.79);
    Round2AtMost(Jittered(r, u, w), 1200.0);
  }

  /** Nothing lifts the prediction to 1.0: the smallest draws give 0.79. */
  lemma ClientCrashPointCanBeBelowOne()
    ensures ClientCrashPoint(0.0, 0.0, 0.0) == 0.79
  {
    assert Base(0.0, 0.0) == 0.99;
    assert 0.99 * 0.8 * 100.0 + 0.5 == 79.7;
  }

  /** Nor is the jittered prediction kept at or below 1000. */
  lemma ClientCrashPointCanExceedMax()
    ensures ClientCrashPoint(0.995, 0.9, 0.99) > MaxCrash
  {
    assert Base(0.995, 0.9) == 910.0;
    assert 910.0 * (0.8 + 0.99 * 0.4) == 1088.36;
  }

  /** The branch is chosen by the first draw alone. */
  lemma BigWinBranch(u: real)
    requires IsDraw(u)
    ensures 100.0 <= Base(0.995, u) < 1000.0
    ensures Base(0.995, u) == 100.0 + 900.0 * u
  {
  }

  /** Server draw on the normal path: clamp to 1000 and round to cents. */
  function ServerCrashPoint(r: real, u: real): (c: real)
    requires IsDraw(r) && IsDraw(u)
    ensures IsCents(c)
    ensures 0.99 <= c <= MaxCrash
  {
    var b := Min(Base(r, u), MaxCrash);
    Round2AtLeast(b, 0.99);
    Round2AtMost(b, MaxCrash);
    Round2(b)
  }

  /** Upper end of the forced-loss interval for a given auto-cashout target. */
  function ForcedLossCap(autoCashout: real): real
  {
    if autoCashout <= 1.5 then Max(1.01, autoCashout - 0.05)
    else Max(1.2, autoCashout - 0.2)
  }

  /** `random.uniform(lo, hi)`, which Python computes as lo + (hi - lo) u. */
  function Uniform(lo: real, hi: real, u: real): real
  {
    lo + (hi - lo) * u
  }

  lemma UniformWithin(lo: real, hi: real, u: real)
    requires lo <= hi && IsDraw(u)
    ensures lo <= Uniform(lo, hi, u) <= hi
  {
    var c := hi - lo;
    MulMonoLeft(c, 0.0, u);
    MulMonoLeft(c, u, 1.0);
  }

  /** The forced-loss crash point: `round(random.uniform(1.0, cap), 2)`. */
  function ForcedLossCrashPoint(autoCashout: real, u: real): real
    requires IsDraw(u)
  {
    Round2(Uniform(1.0, ForcedLossCap(autoCashout), u))
  }

  /**
   * The forced-loss override always crashes at or above 1.00 and strictly
   * before any auto-cashout target above 1.01.
   */
  lemma ForcedLossBeforeTarget(autoCashout: real, u: real)
    requires IsDraw(u)
    requires autoCashout > 1.01
    ensures 1.0 <= ForcedLossCrashPoint(autoCashout, u) < autoCashout
  {
    var cap := ForcedLossCap(autoCashout);
    var x := Uniform(1.0, cap, u);
    assert cap >= 1.01;
    UniformWithin(1.0, cap, u);
    Round2AtLeast(x, 1.0);
    if cap == 1.01 {
      Round2AtMost(x, 1.01);
    } else if cap == 1.2 {
      Round2AtMost(x, 1.2);
    } else {
      assert cap <= autoCashout - 0.05;
    }
  }

  /** For a target of 1.01 or less the override can still reach the target. */
  lemma ForcedLossCanReachLowTarget()
    ensures ForcedLossCrashPoint(1.0, 0.999) >= 1.0
  {
    assert ForcedLossCap(1.0) == 1.01;
    assert 1.0 + 0.01 * 0.999 == 1.00999;
  }
}
