/**
 * The in-memory sliding-window rate limiter: per client IP and request
 * category, the times of the requests admitted within the last 60 seconds.
 */
module RateLimit {

  const Window: real := 60.0

  /** `RATE_LIMITS`; an unknown category gets the default limit. */
  function LimitFor(category: string): (n: nat)
    ensures n >= 5
  {
    if category == "auth" then 10
    else if category == "games" then 30
    else if category == "admin" then 20
    else if category == "payment" then 5
    else 100
  }

  /** The timestamps still inside the window at time `now`, in their stored order. */
  function Recent(ts: seq<real>, now: real): seq<real>
  {
    if ts == [] then []
    else (if now - ts[0] < Window then [ts[0]] else []) + Recent(ts[1..], now)
  }

  /** `Recent` keeps exactly the timestamps younger than the window, never more than it got. */
  lemma {:induction false} RecentKeepsExactlyYoung(ts: seq<real>, now: real)
    ensures |Recent(ts, now)| <= |ts|
    ensures forall t :: t in Recent(ts, now) <==> t in ts && now - t < Window
    decreases |ts|
  {
    if ts != [] {
      RecentKeepsExactlyYoung(ts[1..], now);
      assert ts == [ts[0]] + ts[1..];
    }
  }

  /** Pruning twice at the same time prunes nothing more. */
  lemma {:induction false} RecentIdempotent(ts: seq<real>, now: real)
    ensures Recent(Recent(ts, now), now) == Recent(ts, now)
    decreases |ts|
  {
    if ts != [] {
      RecentIdempotent(ts[1..], now);
      RecentAppend(if now - ts[0] < Window then [ts[0]] else [], Recent(ts[1..], now), now);
    }
  }

  lemma {:induction false} RecentAppend(xs: seq<real>, ys: seq<real>, now: real)
    ensures Recent(xs + ys, now) == Recent(xs, now) + Recent(ys, now)
    decreases |xs|
  {
    if xs == [] {
      assert xs + ys == ys;
    } else {
      assert (xs + ys)[0] == xs[0];
      assert (xs + ys)[1..] == xs[1..] + ys;
      RecentAppend(xs[1..], ys, now);
    }
  }

  class RateLimiter {
    /** `rate_limit_storage[ip][category]`; a missing entry is the empty list. */
    var storage: map<(string, string), seq<real>>

    /** No stored list is longer than its category's limit. */
    ghost predicate Valid()
      reads this
    {
      forall k :: k in storage ==> |storage[k]| <= LimitFor(k.1)
    }

    function Stored(ip: string, category: string): seq<real>
      reads this
    {
      if (ip, category) in storage then storage[(ip, category)] else []
    }

    constructor ()
      ensures storage == map[] && Valid()
    {
      storage := map[];
    }

    /**
     * `check_rate_limit` at time `now`: prune the list, refuse when it is
     * full, else admit the request and record its time.
     */
    method Check(ip: string, category: string, now: real) returns (allowed: bool)
      requires Valid()
      modifies this
      ensures Valid()
      ensures var pruned := Recent(old(Stored(ip, category)), now);
              && (allowed <==> |pruned| < LimitFor(category))
              && storage == old(storage)[(ip, category) := if allowed then pruned + [now] else pruned]
    {
      var old_ts := Stored(ip, category);
      var pruned: seq<real> := [];
      var i := 0;
      while i < |old_ts|
        invariant 0 <= i <= |old_ts|
        invariant pruned == Recent(old_ts[..i], now)
        invariant storage == old(storage)
      {
        RecentAppend(old_ts[..i], [old_ts[i]], now);
        assert old_ts[..i + 1] == old_ts[..i] + [old_ts[i]];
        if now - old_ts[i] < Window {
          pruned := pruned + [old_ts[i]];
        }
        i := i + 1;
      }
      assert old_ts[..i] == old_ts;
      assert pruned == Recent(old(Stored(ip, category)), now);
      RecentKeepsExactlyYoung(old_ts, now);
      assert |old_ts| <= LimitFor(category);
      allowed := |pruned| < LimitFor(category);
      var kept := if allowed then pruned + [now] else pruned;
      assert |kept| <= LimitFor(category);
      storage := storage[(ip, category) := kept];
      forall k | k in storage
        ensures |storage[k]| <= LimitFor(k.1)
      {
        if k != (ip, category) {
          assert storage[k] == old(storage)[k];
        }
      }
    }
  }

  /** Within one window a category admits at most its limit: a full list refuses. */
  lemma FullWindowRefuses(ts: seq<real>, now: real, category: string)
    requires |ts| >= LimitFor(category)
    requires forall i :: 0 <= i < |ts| ==> now - ts[i] < Window
    ensures |Recent(ts, now)| >= LimitFor(category)
  {
    RecentAllYoung(ts, now);
  }

  lemma {:induction false} RecentAllYoung(ts: seq<real>, now: real)
    requires forall i :: 0 <= i < |ts| ==> now - ts[i] < Window
    ensures Recent(ts, now) == ts
    decreases |ts|
  {
    if ts != [] {
      RecentAllYoung(ts[1..], now);
    }
  }

  /** Once the window has passed every stored time, the list empties and the request is admitted. */
  lemma {:induction false} OldRequestsExpire(ts: seq<real>, now: real)
    requires forall i :: 0 <= i < |ts| ==> now - ts[i] >= Window
    ensures Recent(ts, now) == []
    decreases |ts|
  {
    if ts != [] {
      OldRequestsExpire(ts[1..], now);
    }
  }
}
