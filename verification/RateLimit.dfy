/**
 The token bucket in front of the annotation writer.

 The clock is a parameter.  Times are nanoseconds and unbounded; Go's saturation of differences
 beyond 292 years is not modelled.
 */
module RateLimit {
  const MINUTE := 60_000_000_000

  datatype Limiter = Limiter(interval: int, capacity: int, tokens: int, last: int)

  ghost predicate Sane(l: Limiter) {
    l.interval > 0 && l.capacity >= 1 && 0 <= l.tokens <= l.capacity
  }

  function Min(a: int, b: int): int {
    if a < b then a else b
  }

  // The state that a look at the clock leaves, before a token is taken.
  ghost function Refilled(l: Limiter, now: int): Limiter
    requires l.interval > 0
  {
    if now - l.last < l.interval then l
    else l.(tokens := Min(l.capacity, l.tokens + (now - l.last) / l.interval), last := now)
  }

  ghost predicate Allows(l: Limiter, now: int)
    requires l.interval > 0
  {
    Refilled(l, now).tokens > 0
  }

  ghost function Step(l: Limiter, now: int): Limiter
    requires l.interval > 0
  {
    var r := Refilled(l, now);
    if r.tokens <= 0 then r else r.(tokens := r.tokens - 1)
  }

  class RateLimiter {
    const interval: int
    const capacity: int
    var tokens: int
    var last: int

    ghost function View(): Limiter
      reads this
    {
      Limiter(interval, capacity, tokens, last)
    }

    // Full at birth.  More than one annotation per nanosecond leaves no interval to count in.
    constructor (perMinute: int, now: int)
      ensures capacity == (if perMinute < 1 then 1 else perMinute) && tokens == capacity && last == now
      ensures 0 <= capacity * interval <= MINUTE < capacity * interval + capacity
      ensures interval > 0 <==> perMinute <= MINUTE
    {
      var rate := perMinute;
      if rate < 1 {
        rate := 1;
      }
      interval, capacity := MINUTE / rate, rate;
      tokens, last := rate, now;
      DivisionBounds(MINUTE, rate);
    }

    method Allow(now: int) returns (ok: bool)
      requires Sane(View())
      modifies this`tokens, this`last
      ensures View() == Step(old(View()), now) && (ok <==> Allows(old(View()), now))
      ensures Sane(View()) && tokens < capacity
    {
      var elapsed := now - last;
      if elapsed >= interval {
        var refill := elapsed / interval;
        tokens := Min(capacity, tokens + refill);
        last := now;
      }
      if tokens <= 0 {
        return false;
      }
      tokens := tokens - 1;
      return true;
    }
  }

  /* ---------------------------------------------------------------------- division */

  lemma Scaled(p: int, q: int, d: int)
    requires d > 0
    ensures p >= q ==> d * p >= d * q
    ensures p > q ==> d * p >= d * q + d
  {
    assert p >= q ==> d * (p - q) >= 0;
    assert p > q ==> d * (p - q - 1) >= 0;
  }

  lemma DivisionBounds(x: int, d: int)
    requires x > 0 && d > 0
    ensures 0 <= d * (x / d) <= x < d * (x / d) + d
    ensures x / d > 0 <==> d <= x
  {
    Scaled(1, x / d, d);
    Scaled(x / d, 1, d);
  }

  // The quotient is the largest number whose multiple fits.
  lemma QuotientIsLargest(x: int, q: int, d: int)
    requires d > 0 && d * q <= x
    ensures q <= x / d
  {
    Scaled(q, x / d, d);
  }

  lemma QuotientIs(x: int, q: int, d: int)
    requires d > 0 && d * q <= x < d * q + d
    ensures x / d == q
  {
    QuotientIsLargest(x, q, d);
    Scaled(x / d, q, d);
  }

  lemma QuotientsAdd(x: int, y: int, d: int)
    requires d > 0
    ensures x / d + y / d <= (x + y) / d
  {
    assert d * (x / d + y / d) == d * (x / d) + d * (y / d);
    QuotientIsLargest(x + y, x / d + y / d, d);
  }

  lemma QuotientGrows(x: int, y: int, d: int)
    requires d > 0 && x <= y
    ensures x / d <= y / d
  {
    QuotientIsLargest(y, x / d, d);
  }

  lemma QuotientPlusOne(x: int, y: int, d: int)
    requires d > 0 && x <= y + d
    ensures x / d <= y / d + 1
  {
    assert d * (x / d - 1) == d * (x / d) - d;
    QuotientIsLargest(y, x / d - 1, d);
  }

  /* --------------------------------------------------------------------------- runs */

  ghost predicate Sorted(ts: seq<int>) {
    forall i, j | 0 <= i < j < |ts| :: ts[i] <= ts[j]
  }

  // A clock that does not go back, read by every call.
  ghost predicate Clock(l: Limiter, ts: seq<int>) {
    Sorted(ts) && (ts != [] ==> l.last <= ts[0])
  }

  // How many of the calls made at times ts between a and b are allowed.
  ghost function Passed(l: Limiter, ts: seq<int>, a: int, b: int): nat
    requires l.interval > 0
    decreases |ts|
  {
    if ts == [] then 0
    else (if a <= ts[0] <= b && Allows(l, ts[0]) then 1 else 0) + Passed(Step(l, ts[0]), ts[1..], a, b)
  }

  lemma StepKeeps(l: Limiter, ts: seq<int>)
    requires Sane(l) && Clock(l, ts) && ts != []
    ensures Sane(Step(l, ts[0])) && Clock(Step(l, ts[0]), ts[1..])
    ensures Step(l, ts[0]).tokens < l.capacity
  {
    QuotientGrows(0, ts[0] - l.last, l.interval);
  }

  lemma {:induction false} NoneAfter(l: Limiter, ts: seq<int>, a: int, b: int)
    requires Sane(l) && Clock(l, ts) && (ts != [] ==> b < ts[0])
    ensures Passed(l, ts, a, b) == 0
    decreases |ts|
  {
    if ts != [] {
      StepKeeps(l, ts);
      NoneAfter(Step(l, ts[0]), ts[1..], a, b);
    }
  }

  // Tokens in hand, and one for every whole interval since the last refill.
  lemma {:induction false} FromHand(l: Limiter, ts: seq<int>, a: int, b: int)
    requires Sane(l) && Clock(l, ts) && l.last <= b
    ensures Passed(l, ts, a, b) <= l.tokens + (b - l.last) / l.interval
    decreases |ts|
  {
    QuotientGrows(0, b - l.last, l.interval);
    if ts != [] && ts[0] > b {
      NoneAfter(l, ts, a, b);
    } else if ts != [] {
      StepKeeps(l, ts);
      FromHand(Step(l, ts[0]), ts[1..], a, b);
      QuotientsAdd(ts[0] - l.last, b - ts[0], l.interval);
      QuotientGrows(0, ts[0] - l.last, l.interval);
    }
  }

  // A call that refills starts afresh: at most a full bucket, and refills from then on.
  lemma FromRefill(l: Limiter, ts: seq<int>, a: int, b: int)
    requires Sane(l) && Clock(l, ts) && ts != [] && ts[0] - l.last >= l.interval && a <= ts[0] <= b
    ensures Passed(l, ts, a, b) <= l.capacity + (b - a) / l.interval
  {
    StepKeeps(l, ts);
    QuotientGrows(1 * l.interval, ts[0] - l.last, l.interval);
    QuotientIsLargest(ts[0] - l.last, 1, l.interval);
    FromHand(Step(l, ts[0]), ts[1..], a, b);
    QuotientGrows(b - ts[0], b - a, l.interval);
  }

  // The state of a limiter that has been asked before, or that was last refilled in the span, or
  // whose next call refills it.
  ghost predicate Settled(l: Limiter, ts: seq<int>, a: int) {
    l.tokens < l.capacity || l.last >= a || (ts != [] && ts[0] - l.last >= l.interval)
  }

  lemma {:induction false} SpanBound(l: Limiter, ts: seq<int>, a: int, b: int)
    requires Sane(l) && Clock(l, ts) && a <= b
    ensures Passed(l, ts, a, b) <= l.capacity + (b - a) / l.interval + 1
    ensures Settled(l, ts, a) ==> Passed(l, ts, a, b) <= l.capacity + (b - a) / l.interval
    decreases |ts|
  {
    QuotientGrows(0, b - a, l.interval);
    if ts == [] {
    } else if ts[0] < a {
      StepKeeps(l, ts);
      SpanBound(Step(l, ts[0]), ts[1..], a, b);
    } else if ts[0] > b {
      NoneAfter(l, ts, a, b);
    } else if ts[0] - l.last >= l.interval {
      FromRefill(l, ts, a, b);
    } else {
      FromHand(l, ts, a, b);
      QuotientPlusOne(b - l.last, b - a, l.interval);
      if l.last >= a {
        QuotientGrows(b - l.last, b - a, l.interval);
      }
    }
  }

  /* ----------------------------------------------------------------------- theorems */

  ghost function Born(interval: int, capacity: int, at: int): Limiter {
    Limiter(interval, capacity, capacity, at)
  }

  // Every span of every run: at most a full bucket, one for each whole interval, and one more.
  lemma AnySpan(interval: int, capacity: int, at: int, ts: seq<int>, a: int, b: int)
    requires interval > 0 && capacity >= 1 && Clock(Born(interval, capacity, at), ts) && a <= b
    ensures Passed(Born(interval, capacity, at), ts, a, b) <= capacity + (b - a) / interval + 1
  {
    SpanBound(Born(interval, capacity, at), ts, a, b);
  }

  // The one more is never needed in a span that begins after the first call.
  lemma SpanAfterFirstCall(interval: int, capacity: int, at: int, ts: seq<int>, a: int, b: int)
    requires interval > 0 && capacity >= 1 && Clock(Born(interval, capacity, at), ts) && a <= b
    requires ts != [] && ts[0] < a
    ensures Passed(Born(interval, capacity, at), ts, a, b) <= capacity + (b - a) / interval
  {
    var l := Born(interval, capacity, at);
    StepKeeps(l, ts);
    SpanBound(Step(l, ts[0]), ts[1..], a, b);
  }

  /* ------------------------------------------------------------ what is always granted */

  // n calls at one moment.
  ghost function Repeat(n: nat, t: int): seq<int> {
    if n == 0 then [] else [t] + Repeat(n - 1, t)
  }

  // Short of an interval after the last refill, the tokens in hand are what there is.
  lemma {:induction false} HandServes(l: Limiter, n: nat, t: int)
    requires Sane(l) && t < l.last + l.interval
    ensures Passed(l, Repeat(n, t), t, t) == Min(n, l.tokens)
    decreases n
  {
    if n > 0 {
      assert Repeat(n, t)[1..] == Repeat(n - 1, t);
      HandServes(Step(l, t), n - 1, t);
    }
  }

  // A bucket left alone for q intervals and less than one more has q more tokens, up to its
  // capacity: a burst is granted exactly that many calls.
  lemma IdleBucketServes(l: Limiter, n: nat, t: int, q: nat)
    requires Sane(l) && l.interval * q <= t - l.last < l.interval * q + l.interval
    ensures Passed(l, Repeat(n, t), t, t) == Min(n, Min(l.capacity, l.tokens + q))
  {
    if q == 0 {
      HandServes(l, n, t);
    } else {
      QuotientIs(t - l.last, q, l.interval);
      Scaled(q, 1, l.interval);
      RefilledServes(l, n, t);
    }
  }

  lemma RefilledServes(l: Limiter, n: nat, t: int)
    requires Sane(l) && t - l.last >= l.interval && (t - l.last) / l.interval >= 0
    ensures Passed(l, Repeat(n, t), t, t) == Min(n, Min(l.capacity, l.tokens + (t - l.last) / l.interval))
  {
    if n > 0 {
      assert Repeat(n, t)[1..] == Repeat(n - 1, t);
      QuotientIsLargest(t - l.last, 1, l.interval);
      HandServes(Step(l, t), n - 1, t);
    }
  }

  // Calls an interval apart are all granted, whatever was spent before.
  lemma {:induction false} SpacedCallsPass(l: Limiter, ts: seq<int>, a: int, b: int)
    requires Sane(l) && Clock(l, ts) && forall i | 0 <= i < |ts| :: a <= ts[i] <= b
    requires forall i | 0 < i < |ts| :: ts[i] >= ts[i - 1] + l.interval
    requires ts != [] ==> l.tokens > 0 || ts[0] >= l.last + l.interval
    ensures Passed(l, ts, a, b) == |ts|
    decreases |ts|
  {
    if ts != [] {
      StepKeeps(l, ts);
      QuotientGrows(0, ts[0] - l.last, l.interval);
      if ts[0] - l.last >= l.interval {
        QuotientIsLargest(ts[0] - l.last, 1, l.interval);
      }
      assert |ts| > 1 ==> ts[1] >= ts[0] + l.interval && ts[0] >= l.last;
      SpacedCallsPass(Step(l, ts[0]), ts[1..], a, b);
    }
  }

  // n calls at one moment, then one at another.
  ghost function Burst(n: nat, t: int, u: int): seq<int> {
    if n == 0 then [u] else [t] + Burst(n - 1, t, u)
  }

  lemma {:induction false} BurstSorted(n: nat, t: int, u: int)
    requires t <= u
    ensures |Burst(n, t, u)| == n + 1 && Sorted(Burst(n, t, u)) && Burst(n, t, u)[0] == if n == 0 then u else t
    ensures forall i | 0 <= i <= n :: t <= Burst(n, t, u)[i]
  {
    if n > 0 {
      BurstSorted(n - 1, t, u);
    }
  }

  // The bucket is emptied short of one interval after it was filled, and refilled just after.
  lemma {:induction false} BurstPasses(l: Limiter, t: int)
    requires Sane(l) && l.last <= t < l.last + l.interval
    ensures Passed(l, Burst(l.tokens, t, l.last + l.interval), t, l.last + l.interval) == l.tokens + 1
    decreases l.tokens
  {
    var u := l.last + l.interval;
    if l.tokens == 0 {
      QuotientIsLargest(u - l.last, 1, l.interval);
      assert Burst(0, t, u)[1..] == [];
    } else {
      assert Burst(l.tokens, t, u)[1..] == Burst(l.tokens - 1, t, u);
      BurstPasses(Step(l, t), t);
    }
  }

  // Exactly when the bound without the one more holds for every span of every run that opens
  // with a call at `first`: the bucket is asked at birth, or not before an interval has passed.
  lemma BoundIffFirstCall(interval: int, capacity: int, at: int, first: int)
    requires interval > 0 && capacity >= 1 && at <= first
    ensures (first == at || first - at >= interval) <==>
            forall ts: seq<int>, a: int, b: int |
              && ts != [] && ts[0] == first && Sorted(ts) && a <= b ::
              Passed(Born(interval, capacity, at), ts, a, b) <= capacity + (b - a) / interval
  {
    var l := Born(interval, capacity, at);
    if first == at || first - at >= interval {
      forall ts: seq<int>, a: int, b: int | ts != [] && ts[0] == first && Sorted(ts) && a <= b
        ensures Passed(l, ts, a, b) <= capacity + (b - a) / interval
      {
        if ts[0] < a {
          SpanAfterFirstCall(interval, capacity, at, ts, a, b);
        } else {
          SpanBound(l, ts, a, b);
        }
      }
    } else {
      var u := at + interval;
      var ts := Burst(capacity, first, u);
      BurstSorted(capacity, first, u);
      BurstPasses(l, first);
      ShortSpan(u - first, interval);
      assert Passed(l, ts, first, u) > capacity + (u - first) / interval;
    }
  }

  lemma ShortSpan(x: int, d: int)
    requires 0 <= x < d
    ensures x / d == 0
  {
  }
}
