/** The token bucket, in process and in PostgreSQL, over real-valued time and tokens. */
module RateLimits {
  import opened Events

  datatype Bucket = Bucket(tokens: real, updated: real)

  /** `perMinute` requests of capacity, refilled at a sixtieth of it per second. */
  datatype Limit = Limit(perMinute: nat) {
    function Capacity(): real { perMinute as real }
    function Refill(): real { Capacity() / 60.0 }
  }

  /** Tokens refilled in `d` seconds. */
  function Gain(l: Limit, d: real): real { d * l.Refill() }

  function Min(x: real, y: real): real { if x < y then x else y }

  /** Tokens at `now`; a missing bucket is full. */
  function Level(l: Limit, b: Option<Bucket>, now: real): real {
    if b.None? then l.Capacity()
    else Min(l.Capacity(), b.value.tokens + Gain(l, now - b.value.updated))
  }

  /** The in-process limiter writes the refilled bucket back even when it refuses. */
  function TakeInProcess(l: Limit, b: Option<Bucket>, now: real): (bool, Option<Bucket>) {
    var level := Level(l, b, now);
    if level >= 1.0 then (true, Some(Bucket(level - 1.0, now))) else (false, Some(Bucket(level, now)))
  }

  /** The atomic upsert: a fresh row, or refill and take, or no change at all. */
  function TakeShared(l: Limit, b: Option<Bucket>, now: real): (bool, Option<Bucket>) {
    if b.None? then (true, Some(Bucket(l.Capacity() - 1.0, now)))
    else
      var level := Level(l, b, now);
      if level >= 1.0 then (true, Some(Bucket(level - 1.0, now))) else (false, b)
  }

  /** A bucket some sequence of requests could have left behind by `now`. */
  ghost predicate Sane(l: Limit, b: Option<Bucket>, now: real) {
    b.Some? ==> 0.0 <= b.value.tokens <= l.Capacity() && b.value.updated <= now
  }

  /** Refilling is additive and never takes tokens away. */
  lemma GainAdds(l: Limit, x: real, y: real)
    ensures Gain(l, x + y) == Gain(l, x) + Gain(l, y)
    ensures x >= 0.0 ==> Gain(l, x) >= 0.0
    ensures y >= 0.0 ==> Gain(l, y) >= 0.0
  {
    var r := l.Refill();
    assert (x + y) * r == x * r + y * r;
    if x >= 0.0 { Product(x, r); }
    if y >= 0.0 { Product(y, r); }
  }

  lemma Product(x: real, r: real)
    requires x >= 0.0 && r >= 0.0
    ensures x * r >= 0.0
  {}

  /** Refilling in two steps is refilling once. */
  lemma RefillTwice(l: Limit, b: Bucket, mid: real, now: real)
    requires b.updated <= mid <= now
    ensures Level(l, Some(Bucket(Level(l, Some(b), mid), mid)), now) == Level(l, Some(b), now)
  {
    hide Gain;
    GainAdds(l, mid - b.updated, now - mid);
    assert (mid - b.updated) + (now - mid) == now - b.updated;
  }

  // -------------------------------------------------- the two limiters agree

  /** Both buckets will show the same level from now on. */
  ghost predicate SameLevel(l: Limit, x: Option<Bucket>, y: Option<Bucket>, now: real) {
    Sane(l, x, now) && Sane(l, y, now) && forall t :: t >= now ==> Level(l, x, t) == Level(l, y, t)
  }

  lemma StepAgrees(l: Limit, x: Option<Bucket>, y: Option<Bucket>, now: real)
    requires l.perMinute > 0 && SameLevel(l, x, y, now)
    ensures TakeInProcess(l, x, now).0 == TakeShared(l, y, now).0
    ensures SameLevel(l, TakeInProcess(l, x, now).1, TakeShared(l, y, now).1, now)
  {
    var (allowed, x') := TakeInProcess(l, x, now);
    var (_, y') := TakeShared(l, y, now);
    assert Level(l, x, now) == Level(l, y, now);
    if x.Some? { LevelInRange(l, x.value, now); }
    if y.Some? { LevelInRange(l, y.value, now); }
    if !allowed {
      forall t | t >= now ensures Level(l, x', t) == Level(l, y', t) {
        assert Level(l, x, t) == Level(l, y, t);
        RefillTwice(l, x.value, now, t);
      }
    }
  }

  lemma LevelInRange(l: Limit, b: Bucket, now: real)
    requires Sane(l, Some(b), now)
    ensures 0.0 <= Level(l, Some(b), now) <= l.Capacity()
  {
    hide Gain;
    GainAdds(l, now - b.updated, 0.0);
  }

  ghost predicate Ordered(times: seq<real>) {
    forall i, j :: 0 <= i < j < |times| ==> times[i] <= times[j]
  }

  /** The bucket after the requests at `times`, oldest first. */
  function After(l: Limit, shared: bool, b: Option<Bucket>, times: seq<real>): Option<Bucket> {
    if times == [] then b
    else
      var n := |times| - 1;
      var before := After(l, shared, b, times[..n]);
      if shared then TakeShared(l, before, times[n]).1 else TakeInProcess(l, before, times[n]).1
  }

  /** Whether the last of the requests at `times` is admitted. */
  function Admits(l: Limit, shared: bool, b: Option<Bucket>, times: seq<real>): bool
    requires times != []
  {
    var n := |times| - 1;
    var before := After(l, shared, b, times[..n]);
    if shared then TakeShared(l, before, times[n]).0 else TakeInProcess(l, before, times[n]).0
  }

  /** For every sequence of requests the two limiters admit the same ones. */
  lemma {:induction false} LimitersAgree(l: Limit, times: seq<real>)
    requires l.perMinute > 0 && Ordered(times)
    ensures times != [] ==> Admits(l, false, None, times) == Admits(l, true, None, times)
    ensures times != [] ==> SameLevel(l, After(l, false, None, times), After(l, true, None, times), times[|times| - 1])
  {
    if times != [] {
      var n := |times| - 1;
      LimitersAgree(l, times[..n]);
      var x, y := After(l, false, None, times[..n]), After(l, true, None, times[..n]);
      assert SameLevel(l, x, y, times[n]);
      StepAgrees(l, x, y, times[n]);
    }
  }

  // ------------------------------------------------------------ window bound

  /** Admissions among the requests at `times`, starting from bucket `b`. */
  function Admitted(l: Limit, b: Option<Bucket>, times: seq<real>): nat {
    if times == [] then 0
    else Admitted(l, b, times[..|times| - 1]) + (if Admits(l, false, b, times) then 1 else 0)
  }

  /** Admissions are paid for by the tokens there were and the tokens refilled since. */
  lemma {:induction false} TokensPay(l: Limit, b: Option<Bucket>, start: real, times: seq<real>)
    requires Ordered(times) && Sane(l, b, start) && (times != [] ==> start <= times[0])
    ensures var now := if times == [] then start else times[|times| - 1];
            var left := After(l, false, b, times);
            && Sane(l, left, now)
            && Admitted(l, b, times) as real + Level(l, left, now) <= Level(l, b, start) + Gain(l, now - start)
  {
    if times != [] {
      var n := |times| - 1;
      TokensPay(l, b, start, times[..n]);
      var before := After(l, false, b, times[..n]);
      var prev := if n == 0 then start else times[n - 1];
      assert start <= prev <= times[n];
      StepPays(l, before, prev, times[n]);
      hide Gain, Level, TakeInProcess, After;
      GainAdds(l, prev - start, times[n] - prev);
      assert (prev - start) + (times[n] - prev) == times[n] - start;
    } else {
      GainAdds(l, 0.0, 0.0);
    }
  }

  lemma StepPays(l: Limit, b: Option<Bucket>, prev: real, now: real)
    requires Sane(l, b, prev) && prev <= now
    ensures var (allowed, b') := TakeInProcess(l, b, now);
            && Sane(l, b', now)
            && Level(l, b', now) + (if allowed then 1.0 else 0.0) <= Level(l, b, prev) + Gain(l, now - prev)
  {
    hide Gain;
    GainAdds(l, now - prev, 0.0);
    if b.Some? {
      LevelInRange(l, b.value, now);
      GainAdds(l, prev - b.value.updated, now - prev);
      assert (prev - b.value.updated) + (now - prev) == now - b.value.updated;
    }
    var b' := TakeInProcess(l, b, now).1.value;
    assert now - b'.updated == 0.0;
  }

  /** In any window of any run at most capacity + refill * length requests are admitted. */
  lemma WindowBound(l: Limit, history: seq<real>, window: seq<real>)
    requires Ordered(history + window) && window != []
    ensures Admitted(l, After(l, false, None, history), window) as real
            <= l.Capacity() + Gain(l, window[|window| - 1] - window[0])
  {
    hide Gain, Level, TakeInProcess, After, Admitted;
    OrderedParts(history, window);
    var start := window[0];
    var b := After(l, false, None, history);
    assert Sane(l, b, start) by {
      if history == [] { AfterNothing(l); } else { TokensPay(l, None, history[0], history); }
    }
    TokensPay(l, b, start, window);
    LevelBound(l, b, start);
    LevelBound(l, After(l, false, b, window), window[|window| - 1]);
  }

  lemma AfterNothing(l: Limit)
    ensures After(l, false, None, []) == None
  {}

  lemma LevelBound(l: Limit, b: Option<Bucket>, now: real)
    requires Sane(l, b, now)
    ensures 0.0 <= Level(l, b, now) <= l.Capacity()
  {
    if b.Some? { LevelInRange(l, b.value, now); }
  }

  lemma OrderedParts(s: seq<real>, t: seq<real>)
    requires Ordered(s + t)
    ensures Ordered(s) && Ordered(t) && (s != [] && t != [] ==> s[|s| - 1] <= t[0])
  {
    var all := s + t;
    forall i, j | 0 <= i < j < |s| ensures s[i] <= s[j] { assert all[i] == s[i] && all[j] == s[j]; }
    forall i, j | 0 <= i < j < |t| ensures t[i] <= t[j] { assert all[|s| + i] == t[i] && all[|s| + j] == t[j]; }
    if s != [] && t != [] { assert all[|s| - 1] == s[|s| - 1] && all[|s|] == t[0]; }
  }

  /** The same bound in the configured figure: `perMinute` requests at once, and then a sixtieth of
      that per second. */
  lemma WindowBoundPerMinute(l: Limit, history: seq<real>, window: seq<real>)
    requires Ordered(history + window) && window != []
    ensures Admitted(l, After(l, false, None, history), window) as real
            <= l.perMinute as real + l.perMinute as real * (window[|window| - 1] - window[0]) / 60.0
  {
    hide Gain, After, Admitted, Ordered;
    WindowBound(l, history, window);
    PerSecond(l, window[|window| - 1] - window[0]);
  }

  lemma PerSecond(l: Limit, d: real)
    ensures l.Capacity() == l.perMinute as real
    ensures Gain(l, d) == l.perMinute as real * d / 60.0
  {
    var p := l.perMinute as real;
    assert d * (p / 60.0) == p * d / 60.0;
  }

  /** `n` requests at one instant. */
  function Burst(t: real, n: nat): (times: seq<real>)
    ensures |times| == n && forall i :: 0 <= i < n ==> times[i] == t
  {
    seq(n, i => t)
  }

  lemma SameInstant(l: Limit, tokens: real, t: real)
    requires 0.0 <= tokens <= l.perMinute as real
    ensures Level(l, Some(Bucket(tokens, t)), t) == tokens
  {
    GainAdds(l, 0.0, 0.0);
  }

  /** What a burst on a new key leaves in the bucket. */
  lemma {:induction false} BurstLeaves(l: Limit, t: real, n: nat)
    requires l.perMinute > 0 && n >= 1
    ensures After(l, false, None, Burst(t, n)) == Some(Bucket(if n <= l.perMinute then (l.perMinute - n) as real else 0.0, t))
    ensures Admits(l, false, None, Burst(t, n)) <==> n <= l.perMinute
  {
    hide Level, Gain;
    var times := Burst(t, n);
    assert times[..n - 1] == Burst(t, n - 1);
    var before := After(l, false, None, times[..n - 1]);
    if n == 1 {
      assert before == None;
      assert Level(l, None, t) == l.perMinute as real by { FullAtFirst(l, t); }
    } else {
      BurstLeaves(l, t, n - 1);
      SameInstant(l, before.value.tokens, t);
    }
  }

  lemma FullAtFirst(l: Limit, t: real)
    ensures Level(l, None, t) == l.perMinute as real
  {}

  /** For a new key exactly the first `perMinute` requests of one instant are admitted. */
  lemma BurstAdmitsPerMinute(l: Limit, t: real, k: nat)
    requires l.perMinute > 0 && k >= 1
    ensures Admits(l, false, None, Burst(t, k)) <==> k <= l.perMinute
    ensures Admits(l, true, None, Burst(t, k)) <==> k <= l.perMinute
  {
    hide After, Admits, Level;
    BurstLeaves(l, t, k);
    LimitersAgree(l, Burst(t, k));
  }

  /** The one after them is told to wait for one token: a minute divided by `perMinute`. */
  lemma WaitAfterBurst(l: Limit, t: real, n: nat)
    requires l.perMinute > 0 && n >= l.perMinute
    ensures RetryAfter(l, Level(l, After(l, false, None, Burst(t, n)), t)) == 60.0 / l.perMinute as real
  {
    BurstLeaves(l, t, n);
    SameInstant(l, 0.0, t);
    var p := l.perMinute as real;
    assert 1.0 / (p / 60.0) == 60.0 / p;
    hide After, Admits, Level, Gain;
  }

  // -------------------------------------------------------- idle and waiting

  /** A bucket idle for a minute is full again, so dropping it changes no decision. */
  lemma DroppingIdleBuckets(l: Limit, b: Bucket, now: real)
    requires Sane(l, Some(b), now) && now - b.updated >= 60.0
    ensures TakeInProcess(l, Some(b), now) == TakeInProcess(l, None, now)
    ensures l.perMinute > 0 ==> TakeShared(l, Some(b), now) == TakeShared(l, None, now)
  {
    assert Gain(l, 60.0) == l.Capacity() by { assert 60.0 * (l.Capacity() / 60.0) == l.Capacity(); }
    hide Gain;
    GainAdds(l, 60.0, now - b.updated - 60.0);
    assert 60.0 + (now - b.updated - 60.0) == now - b.updated;
    assert Level(l, Some(b), now) == l.Capacity();
  }

  /** Seconds a refused caller is told to wait. */
  function RetryAfter(l: Limit, level: real): real
    requires l.perMinute > 0
  {
    (1.0 - level) / l.Refill()
  }

  /** The wait is exact: left alone, the bucket admits from that moment on and not before. */
  lemma RetryAfterIsExact(l: Limit, b: Bucket, now: real, later: real)
    requires l.perMinute > 0 && Sane(l, Some(b), now) && later >= now && !TakeInProcess(l, Some(b), now).0
    ensures TakeInProcess(l, TakeInProcess(l, Some(b), now).1, later).0 <==> later - now >= RetryAfter(l, Level(l, Some(b), now))
  {
    var level := Level(l, Some(b), now);
    WaitGains(l, level);
    hide Gain, RetryAfter;
    var wait := RetryAfter(l, level);
    var d := later - now;
    assert l.Capacity() >= 1.0;
    if d >= wait {
      GainAdds(l, wait, d - wait);
      assert wait + (d - wait) == d;
    } else {
      GainGrows(l, d, wait);
    }
  }

  lemma WaitGains(l: Limit, level: real)
    requires l.perMinute > 0
    ensures Gain(l, RetryAfter(l, level)) == 1.0 - level
  {
    Quotient(1.0 - level, l.Refill());
  }

  lemma Quotient(x: real, r: real)
    requires r > 0.0
    ensures x / r * r == x
  {}

  lemma GainGrows(l: Limit, x: real, y: real)
    requires l.perMinute > 0 && x < y
    ensures Gain(l, x) < Gain(l, y)
  {
    Positive(y - x, l.Refill());
    GainAdds(l, x, y - x);
    assert x + (y - x) == y;
  }

  lemma Positive(x: real, r: real)
    requires x > 0.0 && r > 0.0
    ensures x * r > 0.0
  {}

  // --------------------------------------------------------------- the class

  class RateLimiter {
    const limit: Limit
    var buckets: map<Id, Bucket>

    constructor (perMinute: nat)
      ensures limit == Limit(perMinute) && buckets == map[]
    {
      limit := Limit(perMinute);
      buckets := map[];
    }

    function Lookup(key: Id): Option<Bucket>
      reads this
    {
      if key in buckets then Some(buckets[key]) else None
    }

    /** Refill, then take one token or say how long to wait; a limit of zero is off. */
    method TryAcquire(key: Id, now: real) returns (allowed: bool, retryAfter: real)
      modifies this
      ensures limit.perMinute == 0 ==> allowed && retryAfter == 0.0 && buckets == old(buckets)
      ensures limit.perMinute > 0 ==>
                var (taken, b) := TakeInProcess(limit, old(Lookup(key)), now);
                && allowed == taken && b.Some? && buckets == old(buckets)[key := b.value]
                && retryAfter == if taken then 0.0 else RetryAfter(limit, Level(limit, old(Lookup(key)), now))
    {
      if limit.perMinute == 0 {
        return true, 0.0;
      }
      var level := if key in buckets
        then Min(limit.Capacity(), buckets[key].tokens + Gain(limit, now - buckets[key].updated))
        else limit.Capacity();
      assert level == Level(limit, Lookup(key), now);
      if level >= 1.0 {
        buckets := buckets[key := Bucket(level - 1.0, now)];
        return true, 0.0;
      }
      buckets := buckets[key := Bucket(level, now)];
      return false, (1.0 - level) / limit.Refill();
    }
  }
}
