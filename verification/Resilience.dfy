/** The resilient consumer: a breaker around each attempt, a retry budget around the breaker,
    dead letters for what the budget could not save. */
module Resilience {
  import opened Events
  import opened Projection
  import opened ReadModels

  datatype CircuitState = ClosedCircuit | OpenCircuit | HalfOpenCircuit

  /** What the environment does to one apply attempt: let it return, or raise a transient or a
      deterministic error before the apply or after its commit, when the answer is lost. */
  datatype Weather = Healthy | Fault(transient: bool, committed: bool)

  /** Everything outside the consumer's control, as arbitrary functions of a running tick. */
  class World {
    const weather: nat -> Weather
    const clock: nat -> int
    const deadLetterRaises: nat -> bool
    var tick: nat

    constructor (weather: nat -> Weather, clock: nat -> int, deadLetterRaises: nat -> bool)
      ensures this.weather == weather && this.clock == clock && this.deadLetterRaises == deadLetterRaises
    {
      this.weather, this.clock, this.deadLetterRaises := weather, clock, deadLetterRaises;
      tick := 0;
    }

    method Now() returns (t: int)
      modifies this
      ensures t == clock(old(tick)) && tick == old(tick) + 1
    {
      t := clock(tick);
      tick := tick + 1;
    }
  }

  // ----------------------------------------------------------------- breaker

  class CircuitBreaker {
    const threshold: int
    const resetTimeout: int
    var state: CircuitState
    var failures: int
    var openedAt: int
    var probeInFlight: bool
    /** Calls admitted in the current half-open episode. */
    ghost var probes: nat

    ghost predicate Valid()
      reads this
    {
      && threshold >= 1 && resetTimeout > 0
      && 0 <= failures < threshold
      && (state == HalfOpenCircuit ==> probes == if probeInFlight then 1 else 0)
    }

    constructor (threshold: int, resetTimeout: int)
      requires threshold >= 1 && resetTimeout > 0
      ensures Valid() && state == ClosedCircuit && failures == 0
      ensures this.threshold == threshold && this.resetTimeout == resetTimeout
    {
      this.threshold, this.resetTimeout := threshold, resetTimeout;
      state, failures, openedAt, probeInFlight, probes := ClosedCircuit, 0, 0, false, 0;
    }

    /** Admit a call or fail fast. In one half-open episode at most one call is admitted. */
    method Admit(now: int) returns (admitted: bool)
      requires Valid()
      modifies this
      ensures Valid() && failures == old(failures) && openedAt == old(openedAt)
      ensures var elapsed := old(state) == OpenCircuit && now - old(openedAt) >= resetTimeout;
              && state == (if elapsed then HalfOpenCircuit else old(state))
              && admitted == (state == ClosedCircuit || (state == HalfOpenCircuit && (elapsed || !old(probeInFlight))))
              && (state == HalfOpenCircuit ==>
                    probes <= 1 && probes == (if elapsed then 0 else old(probes)) + (if admitted then 1 else 0))
    {
      if state == OpenCircuit && now - openedAt >= resetTimeout {
        state, probeInFlight, probes := HalfOpenCircuit, false, 0;
      }
      if state == ClosedCircuit {
        return true;
      }
      if state == HalfOpenCircuit && !probeInFlight {
        probeInFlight, probes := true, probes + 1;
        return true;
      }
      admitted := false;
    }

    method RecordSuccess()
      requires Valid()
      modifies this
      ensures Valid() && state == ClosedCircuit && failures == 0 && !probeInFlight
    {
      state, failures, probeInFlight := ClosedCircuit, 0, false;
    }

    /** A failed probe, or the last failure the threshold allows, opens the circuit. */
    method RecordFailure(now: int)
      requires Valid()
      modifies this
      ensures Valid()
      ensures if old(state) == HalfOpenCircuit || old(failures) + 1 >= threshold
              then state == OpenCircuit && failures == 0 && openedAt == now && !probeInFlight
              else state == old(state) && failures == old(failures) + 1 &&
                   openedAt == old(openedAt) && probeInFlight == old(probeInFlight)
    {
      if state == HalfOpenCircuit {
        Trip(now);
        return;
      }
      failures := failures + 1;
      if failures >= threshold {
        Trip(now);
      }
    }

    method Trip(now: int)
      requires threshold >= 1 && resetTimeout > 0
      modifies this
      ensures Valid() && state == OpenCircuit && failures == 0 && openedAt == now && !probeInFlight
    {
      state, openedAt, failures, probeInFlight := OpenCircuit, now, 0, false;
    }
  }

  // ---------------------------------------------------------------- consumer

  datatype Attempt = Returned(mutated: bool) | TransientError | PoisonError | CircuitOpenError

  datatype Report = Report(applied: nat, duplicates: nat, deadLettered: nat, halted: bool, raised: bool) {
    function Total(): nat { applied + duplicates + deadLettered }
  }

  class ResilientConsumer {
    const store: ProjectionStore
    const breaker: CircuitBreaker
    const world: World
    const maxAttempts: int
    const batch: nat

    ghost predicate Valid()
      reads this, store, breaker
    {
      store.Valid() && breaker.Valid() && maxAttempts >= 1 && batch >= 1
    }

    constructor (store: ProjectionStore, breaker: CircuitBreaker, world: World, maxAttempts: int, batch: nat)
      requires store.Valid() && breaker.Valid() && maxAttempts >= 1 && batch >= 1
      ensures Valid() && this.store == store && this.breaker == breaker && this.world == world
      ensures this.maxAttempts == maxAttempts && this.batch == batch
    {
      this.store, this.breaker, this.world := store, breaker, world;
      this.maxAttempts, this.batch := maxAttempts, batch;
    }

    /** Every attempt fails transiently before it applies, and the reset timeout never passes. */
    ghost predicate Storm()
    {
      && (forall i :: world.weather(i) == Fault(true, false))
      && (forall i, j :: world.clock(i) - world.clock(j) < breaker.resetTimeout)
    }

    /** Of `n` waiting entries a storm lets min(n, F / A) pass, for threshold F and budget A, and
        halts if there are more. */
    ghost predicate StormOutcome(n: int, rep: Report)
      requires maxAttempts >= 1
    {
      var bound := breaker.threshold / maxAttempts;
      && rep.applied == 0
      && rep.duplicates + rep.deadLettered == (if n < bound then n else bound)
      && (rep.halted <==> n > bound)
    }

    /** An open circuit will not be promoted during a storm. */
    ghost predicate StaysOpen()
      reads breaker
    {
      breaker.state != HalfOpenCircuit &&
      (breaker.state == OpenCircuit ==> forall i :: world.clock(i) - breaker.openedAt < breaker.resetTimeout)
    }

    /** The attempt at tick `i` meets a transient fault. */
    ghost predicate TransientAt(i: nat) { world.weather(i).Fault? && world.weather(i).transient }

    /** The first `n` attempts from tick `start` on, three ticks each, all meet transient faults. */
    ghost predicate AllTransient(start: nat, n: nat)
      decreases n
    {
      n == 0 || (AllTransient(start, n - 1) && TransientAt(start + 3 * (n - 1) + 1))
    }

    /** The attempt at tick `i` fails for good: a deterministic fault, or an entry that does not
        validate and gets far enough to be looked at. */
    ghost predicate PoisonAt(i: nat, d: Delivery) {
      match world.weather(i)
      case Healthy => Malformed(d)
      case Fault(transient, committed) => !transient || (committed && Malformed(d))
    }

    /** No fault is transient. */
    ghost predicate Clear() { forall i :: !TransientAt(i) }

    /** No answer is lost: a fault strikes before the apply or not at all. */
    ghost predicate AnswersArrive() { forall i :: world.weather(i).Fault? ==> !world.weather(i).committed }

    /** There are no faults at all. */
    ghost predicate Sunny() { forall i :: world.weather(i).Healthy? }

    /** What the store remembers. */
    ghost function Now(): Memory
      reads store
    {
      Memory(store.processed, store.lastId, store.deadLetters, store.effects)
    }

    /** The projection's apply in a given weather: a fault strikes before it or after its commit,
        and an entry that does not validate raises by itself. */
    method Operation(d: Delivery, weather: Weather) returns (r: Attempt)
      requires store.Valid()
      modifies store
      ensures store.Valid()
      ensures r == TransientError <==> weather.Fault? && weather.transient && !(weather.committed && Malformed(d))
      ensures r == PoisonError <==>
                if weather.Healthy? then Malformed(d) else !weather.transient || (weather.committed && Malformed(d))
      ensures r.Returned? ==> weather.Healthy? && r.mutated == (ClaimOf(d) !in old(store.processed))
      ensures r != CircuitOpenError
      ensures if (weather.Healthy? || weather.committed) && !Malformed(d) then Takes(old(Now()), Now(), d) else Now() == old(Now())
    {
      hide ProjectionStore.Valid;
      var invalid, applied := false, false;
      if weather.Healthy? || weather.committed {
        var outcome := store.Apply(d);
        invalid, applied := outcome == Invalid, outcome == Applied;
      }
      r := if weather.Fault? && weather.transient && !invalid then TransientError
           else if weather.Fault? || invalid then PoisonError else Returned(applied);
    }

    /** The breaker's call: admit, attempt, and record how it went. It takes the delivery or leaves the store alone; an error can
        come with the delivery taken, a return never without. */
    method Call(d: Delivery) returns (r: Attempt)
      requires Valid()
      modifies store, breaker, world
      ensures Valid() && Touches(old(Now()), Now(), d)
      ensures r.Returned? ==> Takes(old(Now()), Now(), d) && r.mutated == (ClaimOf(d) !in old(store.processed))
      ensures r == CircuitOpenError <==>
                || (old(breaker.state) == OpenCircuit && world.clock(old(world.tick)) - old(breaker.openedAt) < breaker.resetTimeout)
                || (old(breaker.state) == HalfOpenCircuit && old(breaker.probeInFlight))
      ensures r != CircuitOpenError ==>
                && (r == TransientError <==> TransientAt(old(world.tick) + 1) && !PoisonAt(old(world.tick) + 1, d))
                && (r == PoisonError <==> PoisonAt(old(world.tick) + 1, d))
                && (r.Returned? ==> world.weather(old(world.tick) + 1).Healthy?)
      ensures r.Returned? || r == PoisonError ==> breaker.state == ClosedCircuit && breaker.failures == 0
      ensures r == TransientError ==>
                if old(breaker.state) != ClosedCircuit || old(breaker.failures) + 1 >= breaker.threshold
                then breaker.state == OpenCircuit && breaker.failures == 0 && breaker.openedAt == world.clock(old(world.tick) + 2)
                else breaker.state == ClosedCircuit && breaker.failures == old(breaker.failures) + 1
      ensures var w := world.weather(old(world.tick) + 1);
              && (r != CircuitOpenError && (w.Healthy? || w.committed) && !Malformed(d) ==> Takes(old(Now()), Now(), d))
              && (!(w.Healthy? || w.committed) || Malformed(d) ==> Now() == old(Now()))
      ensures world.tick == old(world.tick) + (if r == CircuitOpenError then 1 else if r == TransientError then 3 else 2)
      ensures r == CircuitOpenError ==>
                && Now() == old(Now()) && breaker.state == old(breaker.state) && breaker.openedAt == old(breaker.openedAt)
                && breaker.failures == old(breaker.failures)
    {
      hide ProjectionStore.Valid, CircuitBreaker.Valid, Takes, Malformed;
      var now := world.Now();
      var admitted := breaker.Admit(now);
      if !admitted {
        return CircuitOpenError;
      }
      var weather := world.weather(world.tick);
      world.tick := world.tick + 1;
      r := Operation(d, weather);
      if r == TransientError {
        var at := world.Now();
        breaker.RecordFailure(at);
      } else {
        breaker.RecordSuccess();
      }
    }

    /** One attempt under the breaker, and what a storm makes of it. */
    method ApplyUnderBreaker(d: Delivery) returns (r: Attempt)
      requires Valid()
      modifies store, breaker, world
      ensures Valid() && Touches(old(Now()), Now(), d)
      ensures r.Returned? ==> Takes(old(Now()), Now(), d) && r.mutated == (ClaimOf(d) !in old(store.processed))
      ensures r == CircuitOpenError <==>
                || (old(breaker.state) == OpenCircuit && world.clock(old(world.tick)) - old(breaker.openedAt) < breaker.resetTimeout)
                || (old(breaker.state) == HalfOpenCircuit && old(breaker.probeInFlight))
      ensures r == CircuitOpenError ==> breaker.state == old(breaker.state) && breaker.failures == old(breaker.failures)
      ensures r != CircuitOpenError ==>
                && (r == TransientError <==> TransientAt(old(world.tick) + 1) && !PoisonAt(old(world.tick) + 1, d))
                && (r == PoisonError <==> PoisonAt(old(world.tick) + 1, d))
                && (r.Returned? ==> world.weather(old(world.tick) + 1).Healthy?)
      ensures r.Returned? || r == PoisonError ==> breaker.state == ClosedCircuit && breaker.failures == 0
      ensures r == TransientError ==>
                if old(breaker.state) != ClosedCircuit || old(breaker.failures) + 1 >= breaker.threshold
                then breaker.state == OpenCircuit && breaker.failures == 0 && breaker.openedAt == world.clock(old(world.tick) + 2)
                else breaker.state == ClosedCircuit && breaker.failures == old(breaker.failures) + 1
      ensures var w := world.weather(old(world.tick) + 1);
              && (r != CircuitOpenError && (w.Healthy? || w.committed) && !Malformed(d) ==> Takes(old(Now()), Now(), d))
              && (!(w.Healthy? || w.committed) || Malformed(d) ==> Now() == old(Now()))
      ensures world.tick == old(world.tick) + (if r == CircuitOpenError then 1 else if r == TransientError then 3 else 2)
      ensures Storm() || r == CircuitOpenError ==> Now() == old(Now())
      ensures Storm() && old(StaysOpen()) ==> StaysOpen()
      ensures Storm() && old(StaysOpen()) && old(breaker.state) == OpenCircuit ==>
                r == CircuitOpenError && breaker.state == OpenCircuit
      ensures Storm() && old(breaker.state) == ClosedCircuit ==>
                r == TransientError &&
                (if old(breaker.failures) + 1 >= breaker.threshold then breaker.state == OpenCircuit && StaysOpen()
                 else breaker.state == ClosedCircuit && breaker.failures == old(breaker.failures) + 1)
    {
      hide ProjectionStore.Valid, Touches, Takes, Malformed;
      StormHits(world.tick + 1, d);
      r := Call(d);
    }

    lemma StormHits(i: nat, d: Delivery)
      ensures Storm() ==> TransientAt(i) && !PoisonAt(i, d) && world.weather(i) == Fault(true, false)
    {}

    /** After `n` transient attempts the next one returned, or failed for good. */
    ghost predicate EndsAt(start: nat, n: nat, d: Delivery, r: Attempt) {
      && AllTransient(start, n)
      && (if r == PoisonError then PoisonAt(start + 3 * n + 1, d) else world.weather(start + 3 * n + 1).Healthy?)
    }

    /** Up to `maxAttempts` attempts; only a transient error is retried, and an error that is not
        transient ends the call at once. */
    method CallWithRetry(d: Delivery) returns (r: Attempt)
      requires Valid()
      modifies store, breaker, world
      ensures Valid() && Touches(old(Now()), Now(), d)
      ensures r.Returned? ==> Takes(old(Now()), Now(), d) && (r.mutated ==> ClaimOf(d) !in old(store.processed))
      ensures r == TransientError ==>
                AllTransient(old(world.tick), maxAttempts) && world.tick == old(world.tick) + 3 * maxAttempts
      ensures r.Returned? || r == PoisonError ==>
                && breaker.state == ClosedCircuit && breaker.failures == 0
                && exists n: nat :: n < maxAttempts && EndsAt(old(world.tick), n, d, r) && world.tick == old(world.tick) + 3 * n + 2
      ensures old(breaker.state) == ClosedCircuit && PoisonAt(old(world.tick) + 1, d) ==>
                r == PoisonError && world.tick == old(world.tick) + 2
      ensures old(breaker.state) == ClosedCircuit && world.weather(old(world.tick) + 1).Healthy? && !Malformed(d) ==>
                r == Returned(ClaimOf(d) !in old(store.processed)) && world.tick == old(world.tick) + 2
      ensures Clear() && old(breaker.state) == ClosedCircuit ==> r.Returned? || r == PoisonError
      ensures AnswersArrive() ==>
                if r.Returned? then r.mutated == (ClaimOf(d) !in old(store.processed)) else Now() == old(Now())
      ensures Storm() ==> Now() == old(Now())
      ensures Storm() && old(StaysOpen()) ==> !r.Returned?
      ensures Storm() && old(StaysOpen()) ==> StaysOpen()
      ensures Storm() && old(StaysOpen()) && old(breaker.state) == OpenCircuit ==>
                r == CircuitOpenError && breaker.state == OpenCircuit
      ensures Storm() && old(breaker.state) == ClosedCircuit ==>
                if old(breaker.failures) + maxAttempts < breaker.threshold
                then r == TransientError && breaker.state == ClosedCircuit && breaker.failures == old(breaker.failures) + maxAttempts
                else breaker.state == OpenCircuit &&
                     r == if old(breaker.failures) + maxAttempts == breaker.threshold then TransientError else CircuitOpenError
    {
      hide ProjectionStore.Valid, Touches, Takes;
      var attempt := 1;
      ghost var start := Now();
      TouchesNothing(start, d);
      while true
        invariant Valid() && 1 <= attempt <= maxAttempts && start == old(Now()) && Touches(start, Now(), d)
        invariant world.tick == old(world.tick) + 3 * (attempt - 1) && AllTransient(old(world.tick), attempt - 1)
        invariant attempt == 1 ==> Now() == start && breaker.state == old(breaker.state)
        invariant attempt > 1 ==> TransientAt(old(world.tick) + 1) && !PoisonAt(old(world.tick) + 1, d)
        invariant Storm() || AnswersArrive() ==> Now() == start
        invariant Storm() && old(StaysOpen()) ==> StaysOpen()
        invariant Storm() && old(StaysOpen()) && old(breaker.state) == OpenCircuit ==> attempt == 1 && breaker.state == OpenCircuit
        invariant Storm() && old(breaker.state) == ClosedCircuit ==>
                    StaysOpen() &&
                    if old(breaker.failures) + attempt - 1 < breaker.threshold
                    then breaker.state == ClosedCircuit && breaker.failures == old(breaker.failures) + attempt - 1
                    else breaker.state == OpenCircuit && old(breaker.failures) + attempt - 1 == breaker.threshold
        decreases maxAttempts - attempt
      {
        ghost var mid := Now();
        r := ApplyUnderBreaker(d);
        TouchesTwice(start, mid, Now(), d);
        assert r.Returned? || r == PoisonError ==> EndsAt(old(world.tick), attempt - 1, d, r);
        if r != TransientError || attempt == maxAttempts {
          return;
        }
        attempt := attempt + 1;
      }
    }

    /** One delivery: retry, then classify. Only an open circuit or a dead letter that cannot be
        written stops the run; the delivery may have been taken even then. */
    method Handle(d: Delivery) returns (h: Handled)
      requires Valid() && store.lastId < d.logId
      modifies store, breaker, world
      ensures Valid() && HandledAs(old(Now()), Now(), d, h)
      ensures h.Parks? ==>
                || (h.attempts == maxAttempts && AllTransient(old(world.tick), maxAttempts))
                || (h.attempts == 1 && exists n: nat :: n < maxAttempts && EndsAt(old(world.tick), n, d, PoisonError))
      ensures Clear() && old(breaker.state) == ClosedCircuit ==> breaker.state == ClosedCircuit && !h.Halts?
      ensures Sunny() && old(breaker.state) == ClosedCircuit && !Malformed(d) ==>
                h == if ClaimOf(d) in old(store.processed) then Repeats else Applies
      ensures (Storm() || AnswersArrive()) && (h.Halts? || h.Raises?) ==> Now() == old(Now())
      ensures AnswersArrive() ==> |store.effects| == |old(store.effects)| + (if h.Applies? then 1 else 0)
      ensures Storm() && old(StaysOpen()) && ClaimOf(d) !in old(store.processed) ==> !h.Repeats?
      ensures Storm() && old(StaysOpen()) ==> StaysOpen() && !h.Applies?
      ensures Storm() && old(StaysOpen()) && old(breaker.state) == OpenCircuit ==> h.Halts?
      ensures Storm() && old(breaker.state) == ClosedCircuit && !h.Raises? ==>
                (h.Halts? <==> old(breaker.failures) + maxAttempts > breaker.threshold) &&
                if old(breaker.failures) + maxAttempts < breaker.threshold
                then breaker.state == ClosedCircuit && breaker.failures == old(breaker.failures) + maxAttempts
                else breaker.state == OpenCircuit
      ensures h.Raises? ==> exists i :: world.deadLetterRaises(i)
    {
      hide ProjectionStore.Valid, CircuitBreaker.Valid, Touches, Takes, HandledAs, Storm, StaysOpen, EndsAt, AllTransient,
        AnswersArrive;
      ghost var start := Now();
      SunnyIsClear();
      var r := CallWithRetry(d);
      TakesOne(start, Now(), d);
      ghost var mid := Now();
      HandledCases(start, mid, mid, d, r);
      if r.Returned? {
        return if r.mutated then Applies else Repeats;
      }
      if r == CircuitOpenError {
        return Halts;
      }
      var raises := world.deadLetterRaises(world.tick);
      if raises {
        return Raises;
      }
      world.tick := world.tick + 1;
      ghost var attempts := if r == TransientError then maxAttempts else 1;
      var parked := store.DeadLetter(d, if r == TransientError then maxAttempts else 1);
      h := if parked then Parks(if r == TransientError then maxAttempts else 1) else Repeats;
      ParkedCases(start, mid, Now(), d, parked, attempts);
    }

    /** Consume until the feed is drained or the circuit opens. Every entry at or below the offset
        was applied once or parked once; if nothing was parked, what took effect is each new key
        once, in feed order. In a storm, with threshold F and budget A, exactly min(n, F / A) of
        the n waiting entries are moved past before the halt. */
    method Run(feed: seq<Delivery>) returns (rep: Report)
      requires Valid() && Positioned(feed) && 0 <= store.lastId <= |feed|
      requires forall i :: 0 <= i < store.lastId ==> ClaimOf(feed[i]) in store.processed
      modifies store, breaker, world
      ensures Valid() && old(store.lastId) <= store.lastId <= |feed|
      ensures forall i :: 0 <= i < store.lastId ==> ClaimOf(feed[i]) in store.processed
      ensures rep.halted || rep.raised || store.lastId == |feed|
      ensures var passed := store.lastId - old(store.lastId);
              if rep.halted || rep.raised then rep.Total() <= passed <= rep.Total() + 1 && rep.Total() < |feed| - old(store.lastId)
              else rep.Total() == passed
      ensures rep.applied <= |store.effects| - |old(store.effects)|
      ensures |store.deadLetters| == |old(store.deadLetters)| + rep.deadLettered
      ensures store.processed == old(store.processed) + Claims(feed[old(store.lastId)..store.lastId])
      ensures rep.deadLettered == 0 ==>
                && store.deadLetters == old(store.deadLetters)
                && store.effects == old(store.effects) + FreshEffects(feed[old(store.lastId)..store.lastId], old(store.processed))
      ensures AnswersArrive() ==> |store.effects| == |old(store.effects)| + rep.applied
      ensures LettersFrom(old(store.deadLetters), store.deadLetters, feed[old(store.lastId)..store.lastId])
      ensures rep.raised ==> exists i :: world.deadLetterRaises(i)
      ensures Clear() && old(breaker.state) == ClosedCircuit ==> !rep.halted && (rep.raised || store.lastId == |feed|)
      ensures Sunny() && old(breaker.state) == ClosedCircuit && WellFormed(feed) ==>
                !rep.raised && store.lastId == |feed| && rep.deadLettered == 0
      ensures Storm() && old(breaker.state) == ClosedCircuit && old(breaker.failures) == 0 && !rep.raised ==>
                && StormOutcome(|feed| - old(store.lastId), rep)
                && (Unseen(feed, old(store.lastId), old(store.processed)) ==> rep.duplicates == 0)
    {
      hide Running, ProjectionStore.Valid, CircuitBreaker.Valid, Storm, FreshEffects, Claims, LettersFrom, Clear, Sunny, Unseen,
        WellFormed, StormOutcome, AnswersArrive;
      ghost var st := Start(Now(), Storm() && breaker.state == ClosedCircuit && breaker.failures == 0,
                            Clear() && breaker.state == ClosedCircuit,
                            Sunny() && breaker.state == ClosedCircuit && WellFormed(feed));
      rep := Report(0, 0, 0, false, false);
      RunStarts(feed, st);
      while !rep.halted && !rep.raised && store.lastId < |feed|
        invariant Valid() && 0 <= store.lastId <= |feed|
        invariant Running(feed, rep, st)
        decreases |feed| - store.lastId, !rep.halted && !rep.raised
      {
        var from := store.lastId;
        var end := if from + batch < |feed| then from + batch else |feed|;
        while !rep.halted && !rep.raised && store.lastId < end
          invariant Valid() && from <= store.lastId <= end
          invariant Running(feed, rep, st)
          decreases end - store.lastId, !rep.halted && !rep.raised
        {
          rep := Advance(feed, rep, st);
        }
      }
      Concluded(feed, rep, st);
    }

    lemma SunnyIsClear()
      ensures Sunny() ==> Clear()
    {}

    lemma RunStarts(feed: seq<Delivery>, st: Start)
      requires Valid() && 0 <= store.lastId <= |feed|
      requires forall i :: 0 <= i < store.lastId ==> ClaimOf(feed[i]) in store.processed
      requires st.memory == Now() && st.storm == (Storm() && breaker.state == ClosedCircuit && breaker.failures == 0)
      requires st.clear == (Clear() && breaker.state == ClosedCircuit)
      requires st.sunny == (Sunny() && breaker.state == ClosedCircuit && WellFormed(feed))
      ensures Running(feed, Report(0, 0, 0, false, false), st)
    {
      hide Accounted, Weathered, ProjectionStore.Valid, CircuitBreaker.Valid;
      store.ParkedAreProcessed();
      AccountStarts(feed, Now());
      WeatherStarts(feed, st);
    }

    lemma WeatherStarts(feed: seq<Delivery>, st: Start)
      requires breaker.Valid() && 0 <= store.lastId <= |feed| && st.memory == Now()
      requires st.storm == (Storm() && breaker.state == ClosedCircuit && breaker.failures == 0)
      requires st.clear == (Clear() && breaker.state == ClosedCircuit)
      requires st.sunny == (Sunny() && breaker.state == ClosedCircuit && WellFormed(feed))
      ensures Weathered(feed, Report(0, 0, 0, false, false), st)
    {
      hide Clear, Sunny, Storm, Stormy, Unseen, WellFormed, AnswersArrive;
      if st.storm { StormStarts(); }
    }

    lemma StormStarts()
      requires breaker.Valid() && breaker.state == ClosedCircuit && breaker.failures == 0
      ensures Stormy(Report(0, 0, 0, false, false), 0)
    {
      hide Spent;
      NothingSpent(maxAttempts);
    }

    /** What holds between two entries of a run that began at `st`. */
    ghost predicate Running(feed: seq<Delivery>, rep: Report, st: Start)
      reads store, breaker
    {
      && Accounted(feed, Now(), rep, st.memory) && Weathered(feed, rep, st)
      && (rep.raised ==> exists i :: world.deadLetterRaises(i))
    }

    /** What the three kinds of weather have meant so far. */
    ghost predicate Weathered(feed: seq<Delivery>, rep: Report, st: Start)
      reads store, breaker
    {
      && 0 <= st.memory.lastId
      && (st.clear ==> Clear() && breaker.state == ClosedCircuit && !rep.halted)
      && (AnswersArrive() ==> |store.effects| == |st.memory.effects| + rep.applied)
      && (st.sunny ==>
            && Sunny() && WellFormed(feed) && breaker.state == ClosedCircuit
            && rep.deadLettered == 0 && !rep.raised && !rep.halted)
      && (st.storm ==> Storm() && Stormy(rep, store.lastId - st.memory.lastId) && rep.Total() == store.lastId - st.memory.lastId)
      && (st.storm && Unseen(feed, st.memory.lastId, st.memory.processed) ==> rep.duplicates == 0 && StillUnseen(feed))
    }

    /** The next entry of the feed and its place in the report. */
    method Advance(feed: seq<Delivery>, rep: Report, ghost st: Start) returns (r: Report)
      requires Valid() && Positioned(feed) && 0 <= store.lastId < |feed| && !rep.halted && !rep.raised
      requires Running(feed, rep, st)
      modifies store, breaker, world
      ensures Valid() && Running(feed, r, st)
      ensures old(store.lastId) <= store.lastId <= old(store.lastId) + 1
      ensures !r.halted && !r.raised ==> store.lastId == old(store.lastId) + 1
    {
      hide ProjectionStore.Valid, CircuitBreaker.Valid, Spent, StaysOpen, Storm, HandledAs, Accounted, Touches, Takes, Clear, Sunny,
        EndsAt, AllTransient, AnswersArrive;
      AccountOffsets(feed, Now(), rep, st.memory);
      ghost var k := store.lastId - st.memory.lastId;
      SunnyIsClear();
      OneMore(k, maxAttempts);
      var n := store.lastId;
      ghost var before := Now();
      var h := Handle(feed[n]);
      r := Counted(rep, h);
      HandledOffset(before, Now(), feed[n], h);
      AccountNext(feed, st.memory, before, Now(), rep, h);
    }

    lemma Concluded(feed: seq<Delivery>, rep: Report, st: Start)
      requires Valid() && Running(feed, rep, st)
      requires rep.halted || rep.raised || store.lastId == |feed|
      ensures st.storm && !rep.raised ==>
                && StormOutcome(|feed| - st.memory.lastId, rep)
                && (Unseen(feed, st.memory.lastId, st.memory.processed) ==> rep.duplicates == 0)
      ensures st.memory.lastId <= store.lastId
      ensures var ds := feed[st.memory.lastId..store.lastId];
              && LettersFrom(st.memory.letters, store.deadLetters, ds) && store.processed == st.memory.processed + Claims(ds)
              && |store.deadLetters| == |st.memory.letters| + rep.deadLettered
              && |st.memory.effects| + rep.applied <= |store.effects|
              && (rep.deadLettered == 0 ==>
                    && store.deadLetters == st.memory.letters
                    && store.effects == st.memory.effects + FreshEffects(ds, st.memory.processed))
      ensures forall i :: 0 <= i < store.lastId ==> ClaimOf(feed[i]) in store.processed
      ensures if rep.halted || rep.raised
              then rep.Total() <= store.lastId - st.memory.lastId <= rep.Total() + 1 && rep.Total() < |feed| - st.memory.lastId
              else rep.Total() == store.lastId - st.memory.lastId
      ensures rep.raised ==> exists i :: world.deadLetterRaises(i)
      ensures AnswersArrive() ==> |store.effects| == |st.memory.effects| + rep.applied
      ensures (st.clear ==> !rep.halted) && (st.sunny ==> !rep.raised && !rep.halted && rep.deadLettered == 0)
    {
      hide ProjectionStore.Valid, CircuitBreaker.Valid, Spent, Storm, Clear, Sunny, FreshEffects, Claims, LettersFrom, Unseen,
        AnswersArrive;
      if st.storm && !rep.raised {
        var k := store.lastId - st.memory.lastId;
        if rep.halted { DivExactly(k, maxAttempts, breaker.threshold); } else { DivAtLeast(k, maxAttempts, breaker.threshold); }
      }
    }

    /** The entries after the offset are still unprocessed and distinct. */
    ghost predicate StillUnseen(feed: seq<Delivery>)
      reads store
    {
      0 <= store.lastId && Unseen(feed, store.lastId, store.processed)
    }

    /** The state of a storm after `k` entries: every entry so far cost a full budget. */
    ghost predicate Stormy(rep: Report, k: int)
      reads breaker
    {
      && rep.applied == 0 && StaysOpen()
      && (rep.raised || if rep.halted then Spent(k, maxAttempts) <= breaker.threshold < Spent(k + 1, maxAttempts) else StormCount(k))
    }

    /** After k entries of a storm the breaker has counted k full budgets. */
    ghost predicate StormCount(k: int)
      reads breaker
    {
      if breaker.state == OpenCircuit then Spent(k, maxAttempts) == breaker.threshold
      else breaker.state == ClosedCircuit && breaker.failures == Spent(k, maxAttempts) && Spent(k, maxAttempts) < breaker.threshold
    }
  }

  // ----------------------------------------------------- what a delivery leaves behind

  /** The store's memory of what it has processed. */
  datatype Memory = Memory(processed: set<Key>, lastId: int, letters: map<Key, Letter>, effects: seq<Effect>)

  /** The entry fails validation. */
  predicate Malformed(d: Delivery) { d.eventId.None? || d.payload.None? }

  ghost predicate WellFormed(feed: seq<Delivery>) {
    forall i :: 0 <= i < |feed| ==> !Malformed(feed[i])
  }

  /** The delivery was taken: a new key has its effect, an old one changes nothing, and the offset
      has reached it. */
  ghost predicate Takes(x: Memory, y: Memory, d: Delivery) {
    && y.letters == x.letters && y.lastId == Max(x.lastId, d.logId) && ClaimOf(d) in y.processed
    && if ClaimOf(d) in x.processed then y.effects == x.effects && y.processed == x.processed
       else d.payload.Some? && y.effects == x.effects + [Effect(ClaimOf(d), d.payload.value)] &&
            y.processed == x.processed + {ClaimOf(d)}
  }

  ghost predicate Touches(x: Memory, y: Memory, d: Delivery) { y == x || Takes(x, y, d) }

  lemma TouchesNothing(x: Memory, d: Delivery)
    ensures Touches(x, x, d)
  {}

  /** However often one delivery is attempted, it is taken at most once. */
  lemma TouchesTwice(x: Memory, y: Memory, z: Memory, d: Delivery)
    requires Touches(x, y, d) && Touches(y, z, d)
    ensures Touches(x, z, d)
    ensures Takes(y, z, d) ==> Takes(x, z, d)
    ensures ClaimOf(d) !in y.processed ==> ClaimOf(d) !in x.processed
  {}

  /** What became of one entry. */
  ghost predicate HandledAs(x: Memory, y: Memory, d: Delivery, h: Handled) {
    match h
    case Applies => Takes(x, y, d) && ClaimOf(d) !in x.processed
    case Repeats => Takes(x, y, d)
    case Parks(attempts) =>
      && ClaimOf(d) !in x.processed && y.processed == x.processed + {ClaimOf(d)} && y.effects == x.effects
      && y.lastId == Max(x.lastId, d.logId)
      && y.letters == x.letters[ClaimOf(d) := Letter(d, attempts)] && |y.letters| == |x.letters| + 1
    case Halts => Touches(x, y, d)
    case Raises => Touches(x, y, d)
  }

  lemma TakesOne(x: Memory, y: Memory, d: Delivery)
    ensures Takes(x, y, d) ==> |y.effects| == |x.effects| + (if ClaimOf(d) in x.processed then 0 else 1)
  {}

  lemma HandledCases(x: Memory, y: Memory, z: Memory, d: Delivery, r: Attempt)
    requires z == y && Touches(x, y, d)
    requires r.Returned? ==> Takes(x, y, d) && (r.mutated ==> ClaimOf(d) !in x.processed)
    ensures r.Returned? ==> HandledAs(x, z, d, if r.mutated then Applies else Repeats)
    ensures HandledAs(x, z, d, Halts) && HandledAs(x, z, d, Raises)
  {}

  lemma ParkedCases(x: Memory, y: Memory, z: Memory, d: Delivery, parked: bool, attempts: int)
    requires Touches(x, y, d) && parked == (ClaimOf(d) !in y.processed)
    requires z.effects == y.effects && z.processed == y.processed + {ClaimOf(d)} && z.lastId == Max(y.lastId, d.logId)
    requires z.letters == if parked then y.letters[ClaimOf(d) := Letter(d, attempts)] else y.letters
    requires |z.letters| == |y.letters| + (if parked then 1 else 0)
    ensures HandledAs(x, z, d, if parked then Parks(attempts) else Repeats)
    ensures ClaimOf(d) !in x.processed && y == x ==> parked
  {}

  lemma HandledOffset(x: Memory, y: Memory, d: Delivery, h: Handled)
    requires HandledAs(x, y, d, h) && x.lastId < d.logId
    ensures x.processed <= y.processed <= x.processed + {ClaimOf(d)}
    ensures y.lastId == x.lastId || y.lastId == d.logId
    ensures y.lastId == d.logId ==> ClaimOf(d) in y.processed
    ensures h.Halts? || h.Raises? || y.lastId == d.logId
    ensures y.lastId == x.lastId ==> y == x
  {}

  /** The entry's place in the report. */
  function Counted(rep: Report, h: Handled): Report {
    match h
    case Halts => rep.(halted := true)
    case Raises => rep.(raised := true)
    case Applies => rep.(applied := rep.applied + 1)
    case Parks(_) => rep.(deadLettered := rep.deadLettered + 1)
    case Repeats => rep.(duplicates := rep.duplicates + 1)
  }

  /** The letter is one of these deliveries, under its own key. */
  ghost predicate OwnLetter(ds: seq<Delivery>, k: Key, letter: Letter) {
    exists i :: 0 <= i < |ds| && ClaimOf(ds[i]) == k && letter.delivery == ds[i]
  }

  /** Old letters are untouched and every new one holds its whole delivery. */
  ghost predicate LettersFrom(x: map<Key, Letter>, y: map<Key, Letter>, ds: seq<Delivery>) {
    && (forall k :: k in x ==> k in y && y[k] == x[k])
    && (forall k :: k in y && k !in x ==> OwnLetter(ds, k, y[k]))
  }

  lemma LettersPlus(x: map<Key, Letter>, y: map<Key, Letter>, ds: seq<Delivery>, d: Delivery, attempts: int)
    requires LettersFrom(x, y, ds)
    ensures LettersFrom(x, y, ds + [d])
    ensures ClaimOf(d) !in x ==> LettersFrom(x, y[ClaimOf(d) := Letter(d, attempts)], ds + [d])
  {
    var all := ds + [d];
    assert all[|ds|] == d;
    forall k | k in y && k !in x ensures OwnLetter(all, k, y[k]) {
      var i :| 0 <= i < |ds| && ClaimOf(ds[i]) == k && y[k].delivery == ds[i];
      assert all[i] == ds[i];
    }
  }

  /** What a run has made of the entries `ds` it moved past. */
  ghost predicate Consumed(x: Memory, y: Memory, ds: seq<Delivery>, rep: Report) {
    && LettersFrom(x.letters, y.letters, ds)
    && y.processed == x.processed + Claims(ds)
    && |y.letters| == |x.letters| + rep.deadLettered
    && |x.effects| + rep.applied <= |y.effects|
    && (rep.deadLettered == 0 ==> y.letters == x.letters && y.effects == x.effects + FreshEffects(ds, x.processed))
  }

  /** Every entry passed since `x` is accounted for, in the store and in the report. */
  ghost predicate Accounted(feed: seq<Delivery>, y: Memory, rep: Report, x: Memory) {
    && 0 <= x.lastId <= y.lastId <= |feed| && x.letters.Keys <= x.processed
    && Consumed(x, y, feed[x.lastId..y.lastId], rep)
    && (forall i :: 0 <= i < y.lastId ==> ClaimOf(feed[i]) in y.processed)
    && (if rep.halted || rep.raised then rep.Total() <= y.lastId - x.lastId <= rep.Total() + 1 && rep.Total() < |feed| - x.lastId
        else rep.Total() == y.lastId - x.lastId)
  }

  lemma AccountStarts(feed: seq<Delivery>, x: Memory)
    requires 0 <= x.lastId <= |feed| && x.letters.Keys <= x.processed
    requires forall i :: 0 <= i < x.lastId ==> ClaimOf(feed[i]) in x.processed
    ensures Accounted(feed, x, Report(0, 0, 0, false, false), x)
  {
    hide Consumed;
    var none := feed[x.lastId..x.lastId];
    ConsumedNothing(x, none);
  }

  lemma AccountOffsets(feed: seq<Delivery>, y: Memory, rep: Report, x: Memory)
    requires Accounted(feed, y, rep, x) && !rep.halted && !rep.raised
    ensures 0 <= x.lastId <= y.lastId && rep.Total() == y.lastId - x.lastId
  {}

  lemma AccountNext(feed: seq<Delivery>, x: Memory, y: Memory, z: Memory, rep: Report, h: Handled)
    requires Accounted(feed, y, rep, x) && !rep.halted && !rep.raised && y.lastId < |feed| && Positioned(feed)
    requires HandledAs(y, z, feed[y.lastId], h)
    ensures Accounted(feed, z, Counted(rep, h), x)
  {
    hide Consumed, HandledAs;
    HandledOffset(y, z, feed[y.lastId], h);
    ConsumedNext(x, y, z, feed, rep, Counted(rep, h), h);
  }

  lemma ConsumedNothing(x: Memory, ds: seq<Delivery>)
    requires ds == []
    ensures Consumed(x, x, ds, Report(0, 0, 0, false, false))
  {
    hide FreshEffects, Claims;
    NothingFresh(ds, x.processed);
  }

  lemma LettersNext(x: Memory, y: Memory, z: Memory, ds: seq<Delivery>, d: Delivery, h: Handled)
    requires LettersFrom(x.letters, y.letters, ds) && x.letters.Keys <= x.processed <= y.processed && HandledAs(y, z, d, h)
    ensures LettersFrom(x.letters, z.letters, ds + [d])
    ensures z == y ==> LettersFrom(x.letters, z.letters, ds)
  {
    hide LettersFrom;
    LettersPlus(x.letters, y.letters, ds, d, if h.Parks? then h.attempts else 0);
  }

  lemma ConsumedNext(x: Memory, y: Memory, z: Memory, feed: seq<Delivery>, rep: Report, r: Report, h: Handled)
    requires 0 <= x.lastId <= y.lastId < |feed| && Positioned(feed)
    requires Consumed(x, y, feed[x.lastId..y.lastId], rep) && HandledAs(y, z, feed[y.lastId], h)
    requires r == Counted(rep, h) && x.letters.Keys <= x.processed
    ensures y.lastId <= z.lastId <= |feed| && Consumed(x, z, feed[x.lastId..z.lastId], r)
  {
    hide FreshEffects, Claims, LettersFrom;
    var d := feed[y.lastId];
    LettersNext(x, y, z, feed[x.lastId..y.lastId], d, h);
    HandledOffset(y, z, d, h);
    var ds := feed[x.lastId..y.lastId];
    assert feed[x.lastId..y.lastId + 1] == ds + [d];
    FreshPlus(ds, d, x.processed);
  }

  /** Where a run began, and whether it began in a storm with a fresh breaker. */
  datatype Start = Start(memory: Memory, storm: bool, clear: bool, sunny: bool)

  datatype Handled = Applies | Repeats | Parks(attempts: int) | Halts | Raises

  /** The waiting entries have distinct keys that were never processed. */
  ghost predicate Unseen(feed: seq<Delivery>, start: int, processed: set<Key>)
    requires 0 <= start
  {
    && (forall i :: start <= i < |feed| ==> ClaimOf(feed[i]) !in processed)
    && (forall i, j :: start <= i < j < |feed| ==> ClaimOf(feed[i]) != ClaimOf(feed[j]))
  }

  /** Attempts used up by `k` entries with budget `a`. */
  function Spent(k: int, a: int): int { k * a }

  lemma NothingSpent(a: int)
    ensures Spent(0, a) == 0
  {}

  lemma OneMore(k: int, a: int)
    ensures Spent(k + 1, a) == Spent(k, a) + a
  {}

  lemma DivExactly(k: int, a: int, f: int)
    requires a >= 1 && Spent(k, a) <= f < Spent(k + 1, a)
    ensures k == f / a
  {
    assert f == a * (f / a) + f % a;
    if k < f / a { Monotone(k + 1, f / a, a); } else if k > f / a { Monotone(f / a + 1, k, a); }
  }

  lemma DivAtLeast(k: int, a: int, f: int)
    requires a >= 1 && Spent(k, a) <= f
    ensures k <= f / a
  {
    assert f == a * (f / a) + f % a;
    if k > f / a { Monotone(f / a + 1, k, a); }
  }

  lemma Monotone(x: int, y: int, a: int)
    requires x <= y && a >= 1
    ensures x * a <= y * a
  {}
}
