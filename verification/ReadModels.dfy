/** The idempotent consumer with its dead letters: at-least-once delivery, exactly-once effect. */
module ReadModels {
  import opened Events
  import opened Accounts
  import opened Views
  import opened Execution
  import opened Runs
  import opened Projection

  /** The primary key of the processed-events table. A delivery without an event id can only
      be parked, under a key made from its log id. */
  datatype Key = EventKey(id: Id) | MissingKey(logId: int)

  /** One delivered log entry; a payload that fails validation carries no event. */
  datatype Delivery = Delivery(eventId: Option<Id>, logId: int, payload: Option<Event>)

  datatype Letter = Letter(delivery: Delivery, attempts: int)

  datatype ApplyOutcome = Applied | Duplicate | Invalid

  datatype RedriveOutcome = Redriven | NotFound | FailedAgain

  function ClaimOf(d: Delivery): Key {
    if d.eventId.Some? then EventKey(d.eventId.value) else MissingKey(d.logId)
  }

  /** Two deliveries claim the same key exactly when they carry the same event id, or carry none
      and come from the same place in the log. */
  lemma ClaimsAreOwn(d: Delivery, e: Delivery)
    ensures ClaimOf(d) == ClaimOf(e) <==> d.eventId == e.eventId && (d.eventId.None? ==> d.logId == e.logId)
  {}

  /** What took effect, in order. */
  datatype Effect = Effect(key: Key, event: Event)

  function EventsIn(effects: seq<Effect>): (r: seq<Event>)
    ensures |r| == |effects|
    ensures forall i :: 0 <= i < |effects| ==> r[i] == effects[i].event
  {
    seq(|effects|, i requires 0 <= i < |effects| => effects[i].event)
  }

  ghost predicate DistinctKeys(effects: seq<Effect>) {
    forall i, j :: 0 <= i < j < |effects| ==> effects[i].key != effects[j].key
  }

  ghost function KeysIn(effects: seq<Effect>): set<Key> {
    set i | 0 <= i < |effects| :: effects[i].key
  }

  /** The feed's ids are its positions. */
  ghost predicate Positioned(feed: seq<Delivery>) {
    forall i :: 0 <= i < |feed| ==> feed[i].logId == i + 1
  }

  function Max(x: int, y: int): int { if x > y then x else y }

  /** The processed keys split exactly into applied and parked, each applied once, and the
      tables are the projection of what was applied. */
  ghost predicate StoreInv(tables: Tables, processed: set<Key>, letters: map<Key, Letter>, effects: seq<Effect>) {
    && processed == KeysIn(effects) + letters.Keys
    && KeysIn(effects) !! letters.Keys
    && DistinctKeys(effects)
    && tables == Project(EventsIn(effects))
    && (forall k :: k in letters ==> ClaimOf(letters[k].delivery) == k)
  }

  /** The keys a list of deliveries claims. */
  ghost function Claims(ds: seq<Delivery>): set<Key> {
    set i | 0 <= i < |ds| :: ClaimOf(ds[i])
  }

  /** What a list of deliveries adds to a store that has processed `seen`: each new key once, at
      its first delivery. */
  ghost function FreshEffects(ds: seq<Delivery>, seen: set<Key>): seq<Effect> {
    if ds == [] then []
    else
      var n := |ds| - 1;
      var before := FreshEffects(ds[..n], seen);
      if ds[n].payload.None? || ClaimOf(ds[n]) in seen + Claims(ds[..n]) then before
      else before + [Effect(ClaimOf(ds[n]), ds[n].payload.value)]
  }

  lemma NothingFresh(ds: seq<Delivery>, seen: set<Key>)
    requires ds == []
    ensures FreshEffects(ds, seen) == [] && Claims(ds) == {}
  {}

  lemma FreshPlus(ds: seq<Delivery>, d: Delivery, seen: set<Key>)
    ensures Claims(ds + [d]) == Claims(ds) + {ClaimOf(d)}
    ensures FreshEffects(ds + [d], seen) ==
            if d.payload.None? || ClaimOf(d) in seen + Claims(ds) then FreshEffects(ds, seen)
            else FreshEffects(ds, seen) + [Effect(ClaimOf(d), d.payload.value)]
  {
    var all := ds + [d];
    assert all[..|ds|] == ds;
    assert Claims(all) == Claims(ds) + {ClaimOf(d)} by {
      forall i | 0 <= i < |ds| ensures ClaimOf(ds[i]) in Claims(all) { assert all[i] == ds[i]; }
      assert all[|ds|] == d;
    }
  }

  // ------------------------------------------------------------- the dead letters

  function OutcomeOf(letter: Letter): RedriveOutcome {
    if letter.delivery.payload.Some? then Redriven else FailedAgain
  }

  ghost predicate Ascends(order: seq<Key>, letters: map<Key, Letter>) {
    forall i, j :: 0 <= i < j < |order| ==>
      order[i] in letters && order[j] in letters && letters[order[i]].delivery.logId <= letters[order[j]].delivery.logId
  }

  /** Every parked key once, by ascending log id. */
  ghost predicate OldestFirst(order: seq<Key>, letters: map<Key, Letter>) {
    && (forall k :: k in letters <==> k in order)
    && (forall i, j :: 0 <= i < j < |order| ==> order[i] != order[j])
    && Ascends(order, letters)
  }

  lemma {:induction false} OldestExists(rest: set<Key>, letters: map<Key, Letter>)
    requires rest != {} && rest <= letters.Keys
    ensures exists k :: k in rest && forall j :: j in rest ==> letters[k].delivery.logId <= letters[j].delivery.logId
    decreases rest
  {
    var k :| k in rest;
    var others := rest - {k};
    if others == {} {
      assert rest == {k};
    } else {
      OldestExists(others, letters);
      var o :| o in others && forall j :: j in others ==> letters[o].delivery.logId <= letters[j].delivery.logId;
      var best := if letters[k].delivery.logId <= letters[o].delivery.logId then k else o;
      forall j | j in rest ensures letters[best].delivery.logId <= letters[j].delivery.logId {
        if j != k { assert j in others; }
      }
    }
  }

  function Retried(letter: Letter): Letter { letter.(attempts := letter.attempts + 1) }

  /** What stays parked after every letter was redriven once. */
  function LeftParked(letters: map<Key, Letter>): map<Key, Letter> {
    map k | k in letters && letters[k].delivery.payload.None? :: Retried(letters[k])
  }

  function PartlyRedriven(letters: map<Key, Letter>, done: seq<Key>): map<Key, Letter> {
    map k | k in letters && (k in done ==> letters[k].delivery.payload.None?) :: if k in done then Retried(letters[k]) else letters[k]
  }

  /** The effects of redriving `done`, in that order. */
  function RedrivenEffects(done: seq<Key>, letters: map<Key, Letter>): seq<Effect> {
    if done == [] then []
    else
      var n := |done| - 1;
      var before := RedrivenEffects(done[..n], letters);
      if done[n] in letters && letters[done[n]].delivery.payload.Some?
      then before + [Effect(done[n], letters[done[n]].delivery.payload.value)] else before
  }

  /** The outcome of every redriven letter. */
  function OutcomesOf(letters: map<Key, Letter>, done: seq<Key>): map<Key, RedriveOutcome> {
    map k | k in letters && k in done :: OutcomeOf(letters[k])
  }

  lemma PartlyPlus(letters: map<Key, Letter>, done: seq<Key>, key: Key)
    requires key in letters && key !in done
    ensures var before, after := PartlyRedriven(letters, done), PartlyRedriven(letters, done + [key]);
            && key in before && before[key] == letters[key]
            && after == if letters[key].delivery.payload.Some? then before - {key} else before[key := Retried(letters[key])]
  {
    var before, after := PartlyRedriven(letters, done), PartlyRedriven(letters, done + [key]);
    var next := if letters[key].delivery.payload.Some? then before - {key} else before[key := Retried(letters[key])];
    forall k ensures k in after <==> k in next
      ensures k in after ==> after[k] == next[k] { assert k in done + [key] <==> k in done || k == key; }
  }

  lemma OutcomesPlus(letters: map<Key, Letter>, done: seq<Key>, key: Key)
    requires key in letters
    ensures OutcomesOf(letters, done + [key]) == OutcomesOf(letters, done)[key := OutcomeOf(letters[key])]
  {
    hide OutcomeOf;
    var after, next := OutcomesOf(letters, done + [key]), OutcomesOf(letters, done)[key := OutcomeOf(letters[key])];
    forall k ensures k in after <==> k in next
      ensures k in after ==> after[k] == next[k] { assert k in done + [key] <==> k in done || k == key; }
  }

  lemma EffectsOfPlus(letters: map<Key, Letter>, done: seq<Key>, key: Key)
    requires key in letters
    ensures RedrivenEffects(done + [key], letters) ==
            if letters[key].delivery.payload.Some?
            then RedrivenEffects(done, letters) + [Effect(key, letters[key].delivery.payload.value)]
            else RedrivenEffects(done, letters)
  {
    assert (done + [key])[..|done|] == done;
  }

  /** Where a redrive of everything stands after `done`. */
  ghost predicate Redriving(parked: map<Key, Letter>, added: seq<Effect>, outcomes: map<Key, RedriveOutcome>,
                            letters: map<Key, Letter>, done: seq<Key>) {
    && parked == PartlyRedriven(letters, done) && added == RedrivenEffects(done, letters)
    && outcomes == OutcomesOf(letters, done)
  }

  lemma RedriveStarts(letters: map<Key, Letter>)
    ensures Redriving(letters, [], map[], letters, [])
  {}

  /** One redrive of a parked key moves it on. */
  lemma RedriveNext(parked: map<Key, Letter>, added: seq<Effect>, outcomes: map<Key, RedriveOutcome>,
                    letters: map<Key, Letter>, done: seq<Key>, key: Key)
    requires Redriving(parked, added, outcomes, letters, done) && key in letters && key !in done
    ensures key in parked && parked[key] == letters[key]
    ensures var good := letters[key].delivery.payload.Some?;
            Redriving(if good then parked - {key} else parked[key := Retried(parked[key])],
                      if good then added + [Effect(key, letters[key].delivery.payload.value)] else added,
                      outcomes[key := if good then Redriven else FailedAgain], letters, done + [key])
  {
    hide PartlyRedriven, RedrivenEffects, OutcomesOf;
    PartlyPlus(letters, done, key);
    OutcomesPlus(letters, done, key);
    EffectsOfPlus(letters, done, key);
  }

  lemma RedriveEnds(parked: map<Key, Letter>, added: seq<Effect>, outcomes: map<Key, RedriveOutcome>,
                    letters: map<Key, Letter>, order: seq<Key>)
    requires Redriving(parked, added, outcomes, letters, order) && OldestFirst(order, letters)
    ensures parked == LeftParked(letters) && added == RedrivenEffects(order, letters)
    ensures outcomes == OutcomesOf(letters, order) && outcomes.Keys == letters.Keys
  {
    hide OutcomeOf, RedrivenEffects, Ascends;
  }

  lemma NextInOrder(letters: map<Key, Letter>, order: seq<Key>, i: nat)
    requires OldestFirst(order, letters) && i < |order|
    ensures order[i] in letters && order[i] !in order[..i] && order[..i + 1] == order[..i] + [order[i]]
  {
    assert order[i] in order;
  }

  class ProjectionStore {
    var tables: Tables
    var processed: set<Key>
    var lastId: int
    var deadLetters: map<Key, Letter>
    ghost var effects: seq<Effect>

    ghost predicate Valid()
      reads this
    {
      StoreInv(tables, processed, deadLetters, effects)
    }

    constructor ()
      ensures Valid() && lastId == 0 && processed == {} && effects == [] && deadLetters == map[]
    {
      tables, processed, lastId, deadLetters, effects := EMPTY_TABLES, {}, 0, map[], [];
    }

    /** Apply one delivery in one transaction: claim the key, change the tables, advance the
        offset. A duplicate only advances the offset; an invalid payload changes nothing. */
    method Apply(d: Delivery) returns (outcome: ApplyOutcome)
      requires Valid()
      modifies this
      ensures Valid() && deadLetters == old(deadLetters)
      ensures outcome == if d.eventId.None? || d.payload.None? then Invalid
                         else if ClaimOf(d) in old(processed) then Duplicate else Applied
      ensures outcome == Applied ==>
                effects == old(effects) + [Effect(ClaimOf(d), d.payload.value)] &&
                processed == old(processed) + {ClaimOf(d)} && tables == ApplyTables(old(tables), d.payload.value)
      ensures outcome != Applied ==> effects == old(effects) && processed == old(processed) && tables == old(tables)
      ensures lastId == if outcome == Invalid then old(lastId) else Max(old(lastId), d.logId)
    {
      hide StoreInv, ApplyTables;
      if d.eventId.None? || d.payload.None? {
        return Invalid;
      }
      var key := ClaimOf(d);
      if key in processed {
        lastId := Max(lastId, d.logId);
        return Duplicate;
      }
      ApplyKeeps(tables, processed, deadLetters, effects, Effect(key, d.payload.value));
      processed := processed + {key};
      tables := ApplyTables(tables, d.payload.value);
      effects := effects + [Effect(key, d.payload.value)];
      lastId := Max(lastId, d.logId);
      outcome := Applied;
    }

    /** Park a delivery and move past it; a processed key only advances the offset. */
    method DeadLetter(d: Delivery, attempts: int) returns (parked: bool)
      requires Valid() && attempts >= 1
      modifies this
      ensures Valid() && tables == old(tables) && effects == old(effects)
      ensures parked == (ClaimOf(d) !in old(processed))
      ensures deadLetters == if parked then old(deadLetters)[ClaimOf(d) := Letter(d, attempts)] else old(deadLetters)
      ensures processed == old(processed) + {ClaimOf(d)}
      ensures |deadLetters| == |old(deadLetters)| + (if parked then 1 else 0)
      ensures lastId == Max(old(lastId), d.logId)
    {
      hide StoreInv;
      var key := ClaimOf(d);
      parked := key !in processed;
      if parked {
        ParkKeeps(tables, processed, deadLetters, effects, Letter(d, attempts));
        deadLetters := deadLetters[key := Letter(d, attempts)];
        processed := processed + {key};
      }
      lastId := Max(lastId, d.logId);
    }

    /** Apply a parked event and remove its letter; the key stays processed. */
    method Redrive(key: Key) returns (outcome: RedriveOutcome)
      requires Valid()
      modifies this
      ensures Valid() && processed == old(processed) && lastId == old(lastId)
      ensures outcome == if key !in old(deadLetters) then NotFound
                         else if old(deadLetters[key]).delivery.payload.None? then FailedAgain else Redriven
      ensures outcome == NotFound ==> deadLetters == old(deadLetters)
      ensures outcome == FailedAgain ==>
                deadLetters == old(deadLetters)[key := old(deadLetters[key]).(attempts := old(deadLetters[key]).attempts + 1)]
      ensures outcome == Redriven ==>
                deadLetters == old(deadLetters) - {key} &&
                effects == old(effects) + [Effect(key, old(deadLetters[key]).delivery.payload.value)] &&
                tables == ApplyTables(old(tables), old(deadLetters[key]).delivery.payload.value)
      ensures outcome != Redriven ==> effects == old(effects) && tables == old(tables)
    {
      hide StoreInv, ApplyTables;
      if key !in deadLetters {
        return NotFound;
      }
      var letter := deadLetters[key];
      if letter.delivery.payload.None? {
        ReparkKeeps(tables, processed, deadLetters, effects, key);
        deadLetters := deadLetters[key := letter.(attempts := letter.attempts + 1)];
        return FailedAgain;
      }
      var e := letter.delivery.payload.value;
      RedriveKeeps(tables, processed, deadLetters, effects, Effect(key, e));
      tables := ApplyTables(tables, e);
      effects := effects + [Effect(key, e)];
      deadLetters := deadLetters - {key};
      outcome := Redriven;
    }

    /** The parked keys, oldest log id first. */
    method ParkedOldestFirst() returns (order: seq<Key>)
      ensures OldestFirst(order, deadLetters)
    {
      order := [];
      var rest := deadLetters.Keys;
      while rest != {}
        invariant rest <= deadLetters.Keys
        invariant forall k :: k in deadLetters <==> k in rest || k in order
        invariant forall k :: k in order ==> k !in rest
        invariant forall i, j :: 0 <= i < j < |order| ==> order[i] != order[j]
        invariant Ascends(order, deadLetters)
        invariant forall k, j :: k in order && j in rest ==>
                    k in deadLetters && deadLetters[k].delivery.logId <= deadLetters[j].delivery.logId
        decreases rest
      {
        OldestExists(rest, deadLetters);
        var key :| key in rest && forall j :: j in rest ==> deadLetters[key].delivery.logId <= deadLetters[j].delivery.logId;
        order := order + [key];
        rest := rest - {key};
      }
    }

    /** Redrive every parked event, oldest first: what validates takes effect in that order, what
        does not stays parked with one more attempt, and the outcomes say which is which. */
    method RedriveAll() returns (order: seq<Key>, outcomes: map<Key, RedriveOutcome>)
      requires Valid()
      modifies this
      ensures Valid() && processed == old(processed) && lastId == old(lastId)
      ensures OldestFirst(order, old(deadLetters))
      ensures outcomes == OutcomesOf(old(deadLetters), order) && outcomes.Keys == old(deadLetters.Keys)
      ensures deadLetters == LeftParked(old(deadLetters))
      ensures effects == old(effects) + RedrivenEffects(order, old(deadLetters))
    {
      hide StoreInv, ApplyTables, OldestFirst, Redriving, RedrivenEffects, LeftParked, OutcomesOf;
      order := ParkedOldestFirst();
      outcomes := map[];
      ghost var letters, added := deadLetters, [];
      RedriveStarts(letters);
      for i := 0 to |order|
        invariant Valid() && processed == old(processed) && lastId == old(lastId)
        invariant effects == old(effects) + added
        invariant Redriving(deadLetters, added, outcomes, letters, order[..i])
      {
        NextInOrder(letters, order, i);
        RedriveNext(deadLetters, added, outcomes, letters, order[..i], order[i]);
        var outcome := Redrive(order[i]);
        outcomes := outcomes[order[i] := outcome];
        if outcome == Redriven { added := added + [Effect(order[i], letters[order[i]].delivery.payload.value)]; }
      }
      assert order[..|order|] == order;
      RedriveEnds(deadLetters, added, outcomes, letters, order);
    }

    /** The polling loop: read a batch after the offset, apply it, until the feed is drained
        or an invalid entry raises. */
    method RunConsumer(feed: seq<Delivery>, batch: nat) returns (applied: nat, raised: bool)
      requires Valid() && batch > 0 && 0 <= lastId <= |feed| && Positioned(feed)
      requires forall i :: 0 <= i < lastId ==> ClaimOf(feed[i]) in processed
      modifies this
      ensures Valid() && deadLetters == old(deadLetters)
      ensures old(lastId) <= lastId <= |feed| && (raised || lastId == |feed|)
      ensures raised ==> lastId < |feed| && (feed[lastId].eventId.None? || feed[lastId].payload.None?)
      ensures forall i :: 0 <= i < lastId ==> ClaimOf(feed[i]) in processed
      ensures |effects| == old(|effects|) + applied
      ensures processed == old(processed) + Claims(feed[old(lastId)..lastId])
      ensures effects == old(effects) + FreshEffects(feed[old(lastId)..lastId], old(processed))
    {
      hide StoreInv, ApplyTables, FreshEffects, Claims;
      applied, raised := 0, false;
      ghost var start := lastId;
      NothingFresh(feed[start..start], processed);
      while true
        invariant Valid() && deadLetters == old(deadLetters)
        invariant start == old(lastId) <= lastId <= |feed| && |effects| == old(|effects|) + applied
        invariant processed == old(processed) + Claims(feed[start..lastId])
        invariant effects == old(effects) + FreshEffects(feed[start..lastId], old(processed))
        invariant forall i :: 0 <= i < lastId ==> ClaimOf(feed[i]) in processed
        decreases |feed| - lastId
      {
        var from := lastId;
        var to := if from + batch < |feed| then from + batch else |feed|;
        var events := feed[from..to];
        if events == [] {
          return;
        }
        for n := 0 to |events|
          invariant Valid() && deadLetters == old(deadLetters)
          invariant start <= from && lastId == from + n && |effects| == old(|effects|) + applied
          invariant processed == old(processed) + Claims(feed[start..lastId])
          invariant effects == old(effects) + FreshEffects(feed[start..lastId], old(processed))
          invariant forall i :: 0 <= i < lastId ==> ClaimOf(feed[i]) in processed
        {
          assert events[n] == feed[from + n];
          assert feed[start..from + n + 1] == feed[start..from + n] + [feed[from + n]];
          FreshPlus(feed[start..from + n], feed[from + n], old(processed));
          var outcome := Apply(events[n]);
          if outcome == Invalid {
            raised := true;
            return;
          }
          if outcome == Applied { applied := applied + 1; }
        }
      }
    }

    lemma ParkedAreProcessed()
      requires Valid()
      ensures deadLetters.Keys <= processed
    {}

    /** A balance row is the signed sum over the applied events of its account. */
    lemma BalanceIsAppliedSum(a: Account)
      requires Valid()
      ensures var own := OnAccount(EventsIn(effects), a);
              && (a in tables.balances <==> own != [])
              && (a in tables.balances ==> tables.balances[a] == BalanceRow(BalanceSum(own), HeldSum(own), |own|))
    {
      BalancesMean(EventsIn(effects), a);
    }

    /** Everything delivered and nothing parked: every balance row is the fold of its stream,
        whatever the order of delivery was. */
    lemma CompleteMeansFold(log: seq<Row>, a: Account)
      requires Valid() && deadLetters == map[] && DistinctKeys(LogEffects(log))
      requires forall i :: 0 <= i < |log| ==> EventKey(log[i].eventId) in processed
      requires forall x :: x in effects ==> x in LogEffects(log)
      requires FoldStream(log, a).Ok? && AllValid(EventsOf(log))
      ensures a in tables.balances <==> Stream(log, a) != []
      ensures a in tables.balances ==>
                var s := FoldStream(log, a).value;
                tables.balances[a] == BalanceRow(s.balance, s.held, s.version)
    {
      hide Project;
      AllTookEffect(log, effects);
      BalanceIsAppliedSum(a);
      SumsOfLog(log, effects, a);
      StreamSums(log, a);
    }
  }

  lemma ApplyKeeps(tables: Tables, processed: set<Key>, letters: map<Key, Letter>, effects: seq<Effect>, x: Effect)
    requires StoreInv(tables, processed, letters, effects) && x.key !in processed
    ensures StoreInv(ApplyTables(tables, x.event), processed + {x.key}, letters, effects + [x])
  {
    hide Project, ApplyTables, KeysIn, DistinctKeys, EventsIn;
    EffectsPlus(effects, x);
  }

  lemma RedriveKeeps(tables: Tables, processed: set<Key>, letters: map<Key, Letter>, effects: seq<Effect>, x: Effect)
    requires StoreInv(tables, processed, letters, effects) && x.key in letters
    ensures StoreInv(ApplyTables(tables, x.event), processed, letters - {x.key}, effects + [x])
  {
    hide Project, ApplyTables, KeysIn, DistinctKeys, EventsIn;
    EffectsPlus(effects, x);
  }

  lemma ReparkKeeps(tables: Tables, processed: set<Key>, letters: map<Key, Letter>, effects: seq<Effect>, key: Key)
    requires StoreInv(tables, processed, letters, effects) && key in letters
    ensures StoreInv(tables, processed, letters[key := letters[key].(attempts := letters[key].attempts + 1)], effects)
  {
    hide Project, KeysIn, DistinctKeys, EventsIn;
    var again := letters[key].(attempts := letters[key].attempts + 1);
    assert letters[key := again].Keys == letters.Keys;
  }

  lemma ParkKeeps(tables: Tables, processed: set<Key>, letters: map<Key, Letter>, effects: seq<Effect>, letter: Letter)
    requires StoreInv(tables, processed, letters, effects) && ClaimOf(letter.delivery) !in processed
    ensures var letters' := letters[ClaimOf(letter.delivery) := letter];
            StoreInv(tables, processed + {ClaimOf(letter.delivery)}, letters', effects) && |letters'| == |letters| + 1
  {
    hide Project, KeysIn, DistinctKeys, EventsIn;
    var key := ClaimOf(letter.delivery);
    assert letters[key := letter].Keys == letters.Keys + {key};
  }

  lemma EffectsPlus(effects: seq<Effect>, x: Effect)
    requires DistinctKeys(effects) && x.key !in KeysIn(effects)
    ensures DistinctKeys(effects + [x]) && KeysIn(effects + [x]) == KeysIn(effects) + {x.key}
    ensures Project(EventsIn(effects + [x])) == ApplyTables(Project(EventsIn(effects)), x.event)
  {
    hide ApplyTables;
    var all := effects + [x];
    assert EventsIn(all)[..|effects|] == EventsIn(effects);
    forall i | 0 <= i < |effects| ensures effects[i].key in KeysIn(effects) && effects[i].key in KeysIn(all) {
      assert all[i] == effects[i];
    }
    assert all[|effects|] == x;
    assert KeysIn(all) == KeysIn(effects) + {x.key};
  }

  // ------------------------------------------------------- order independence

  /** The log as the effects it should have, each row once. */
  function LogEffects(log: seq<Row>): (r: seq<Effect>)
    ensures |r| == |log| && forall i :: 0 <= i < |log| ==> r[i] == Effect(EventKey(log[i].eventId), log[i].event)
  {
    seq(|log|, i requires 0 <= i < |log| => Effect(EventKey(log[i].eventId), log[i].event))
  }

  /** Exactly the rows of the log took effect, in some order. */
  ghost predicate LogOf(log: seq<Row>, effects: seq<Effect>) {
    DistinctKeys(LogEffects(log)) && forall x :: x in effects <==> x in LogEffects(log)
  }

  /** Applied effects all come from the log and none is missing: they are the log. */
  lemma AllTookEffect(log: seq<Row>, effects: seq<Effect>)
    requires DistinctKeys(LogEffects(log))
    requires forall x :: x in effects ==> x in LogEffects(log)
    requires forall i :: 0 <= i < |log| ==> EventKey(log[i].eventId) in KeysIn(effects)
    ensures LogOf(log, effects)
  {
    var all := LogEffects(log);
    forall y | y in all ensures y in effects {
      var j :| 0 <= j < |all| && all[j] == y;
      assert EventKey(log[j].eventId) in KeysIn(effects);
      var i :| 0 <= i < |effects| && effects[i].key == y.key;
      assert effects[i] in all;
      var k :| 0 <= k < |all| && all[k] == effects[i];
      assert j == k;
    }
  }

  function BalanceOn(effects: seq<Effect>, a: Account): int {
    if effects == [] then 0
    else
      var x := effects[|effects| - 1];
      BalanceOn(effects[..|effects| - 1], a) + (if x.event.account == a then BalanceDelta(x.event) else 0)
  }

  function HeldOn(effects: seq<Effect>, a: Account): int {
    if effects == [] then 0
    else
      var x := effects[|effects| - 1];
      HeldOn(effects[..|effects| - 1], a) + (if x.event.account == a then HeldDelta(x.event) else 0)
  }

  function CountOn(effects: seq<Effect>, a: Account): int {
    if effects == [] then 0
    else
      var x := effects[|effects| - 1];
      CountOn(effects[..|effects| - 1], a) + (if x.event.account == a then 1 else 0)
  }

  lemma {:induction false} SumsOn(effects: seq<Effect>, a: Account)
    ensures var own := OnAccount(EventsIn(effects), a);
            BalanceOn(effects, a) == BalanceSum(own) && HeldOn(effects, a) == HeldSum(own) && CountOn(effects, a) == |own|
  {
    if effects != [] {
      var n := |effects| - 1;
      SumsOn(effects[..n], a);
      assert EventsIn(effects)[..n] == EventsIn(effects[..n]);
      var e := effects[n].event;
      if e.account == a { SumsPlus(OnAccount(EventsIn(effects[..n]), a), e); }
    }
  }

  /** Taking one effect out of the middle takes its share out of every sum. */
  lemma {:induction false} SumsWithout(effects: seq<Effect>, i: nat, a: Account)
    requires i < |effects|
    ensures var rest := effects[..i] + effects[i + 1..];
            var e := effects[i].event;
            && BalanceOn(effects, a) == BalanceOn(rest, a) + (if e.account == a then BalanceDelta(e) else 0)
            && HeldOn(effects, a) == HeldOn(rest, a) + (if e.account == a then HeldDelta(e) else 0)
            && CountOn(effects, a) == CountOn(rest, a) + (if e.account == a then 1 else 0)
  {
    var n := |effects| - 1;
    var rest := effects[..i] + effects[i + 1..];
    if i == n {
      assert rest == effects[..n];
    } else {
      SumsWithout(effects[..n], i, a);
      assert rest[..|rest| - 1] == effects[..n][..i] + effects[..n][i + 1..];
      assert rest[|rest| - 1] == effects[n];
    }
  }

  /** Two orders of the same effects have the same sums. */
  lemma {:induction false} OrderDoesNotMatter(s: seq<Effect>, t: seq<Effect>, a: Account)
    requires DistinctKeys(s) && DistinctKeys(t) && forall x :: x in s <==> x in t
    ensures BalanceOn(s, a) == BalanceOn(t, a) && HeldOn(s, a) == HeldOn(t, a) && CountOn(s, a) == CountOn(t, a)
    decreases |s|
  {
    if s == [] {
      if t != [] { HasMember(t); assert false; }
    } else {
      var n := |s| - 1;
      var x := s[n];
      assert x in t;
      var i :| 0 <= i < |t| && t[i] == x;
      var rest := Without(s, t, i);
      SumsWithout(t, i, a);
      OrderDoesNotMatter(s[..n], rest, a);
    }
  }

  lemma HasMember(t: seq<Effect>)
    requires t != []
    ensures exists x :: x in t
  {
    assert t[0] in t;
  }

  lemma Without(s: seq<Effect>, t: seq<Effect>, i: nat) returns (rest: seq<Effect>)
    requires DistinctKeys(s) && DistinctKeys(t) && s != [] && i < |t| && t[i] == s[|s| - 1]
    requires forall x :: x in s <==> x in t
    ensures rest == t[..i] + t[i + 1..] && DistinctKeys(rest)
    ensures forall x :: x in s[..|s| - 1] <==> x in rest
  {
    rest := t[..i] + t[i + 1..];
    var n := |s| - 1;
    forall x | x in s[..n] ensures x in rest {
      var k :| 0 <= k < n && s[k] == x;
      assert x in t;
      var j :| 0 <= j < |t| && t[j] == x;
      assert s[k].key != s[n].key;
      assert rest[if j < i then j else j - 1] == x;
    }
    forall x | x in rest ensures x in s[..n] {
      var j :| 0 <= j < |rest| && rest[j] == x;
      var j' := if j < i then j else j + 1;
      assert t[j'] == x && t[j'].key != t[i].key;
      assert x in s;
      var k :| 0 <= k < |s| && s[k] == x;
      assert s[..n][k] == x;
    }
  }

  lemma SumsOfLog(log: seq<Row>, effects: seq<Effect>, a: Account)
    requires LogOf(log, effects) && DistinctKeys(effects)
    ensures var own := OnAccount(EventsIn(effects), a);
            BalanceSum(own) == BalanceSum(Stream(log, a)) && HeldSum(own) == HeldSum(Stream(log, a)) && |own| == |Stream(log, a)|
  {
    var all := LogEffects(log);
    SumsOn(effects, a);
    SumsOn(all, a);
    OrderDoesNotMatter(effects, all, a);
    assert EventsIn(all) == EventsOf(log);
  }

  lemma StreamSums(log: seq<Row>, a: Account)
    requires FoldStream(log, a).Ok? && AllValid(EventsOf(log))
    ensures var s := FoldStream(log, a).value;
            s.balance == BalanceSum(Stream(log, a)) && s.held == HeldSum(Stream(log, a)) && s.version == |Stream(log, a)|
  {
    var es := EventsOf(log);
    InOnAccount(es, a);
    var own := OnAccount(es, a);
    forall i | 0 <= i < |own| ensures ValidEvent(own[i]) { assert own[i] in es; }
    FoldIsSums(own, a);
  }
}
