/** From the log to the read models: a drained feed with duplicates leaves every table, not only
    the balances, as the log says. */
module Consumption {
  import opened Events
  import opened Accounts
  import opened Views
  import opened Execution
  import opened Runs
  import opened Projection
  import opened Rebuild
  import opened Republish
  import opened ReadModels
  import opened Resilience

  /** The arrivals as deliveries of a positioned feed. */
  function Delivered(arrivals: seq<Row>): (ds: seq<Delivery>)
    ensures |ds| == |arrivals|
    ensures forall i :: 0 <= i < |ds| ==> ds[i] == Delivery(Some(arrivals[i].eventId), i + 1, Some(arrivals[i].event))
  {
    seq(|arrivals|, i requires 0 <= i < |arrivals| => Delivery(Some(arrivals[i].eventId), i + 1, Some(arrivals[i].event)))
  }

  /** The arrivals without redeliveries. */
  function FirstArrivals(arrivals: seq<Row>): seq<Row> {
    if arrivals == [] then []
    else
      var n := |arrivals| - 1;
      var before := FirstArrivals(arrivals[..n]);
      if Arrived(arrivals[..n], arrivals[n].eventId) then before else before + [arrivals[n]]
  }

  predicate Arrived(arrivals: seq<Row>, id: Id) {
    exists i :: 0 <= i < |arrivals| && arrivals[i].eventId == id
  }

  /** What the deliveries add to an empty store is each row once, at its first arrival. */
  lemma {:induction false} FreshAreFirst(arrivals: seq<Row>)
    ensures FreshEffects(Delivered(arrivals), {}) == LogEffects(FirstArrivals(arrivals))
  {
    hide FreshEffects, Claims, Arrived;
    var ds := Delivered(arrivals);
    if arrivals == [] {
      NothingFresh(ds, {});
    } else {
      var n := |arrivals| - 1;
      var before, last := arrivals[..n], arrivals[n];
      FreshAreFirst(before);
      assert ds == Delivered(before) + [ds[n]];
      FreshPlus(Delivered(before), ds[n], {});
      ClaimedEarlier(before, last.eventId);
      var first := FirstArrivals(before);
      assert LogEffects(first + [last]) == LogEffects(first) + [Effect(EventKey(last.eventId), last.event)];
    }
  }

  lemma ClaimedEarlier(arrivals: seq<Row>, id: Id)
    ensures EventKey(id) in Claims(Delivered(arrivals)) <==> Arrived(arrivals, id)
  {
    var ds := Delivered(arrivals);
    forall i | 0 <= i < |arrivals| ensures ClaimOf(ds[i]) == EventKey(arrivals[i].eventId) {}
    if i :| 0 <= i < |arrivals| && arrivals[i].eventId == id {
      assert ClaimOf(ds[i]) in Claims(ds);
    }
  }

  /** The arrivals are the rows of the log, each at least once, and apart from redeliveries each
      stream in its order. */
  ghost predicate Arrives(arrivals: seq<Row>, log: seq<Row>) {
    InStreamOrder(FirstArrivals(arrivals)) && forall row :: row in FirstArrivals(arrivals) <==> row in log
  }

  lemma EffectsAreEvents(rows: seq<Row>)
    ensures EventsIn(LogEffects(rows)) == EventsOf(rows)
  {}

  /** A store that has taken exactly the fresh effects of such a feed holds the tables of the log. */
  lemma DrainedMatchesTheLog(qs: seq<Request>, arrivals: seq<Row>, tables: Tables, processed: set<Key>,
                             letters: map<Key, Letter>, effects: seq<Effect>)
    requires ValidRun(qs) && Arrives(arrivals, Run(qs).log)
    requires StoreInv(tables, processed, letters, effects) && effects == FreshEffects(Delivered(arrivals), {})
    ensures tables == Project(EventsOf(Run(qs).log))
  {
    RunKeeps(qs);
    hide Run, Project, Delivers, InStreamOrder, FirstArrivals, FreshEffects, KeysIn, DistinctKeys;
    FreshAreFirst(arrivals);
    var first := FirstArrivals(arrivals);
    EffectsAreEvents(first);
    FeedDelivers(Run(qs).log, first);
    RebuildMatchesTheLog(qs, EventsOf(first), 0, 0, 0);
  }

  /** Consuming from scratch rebuilds every table of the log, however often rows are delivered. */
  method ConsumeAll(arrivals: seq<Row>, batch: nat, ghost qs: seq<Request>) returns (store: ProjectionStore)
    requires batch > 0 && ValidRun(qs) && Arrives(arrivals, Run(qs).log)
    ensures fresh(store) && store.Valid() && store.deadLetters == map[]
    ensures store.tables == Project(EventsOf(Run(qs).log))
  {
    hide Run, Project, Arrives, FreshEffects, Claims, StoreInv;
    store := new ProjectionStore();
    var feed := Delivered(arrivals);
    var applied, raised := store.RunConsumer(feed, batch);
    assert feed[0..|feed|] == feed;
    DrainedMatchesTheLog(qs, arrivals, store.tables, store.processed, store.deadLetters, store.effects);
  }

  /** The same through retries, lost answers and circuit breaks: a resilient run that drains the
      feed into an empty store and parks nothing leaves every table as the log says. */
  method ConsumeResiliently(consumer: ResilientConsumer, arrivals: seq<Row>, ghost qs: seq<Request>) returns (rep: Report)
    requires consumer.Valid() && consumer.store.lastId == 0 && consumer.store.processed == {} && consumer.store.effects == []
    requires ValidRun(qs) && Arrives(arrivals, Run(qs).log)
    modifies consumer.store, consumer.breaker, consumer.world
    ensures consumer.Valid()
    ensures !rep.halted && !rep.raised && rep.deadLettered == 0 ==> consumer.store.tables == Project(EventsOf(Run(qs).log))
  {
    hide Run, Project, Arrives, FreshEffects, Claims, StoreInv, CircuitBreaker.Valid;
    var feed := Delivered(arrivals);
    rep := consumer.Run(feed);
    assert feed[0..|feed|] == feed;
    if !rep.halted && !rep.raised && rep.deadLettered == 0 {
      var s := consumer.store;
      assert s.effects == FreshEffects(feed, {});
      DrainedMatchesTheLog(qs, arrivals, s.tables, s.processed, s.deadLetters, s.effects);
    }
  }
}
