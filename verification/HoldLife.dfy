/** What accepted commands do to holds and reversals: placed, settled, voided, expired, reverted. */
module HoldLife {
  import opened Events
  import opened Accounts
  import opened Views
  import opened Commands
  import opened Execution
  import opened Numbering
  import opened Soundness
  import opened Runs
  import opened Projection
  import opened Rebuild
  import opened Effects
  import L = Ledger
  import B = Batches

  /** The accepted decision's events, as each stream sees them. */
  lemma AcceptedStreams(db: Db, q: Request) returns (r: Reads, events: seq<Event>)
    requires DbInv(db) && ValidCommand(q.command)
    requires Execute(db, q).1.Decided? && Execute(db, q).1.stored.outcome.Accepted?
    ensures q.id !in db.results && ExactReads(EventsOf(db.log), q.command, r)
    ensures DecideEvents(q.command, q.id, q.now, r) == Ok(events)
    ensures forall a :: Stream(Execute(db, q).0.log, a) == Stream(db.log, a) + OnAccount(events, a)
  {
    hide Execute, Decide, DecideEvents, DbInv, OnAccount, IsNumbering, KeysAscend, Stamp, ExactReads;
    var legs;
    r, legs := AcceptedBatch(db, q);
    ExactIsSufficient(EventsOf(db.log), q.command, r);
    DecideNumbers(q.command, q.id, q.now, r, legs);
    events := DecideEvents(q.command, q.id, q.now, r).value;
    forall a ensures Stream(Execute(db, q).0.log, a) == Stream(db.log, a) + OnAccount(events, a) {
      NumberedStream(r.states, events, legs, a);
      StreamAfter(db.log, Stamp(legs, q.firstEventId), a);
    }
  }

  /** A placed hold is open with the command's terms, under the command's id. */
  lemma HoldOpens(db: Db, q: Request)
    requires DbInv(db) && ValidCommand(q.command) && q.command.Hold?
    requires Execute(db, q).1.Decided? && Execute(db, q).1.stored.outcome.Accepted?
    ensures var c := q.command;
            OpenHoldOf(q.id, Stream(Execute(db, q).0.log, c.account)) == Some(OpenHold(q.id, c.amount, c.target, q.now + c.ttlSeconds))
  {
    hide Execute, L.Inv, Contiguous, OnAccount, Fold, ValidCommand, DecideEvents, StatusOf;
    var c := q.command;
    var r, events := AcceptedStreams(db, q);
    var e := HoldPlaced(c.account, c.amount, q.id, c.target, q.now + c.ttlSeconds);
    PlacedEvent(c, q.id, q.now, r);
    B.OnAccountSingle(e, c.account);
    var s := Stream(db.log, c.account);
    B.StatusAfter(q.id, s, e);
    NewIdUnseen(db, q.id, c.account);
  }

  lemma PlacedEvent(c: Command, id: Id, now: int, r: Reads)
    requires c.Hold? && Sufficient(c, r) && DecideEvents(c, id, now, r).Ok?
    ensures DecideEvents(c, id, now, r).value == [HoldPlaced(c.account, c.amount, id, c.target, now + c.ttlSeconds)]
  {}

  lemma NewIdUnseen(db: Db, id: Id, a: Account)
    requires DbInv(db) && id !in db.results
    ensures StatusOf(id, Stream(db.log, a)) == Unseen
  {
    hide Contiguous, StatusOf, OnAccount;
    UnusedId(EventsOf(db.log), db.results.Keys, id);
    L.UnusedOnStream(EventsOf(db.log), id, a);
  }

  lemma ClosedPlus(s: seq<Event>, e: Event, h: Id)
    ensures ClosedAs(s + [e], h) ==
              if !Closes(e, h) then ClosedAs(s, h)
              else if e.HoldPosted? then PostedState else if e.reason == Voided then VoidedState else ExpiredState
    ensures Closes(e, h) || StatusOf(h, s).Closed? ==> StatusOf(h, s + [e]).Closed?
  {
    assert (s + [e])[..|s|] == s;
  }

  lemma CapturedClosed(s: seq<Event>, a: Account, hold: OpenHold, amount: int)
    ensures ClosedAs(s + L.CaptureSource(a, hold, amount), hold.holdId) == PostedState
    ensures StatusOf(hold.holdId, s + L.CaptureSource(a, hold, amount)).Closed?
  {
    hide ClosedAs, StatusOf;
    var posted := HoldPosted(a, amount, hold.holdId, hold.counterparty);
    var released := HoldReleased(a, hold.amount - amount, hold.holdId, Partial);
    ClosedPlus(s, posted, hold.holdId);
    ClosedPlus(s + [posted], released, hold.holdId);
    assert s + [posted, released] == s + [posted] + [released];
  }

  /** A settled, voided or expired hold is closed for good, in the way the command says. */
  lemma HoldCloses(db: Db, q: Request)
    requires DbInv(db) && ValidCommand(q.command) && HoldIdOf(q.command).Some?
    requires Execute(db, q).1.Decided? && Execute(db, q).1.stored.outcome.Accepted?
    ensures var s := Stream(Execute(db, q).0.log, q.command.account);
            && OpenHoldOf(q.command.holdId, s) == None && StatusOf(q.command.holdId, s).Closed?
            && ClosedAs(s, q.command.holdId) ==
               (if q.command.PostHold? then PostedState else if q.command.VoidHold? then VoidedState else ExpiredState)
    ensures forall later :: StatusOf(q.command.holdId, Stream(RunFrom(Execute(db, q).0, later).log, q.command.account)).Closed?
  {
    hide Execute, L.Inv, Contiguous, OnAccount, Fold, ValidCommand, ClosedAs, StatusOf, CaptureEvents, DecideEvents;
    var c := q.command;
    var r, events := AcceptedStreams(db, q);
    var s := Stream(db.log, c.account);
    if c.PostHold? {
      OpenedFor(db, c, q.id, q.now, r);
      var amount := CaptureAccepted(c, q.id, q.now, r);
      CaptureStreams(c.account, r.hold.value, amount, events);
      CapturedClosed(s, c.account, r.hold.value, amount);
    } else {
      var e := ReleaseEvent(c, q.id, q.now, r);
      B.OnAccountSingle(e, c.account);
      ClosedPlus(s, e, c.holdId);
    }
    NotOpen(c.holdId, Stream(Execute(db, q).0.log, c.account));
    forall later ensures StatusOf(c.holdId, Stream(RunFrom(Execute(db, q).0, later).log, c.account)).Closed? {
      StaysClosed(Execute(db, q).0, later, c.account, c.holdId);
    }
  }

  lemma NotOpen(h: Id, s: seq<Event>)
    requires StatusOf(h, s).Closed?
    ensures OpenHoldOf(h, s) == None
  {}

  /** The database after more requests, whatever they are. */
  function RunFrom(db: Db, later: seq<Request>): Db {
    if later == [] then db else Execute(RunFrom(db, later[..|later| - 1]), later[|later| - 1]).0
  }

  /** A request only ever appends to the log. */
  lemma OnlyAppends(db: Db, q: Request) returns (rows: seq<Row>)
    ensures Execute(db, q).0.log == db.log + rows
  {
    hide DecideOn, FoldStream, Stamp, AcceptedResult;
    if Execute(db, q).0.log == db.log {
      rows := [];
      assert db.log + rows == db.log;
    } else {
      rows := Stamp(DecideOn(db.log, q.command, q.id, q.now, FoldStream(db.log, q.command.account).value).value, q.firstEventId);
    }
  }

  /** A closed hold stays closed under every later request. */
  lemma {:induction false} StaysClosed(db: Db, later: seq<Request>, a: Account, h: Id)
    requires StatusOf(h, Stream(db.log, a)).Closed?
    ensures StatusOf(h, Stream(RunFrom(db, later).log, a)).Closed?
  {
    hide Execute, StatusOf, Stream;
    if later != [] {
      var n := |later| - 1;
      StaysClosed(db, later[..n], a, h);
      var mid := RunFrom(db, later[..n]);
      var rows := OnlyAppends(mid, later[n]);
      StreamAfter(mid.log, rows, a);
      var s, all := Stream(mid.log, a), Stream(mid.log + rows, a);
      assert all[..|s|] == s;
      ClosedForGood(h, all, |s|);
    }
  }

  lemma OpenedFor(db: Db, c: Command, id: Id, now: int, r: Reads)
    requires DbInv(db) && c.PostHold? && ExactReads(EventsOf(db.log), c, r) && DecideEvents(c, id, now, r).Ok?
    ensures r.hold.Some? && r.hold.value.holdId == c.holdId && r.hold.value.counterparty != c.account
  {
    hide L.Inv, Contiguous, OnAccount, OpenHoldOf, Fold;
    OpenHoldPlaced(EventsOf(db.log), db.results.Keys, c.account, c.holdId);
  }

  lemma ReleaseEvent(c: Command, id: Id, now: int, r: Reads) returns (e: Event)
    requires (c.VoidHold? || c.ExpireHold?) && Sufficient(c, r) && DecideEvents(c, id, now, r).Ok?
    ensures DecideEvents(c, id, now, r).value == [e] && e.HoldReleased? && e.account == c.account && e.holdId == c.holdId
    ensures e.reason == if c.VoidHold? then Voided else Expired
  {
    e := DecideEvents(c, id, now, r).value[0];
  }

  /** A reverted set is named by the revert, and nothing else about the set changes. */
  lemma RevertIsRecorded(db: Db, q: Request)
    requires DbInv(db) && ValidCommand(q.command) && q.command.Revert?
    requires Execute(db, q).1.Decided? && Execute(db, q).1.stored.outcome.Accepted?
    ensures RevertedBy(EventsOf(db.log), q.command.transferId) == None
    ensures RevertedBy(EventsOf(Execute(db, q).0.log), q.command.transferId) == Some(q.id)
  {
    hide Execute, L.Inv, Contiguous, OnAccount, Fold, ValidCommand, RevertedBy, MovementLegs, OnSet, MirrorLegs,
      Decide, DecideEvents, Stamp;
    var r, legs := AcceptedBatch(db, q);
    ExactIsSufficient(EventsOf(db.log), q.command, r);
    DecideNumbers(q.command, q.id, q.now, r, legs);
    var es, ids, t := EventsOf(db.log), db.results.Keys, q.command.transferId;
    RevertReads(es, ids, q.command, q.id, q.now, r);
    MirrorShape(r.states, Movements(es, t), q.id, t);
    var events := DecideEvents(q.command, q.id, q.now, r).value;
    SameMembers(EventsOfLegs(legs), events);
    NamesTheSet(EventsOfLegs(legs), events, Movements(es, t), q.id, t);
    EventsConcat(db.log, Stamp(legs, q.firstEventId));
    RevertedByConcat(es, EventsOfLegs(legs), t);
  }

  lemma NamesTheSet(b: seq<Event>, events: seq<Event>, legs: seq<Event>, r: Id, t: Id)
    requires AllMovement(legs) && legs != [] && |events| == |legs| && (forall e :: e in b <==> e in events)
    requires forall i :: 0 <= i < |legs| ==> events[i] == MirrorEvent(legs[i], r, t)
    ensures RevertedBy(b, t) == Some(r)
  {
    RevertedByReads(b, t);
    forall i | 0 <= i < |b| ensures RevertsColumn(b[i]) == Some(t) && SetId(b[i]) == Some(r) { assert b[i] in events; }
    assert events[0] in b;
  }
}
