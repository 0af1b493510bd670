/** What an accepted command writes, row by row and field by field, on every account. */
module NewRows {
  import opened Events
  import opened Accounts
  import opened Views
  import opened Commands
  import opened Execution
  import opened Numbering
  import opened Soundness
  import opened Runs
  import opened LedgerTheorems
  import opened Aborts
  import opened Effects
  import opened HoldLife
  import opened Optimistic
  import opened Interleaving
  import opened Serializability
  import L = Ledger
  import B = Batches

  // ------------------------------------------------------------------ the rows

  /** The account a posting leg's row has to name: the other of two, the payer, or for the payer
      the first of its largest payees. */
  ghost predicate Names(legs: seq<Leg>, anchor: Account, i: nat, named: Account)
    requires i < |legs|
  {
    if |legs| == 2 then named == legs[1 - i].account
    else if legs[i].account != anchor then named == anchor
    else exists j :: 0 <= j < |legs| && legs[j].account == named && legs[j].direction == Credit &&
                     forall k :: 0 <= k < |legs| && legs[k].direction == Credit ==>
                       legs[k].amount <= legs[j].amount && (legs[k].amount == legs[j].amount ==> j <= k)
  }

  /** The row of one posting leg. */
  ghost predicate PostsLeg(e: Event, legs: seq<Leg>, anchor: Account, i: nat, id: Id)
    requires i < |legs|
  {
    && (if legs[i].direction == Debit then e.TransferDebited? else e.TransferCredited?)
    && e.account == legs[i].account && e.amount == legs[i].amount && e.transferId == id
    && Names(legs, anchor, i, e.counterparty)
  }

  /** The row of a reversal for one leg of the set it reverts: same account, amount and
      counterparty, the other direction, and the two ids. */
  ghost predicate TurnsAround(e: Event, leg: Event, r: Id, t: Id) {
    && IsMovement(leg)
    && (if leg.TransferCredited? || leg.ReversalCredited? then e.ReversalDebited? else e.ReversalCredited?)
    && e.account == leg.account && e.amount == leg.amount && e.counterparty == leg.counterparty
    && e.transferId == r && e.reverts == t
  }

  /** The rows a command writes on account `a`, given the log it was decided on. */
  ghost predicate WritesRows(log: seq<Row>, q: Request, a: Account, rows: seq<Event>) {
    match q.command
    case Deposit(x, amount, _) => rows == if a == x then [Deposited(x, amount)] else []
    case Withdraw(x, amount, _) => rows == if a == x then [Withdrawn(x, amount)] else []
    case Transfer(x, y, amount, _) =>
      rows == if a == x then [TransferDebited(x, amount, q.id, y)]
              else if a == y then [TransferCredited(y, amount, q.id, x)] else []
    case Post(x, legs, _) =>
      || (rows == [] && forall i :: 0 <= i < |legs| ==> legs[i].account != a)
      || (|rows| == 1 && exists i :: 0 <= i < |legs| && legs[i].account == a && PostsLeg(rows[0], legs, x, i, q.id))
    case Hold(x, y, amount, _, ttl) => rows == if a == x then [HoldPlaced(x, amount, q.id, y, q.now + ttl)] else []
    case PostHold(x, h, _, capture) =>
      var hold := OpenHoldOf(h, Stream(log, x));
      hold.Some? &&
      var amount := if capture.Some? then capture.value else hold.value.amount;
      rows == if a == x then
                if amount < hold.value.amount
                then [HoldPosted(x, amount, h, hold.value.counterparty), HoldReleased(x, hold.value.amount - amount, h, Partial)]
                else [HoldPosted(x, amount, h, hold.value.counterparty)]
              else if a == hold.value.counterparty then [TransferCredited(a, amount, h, x)] else []
    case VoidHold(x, h, _) =>
      var hold := OpenHoldOf(h, Stream(log, x));
      hold.Some? && rows == if a == x then [HoldReleased(x, hold.value.amount, h, Voided)] else []
    case ExpireHold(x, h, _) =>
      var hold := OpenHoldOf(h, Stream(log, x));
      hold.Some? && rows == if a == x then [HoldReleased(x, hold.value.amount, h, Expired)] else []
    case Revert(_, t, _) =>
      var legs := OnAccount(Movements(EventsOf(log), t), a);
      |rows| == |legs| && forall i :: 0 <= i < |legs| ==> TurnsAround(rows[i], legs[i], q.id, t)
  }

  // ---------------------------------------------------------------- by command

  lemma SingleRows(c: Command, id: Id, now: int, r: Reads, a: Account)
    requires Sufficient(c, r) && DecideEvents(c, id, now, r).Ok?
    requires c.Deposit? || c.Withdraw? || c.Hold? || c.VoidHold? || c.ExpireHold?
    ensures c.VoidHold? || c.ExpireHold? ==> r.hold.Some?
    ensures var e := if c.Deposit? then Deposited(c.account, c.amount)
                     else if c.Withdraw? then Withdrawn(c.account, c.amount)
                     else if c.Hold? then HoldPlaced(c.account, c.amount, id, c.target, now + c.ttlSeconds)
                     else HoldReleased(c.account, r.hold.value.amount, c.holdId, if c.VoidHold? then Voided else Expired);
            OnAccount(DecideEvents(c, id, now, r).value, a) == if a == c.account then [e] else []
  {
    hide OnAccount;
    var e := DecideEvents(c, id, now, r).value[0];
    B.OnAccountSingle(e, a);
  }

  lemma CaptureRowsOn(x: Account, hold: OpenHold, amount: int, a: Account)
    requires hold.counterparty != x
    ensures OnAccount(CaptureEvents(x, hold, amount), a) ==
              if a == x then
                if amount < hold.amount
                then [HoldPosted(x, amount, hold.holdId, hold.counterparty),
                      HoldReleased(x, hold.amount - amount, hold.holdId, Partial)]
                else [HoldPosted(x, amount, hold.holdId, hold.counterparty)]
              else if a == hold.counterparty then [TransferCredited(a, amount, hold.holdId, x)] else []
  {
    hide OnAccount, CaptureEvents;
    var events := CaptureEvents(x, hold, amount);
    CaptureStreams(x, hold, amount, events);
    if a != x && a != hold.counterparty { B.NoneOn(events, a); }
  }

  /** The one row of a posting set on an account, or none. */
  lemma PostingRowsOn(legs: seq<Leg>, anchor: Account, id: Id, events: seq<Event>, a: Account)
    requires ValidPostings(anchor, legs) && PostingEvents(legs, anchor, id, |legs|) == Ok(events)
    ensures var rows := OnAccount(events, a);
            || (rows == [] && forall i :: 0 <= i < |legs| ==> legs[i].account != a)
            || (|rows| == 1 && exists i :: 0 <= i < |legs| && legs[i].account == a && PostsLeg(rows[0], legs, anchor, i, id))
  {
    hide OnAccount, SideTotal, PostingEvents;
    PostingEventsShape(legs, anchor, id, |legs|);
    assert Distinct(events);
    OneEach(events, a);
    var rows := OnAccount(events, a);
    if rows == [] {
      forall i | 0 <= i < |legs| ensures legs[i].account != a { if legs[i].account == a { InStream(events, events[i]); } }
    } else {
      var i :| 0 <= i < |events| && events[i].account == a && rows == [events[i]];
      LegPosted(legs, anchor, id, i);
    }
  }

  lemma LegPosted(legs: seq<Leg>, anchor: Account, id: Id, i: nat)
    requires ValidPostings(anchor, legs) && i < |legs| && PostingEvents(legs, anchor, id, |legs|).Ok?
    ensures i < |PostingEvents(legs, anchor, id, |legs|).value|
    ensures PostsLeg(PostingEvents(legs, anchor, id, |legs|).value[i], legs, anchor, i, id)
  {
    hide SideTotal;
    PostingKind(legs, anchor, id, |legs|, i);
    CounterpartyMeans(legs, anchor, i);
    var named := CounterpartyFor(legs, anchor, i).value;
    if |legs| > 2 && legs[i].account == anchor {
      var j :| 0 <= j < |legs| && j != i && legs[j].account == named;
      SomeCredit(legs);
      assert legs[j].direction == Credit;
    }
  }

  lemma {:induction false} PostingKind(legs: seq<Leg>, anchor: Account, id: Id, k: nat, i: nat)
    requires i < k <= |legs| && PostingEvents(legs, anchor, id, k).Ok?
    ensures var events := PostingEvents(legs, anchor, id, k).value;
            && |events| == k
            && (if legs[i].direction == Debit then events[i].TransferDebited? else events[i].TransferCredited?)
            && events[i].account == legs[i].account && events[i].amount == legs[i].amount && events[i].transferId == id
            && Some(events[i].counterparty) == CounterpartyFor(legs, anchor, i)
  {
    hide CounterpartyFor;
    PostingEventsShape(legs, anchor, id, k);
    PostingEventsShape(legs, anchor, id, k - 1);
    if i < k - 1 { PostingKind(legs, anchor, id, k - 1, i); }
  }

  lemma TransferRowsOn(c: Command, id: Id, events: seq<Event>, a: Account)
    requires c.Transfer? && ValidCommand(c) && PostingEvents(LegsOf(c), c.account, id, 2) == Ok(events)
    ensures OnAccount(events, a) ==
              if a == c.account then [TransferDebited(c.account, c.amount, id, c.target)]
              else if a == c.target then [TransferCredited(c.target, c.amount, id, c.account)] else []
  {
    hide OnAccount;
    var legs := LegsOf(c);
    PostingKind(legs, c.account, id, 2, 0);
    PostingKind(legs, c.account, id, 2, 1);
    assert CounterpartyFor(legs, c.account, 0) == Some(c.target) && CounterpartyFor(legs, c.account, 1) == Some(c.account);
    var debited, credited := TransferDebited(c.account, c.amount, id, c.target), TransferCredited(c.target, c.amount, id, c.account);
    assert events == [debited] + [credited];
    B.OnAccountSingle(debited, a);
    B.StreamPlus([debited], credited, a);
    assert [] + [credited] == [credited];
  }

  lemma MirrorTurns(leg: Event, r: Id, t: Id)
    requires IsMovement(leg)
    ensures TurnsAround(MirrorEvent(leg, r, t), leg, r, t)
  {}

  /** Mirroring a set turns its legs around on every account. */
  lemma {:induction false} MirrorsOn(legs: seq<Event>, r: Id, t: Id, a: Account)
    requires AllMovement(legs)
    ensures var rows, own := OnAccount(L.Mirrored(legs, r, t), a), OnAccount(legs, a);
            |rows| == |own| && forall i :: 0 <= i < |own| ==> TurnsAround(rows[i], own[i], r, t)
  {
    if legs != [] {
      var n := |legs| - 1;
      MirrorsOn(legs[..n], r, t, a);
      B.MirroredPrefix(legs, r, t);
      var m := L.Mirrored(legs, r, t);
      MirrorTurns(legs[n], r, t);
      assert m[n] == MirrorEvent(legs[n], r, t) && m[n].account == legs[n].account;
      hide MirrorEvent, TurnsAround;
    }
  }

  lemma RevertRowsOn(states: map<Account, AccountState>, legs: seq<Event>, id: Id, t: Id, a: Account)
    requires AllMovement(legs) && CoversEvents(states, legs) && MirrorLegs(states, legs, id, t).Ok?
    ensures var rows, own := OnAccount(MirrorLegs(states, legs, id, t).value, a), OnAccount(legs, a);
            |rows| == |own| && forall i :: 0 <= i < |own| ==> TurnsAround(rows[i], own[i], id, t)
  {
    hide OnAccount, TurnsAround;
    MirrorShape(states, legs, id, t);
    assert MirrorLegs(states, legs, id, t).value == L.Mirrored(legs, id, t);
    MirrorsOn(legs, id, t, a);
  }

  // ------------------------------------------------------------- the theorems

  lemma DecidedRows(log: seq<Row>, ids: set<Id>, q: Request, r: Reads, a: Account)
    requires L.Inv(EventsOf(log), ids) && ValidCommand(q.command) && ExactReads(EventsOf(log), q.command, r)
    requires DecideEvents(q.command, q.id, q.now, r).Ok?
    ensures WritesRows(log, q, a, OnAccount(DecideEvents(q.command, q.id, q.now, r).value, a))
  {
    hide L.Inv, OnAccount, LegsOf, PostingEvents, CheckLegs, MirrorLegs, MovementLegs, OnSet, RevertedBy, OpenHoldOf, Fold,
      CaptureEvents, ValidPostings, PostsLeg, TurnsAround;
    var c := q.command;
    NamedCovers(c, r);
    if c.Transfer? {
      TwoLegged(c);
      TransferRowsOn(c, q.id, DecideEvents(c, q.id, q.now, r).value, a);
    } else if c.Post? {
      PostingSetOf(c);
      PostLegs(c);
      PostingRowsOn(c.postings, c.account, q.id, DecideEvents(c, q.id, q.now, r).value, a);
    } else if c.Revert? {
      MovementCovered(r.states, r.original);
      RevertRowsOn(r.states, MovementLegs(r.original), q.id, c.transferId, a);
    } else if c.PostHold? {
      OpenHoldPlaced(EventsOf(log), ids, c.account, c.holdId);
      var amount := CaptureAccepted(c, q.id, q.now, r);
      CaptureRowsOn(c.account, r.hold.value, amount, a);
    } else {
      SingleRows(c, q.id, q.now, r, a);
    }
  }

  lemma TwoLegged(c: Command)
    requires c.Transfer?
    ensures |LegsOf(c)| == 2
  {}

  /** After an accepted command every stream has grown by exactly the rows the command means. */
  lemma AcceptedRowsMean(db: Db, q: Request, a: Account) returns (rows: seq<Event>)
    requires DbInv(db) && ValidCommand(q.command)
    requires Execute(db, q).1.Decided? && Execute(db, q).1.stored.outcome.Accepted?
    ensures Stream(Execute(db, q).0.log, a) == Stream(db.log, a) + rows && WritesRows(db.log, q, a, rows)
  {
    hide Execute, L.Inv, Contiguous, DecideEvents, ExactReads, WritesRows, OnAccount;
    var r, events := AcceptedStreams(db, q);
    DecidedRows(db.log, db.results.Keys, q, r, a);
    rows := OnAccount(events, a);
  }

  /** The new rows stand at the end of the log, by ascending account, under consecutive event ids. */
  lemma AcceptedIds(db: Db, q: Request, i: nat)
    requires DbInv(db) && ValidCommand(q.command)
    requires Execute(db, q).1.Decided? && Execute(db, q).1.stored.outcome.Accepted?
    requires |db.log| <= i < |Execute(db, q).0.log|
    ensures db.log <= Execute(db, q).0.log
    ensures Execute(db, q).0.log[i].eventId == q.firstEventId + (i - |db.log|)
    ensures forall j :: |db.log| <= j < i ==>
              Execute(db, q).0.log[j].event.account <= Execute(db, q).0.log[i].event.account
  {
    hide Execute, Decide, DecideEvents, ExactReads, DbInv, IsNumbering;
    var r, legs := AcceptedBatch(db, q);
    ExactIsSufficient(EventsOf(db.log), q.command, r);
    DecideNumbers(q.command, q.id, q.now, r, legs);
    var rows, log' := Stamp(legs, q.firstEventId), Execute(db, q).0.log;
    assert log'[i] == rows[i - |db.log|];
    forall j | |db.log| <= j < i ensures log'[j].event.account <= log'[i].event.account {
      assert log'[j] == rows[j - |db.log|];
      assert KeyBefore(legs[j - |db.log|], legs[i - |db.log|]);
    }
  }

  /** In every interleaving a reversal turns around the set it names, leg by leg. */
  lemma ReversalTurnsAround(acts: seq<Action>, r: Id, t: Id)
    requires Reverts(EventsOf(Concurrent(acts).db.log), r, t)
    ensures var es := EventsOf(Concurrent(acts).db.log);
            && |Movements(es, r)| == |Movements(es, t)| > 0
            && forall i :: 0 <= i < |Movements(es, t)| ==> TurnsAround(Movements(es, r)[i], Movements(es, t)[i], r, t)
  {
    hide Concurrent, Effect, MovementLegs, OnSet, MirrorEvent;
    RevertedAtMostOnce(acts, r, t, 0);
    var es := EventsOf(Concurrent(acts).db.log);
    forall i | 0 <= i < |Movements(es, t)| ensures TurnsAround(Movements(es, r)[i], Movements(es, t)[i], r, t) {
      MirrorTurns(Movements(es, t)[i], r, t);
    }
  }
}
