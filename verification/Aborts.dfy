/** Exactly when the serial unit of work rolls a decided command back.

    Two checks fall short of what is written later. Settling a hold asks for one free version
    on the source, and a partial capture writes two events there. Placing a hold never asks
    whether a timestamp can name its expiry. */
module Aborts {
  import opened Events
  import opened Accounts
  import opened Views
  import opened Commands
  import opened Execution
  import opened Numbering
  import opened Soundness
  import opened Runs
  import opened LedgerTheorems
  import L = Ledger

  /** An accepted partial capture on a stream with room for one more event only. */
  predicate CapturesPastTheEnd(db: Db, q: Request) {
    && q.id !in db.results && q.command.PostHold?
    && |Stream(db.log, q.command.account)| == q.command.expectedVersion == MAX_BIGINT - 1
    && var hold := OpenHoldOf(q.command.holdId, Stream(db.log, q.command.account));
       && hold.Some? && !hold.value.ExpiredAt(q.now)
       && q.command.capture.Some? && q.command.capture.value < hold.value.amount
       && var target := FoldStream(db.log, hold.value.counterparty);
          target.Ok? && HasNextVersion(target.value) && CreditFits(target.value, q.command.capture.value)
  }

  /** A hold that passes every check but whose expiry no timestamp can name. */
  predicate ExpiresPastTheEnd(db: Db, q: Request) {
    && q.id !in db.results && q.command.Hold?
    && |Stream(db.log, q.command.account)| == q.command.expectedVersion < MAX_BIGINT
    && q.now + q.command.ttlSeconds > MAX_TIME
    && var s := FoldStream(db.log, q.command.account);
       s.Ok? && q.command.amount <= s.value.balance - s.value.held
  }

  // -------------------------------------------------- when a decision crashes

  lemma {:induction false} PostingsExist(legs: seq<Leg>, anchor: Account, id: Id, k: nat)
    requires ValidPostings(anchor, legs) && k <= |legs|
    ensures PostingEvents(legs, anchor, id, k).Ok?
  {
    hide SideTotal, LargestCredit;
    if k > 0 {
      PostingsExist(legs, anchor, id, k - 1);
      CounterpartyExists(legs, anchor, k - 1);
    }
  }

  lemma CounterpartyExists(legs: seq<Leg>, anchor: Account, i: nat)
    requires ValidPostings(anchor, legs) && i < |legs|
    ensures CounterpartyFor(legs, anchor, i).Some? && CounterpartyFor(legs, anchor, i).value != legs[i].account
  {
    if |legs| > 2 && legs[i].account == anchor {
      assert legs[i].direction == Debit;
      SomeCredit(legs);
    }
  }

  /** Which account a leg's event names: with two legs the other one; otherwise the anchor, and
      for the anchor's own leg the largest credited account, the first one on ties. */
  lemma CounterpartyMeans(legs: seq<Leg>, anchor: Account, i: nat)
    requires ValidPostings(anchor, legs) && i < |legs|
    ensures CounterpartyFor(legs, anchor, i).Some?
    ensures var named := CounterpartyFor(legs, anchor, i).value;
            && named != legs[i].account
            && (|legs| == 2 || legs[i].account == anchor ==> exists j :: 0 <= j < |legs| && j != i && legs[j].account == named)
            && (|legs| > 2 && legs[i].account != anchor ==> named == anchor)
            && (|legs| > 2 && legs[i].account == anchor ==>
                  forall j, k :: 0 <= j < |legs| && legs[j].account == named && 0 <= k < |legs| && legs[k].direction == Credit ==>
                    && legs[j].direction == Credit && legs[k].amount <= legs[j].amount
                    && (legs[k].amount == legs[j].amount ==> j <= k))
  {
    CounterpartyExists(legs, anchor, i);
    if |legs| == 2 {
      assert legs[1 - i].account == CounterpartyFor(legs, anchor, i).value;
    } else if legs[i].account == anchor {
      var best := LargestCredit(legs).value;
      assert legs[best].account == CounterpartyFor(legs, anchor, i).value;
    }
  }

  /** The events of a posting set carry those names. */
  lemma {:induction false} PostingNames(legs: seq<Leg>, anchor: Account, id: Id, k: nat, i: nat)
    requires i < k <= |legs| && PostingEvents(legs, anchor, id, k).Ok?
    ensures var events := PostingEvents(legs, anchor, id, k).value;
            |events| == k && !events[i].Deposited? && !events[i].Withdrawn? && !events[i].HoldReleased? &&
            Some(events[i].counterparty) == CounterpartyFor(legs, anchor, i)
  {
    hide CounterpartyFor;
    PostingEventsShape(legs, anchor, id, k);
    PostingEventsShape(legs, anchor, id, k - 1);
    if i < k - 1 { PostingNames(legs, anchor, id, k - 1, i); }
  }

  /** A balanced set of positive amounts has a credit. */
  lemma SomeCredit(legs: seq<Leg>)
    requires legs != [] && (forall i :: 0 <= i < |legs| ==> ValidLeg(legs[i])) && SideTotal(legs, Debit) == SideTotal(legs, Credit)
    ensures exists i :: 0 <= i < |legs| && legs[i].direction == Credit
  {
    if forall i :: 0 <= i < |legs| ==> legs[i].direction == Debit { DebitsOnly(legs); }
  }

  lemma {:induction false} DebitsOnly(legs: seq<Leg>)
    requires forall i :: 0 <= i < |legs| ==> ValidLeg(legs[i]) && legs[i].direction == Debit
    ensures SideTotal(legs, Credit) == 0 && SideTotal(legs, Debit) >= |legs|
  {
    if legs != [] { DebitsOnly(legs[..|legs| - 1]); }
  }

  lemma {:induction false} MirrorsExist(states: map<Account, AccountState>, legs: seq<Event>, id: Id, t: Id)
    requires AllMovement(legs) && CoversEvents(states, legs) && AllValid(legs) && id != t
    ensures MirrorLegs(states, legs, id, t) != Err(Crashed)
  {
    if legs != [] { MirrorsExist(states, legs[..|legs| - 1], id, t); }
  }

  /** The rows a revert read are valid, and its own id is not the set it reverts. */
  lemma RevertOfAnother(es: seq<Event>, ids: set<Id>, t: Id, id: Id)
    requires L.Inv(es, ids) && id !in ids && Movements(es, t) != []
    ensures AllValid(Movements(es, t)) && id != t
  {
    InOnSet(es, t);
    InMovementLegs(OnSet(es, t));
    var legs := Movements(es, t);
    forall i | 0 <= i < |legs| ensures ValidEvent(legs[i]) && SetId(legs[i]) == Some(t) && legs[i] in es {
      assert legs[i] in OnSet(es, t);
    }
    assert legs[0] in es;
  }

  lemma RevertExists(es: seq<Event>, ids: set<Id>, c: Command, id: Id, r: Reads)
    requires L.Inv(es, ids) && id !in ids && c.Revert? && CoversEvents(r.states, r.original) && r.original == OnSet(es, c.transferId)
    ensures DecideRevert(r.states, r.original, c.account, id, c.transferId, r.revertedBy) != Err(Crashed)
  {
    hide L.Inv, MirrorLegs, OnSet, MovementLegs;
    MovementCovered(r.states, r.original);
    var legs := MovementLegs(r.original);
    if legs != [] {
      RevertOfAnother(es, ids, c.transferId, id);
      MirrorsExist(r.states, legs, id, c.transferId);
    }
  }

  /** A hold the anchor can afford, with an expiry out of range. */
  predicate ExpiryOverflows(c: Command, now: int, s: AccountState) {
    c.Hold? && HasNextVersion(s) && HasFunds(s, c.amount) && now + c.ttlSeconds > MAX_TIME
  }

  /** On an exact read of a reachable log a decision raises something other than a domain error
      exactly when the expiry of an affordable hold overflows. */
  lemma DecisionCrashes(es: seq<Event>, ids: set<Id>, c: Command, id: Id, now: int, r: Reads)
    requires L.Inv(es, ids) && id !in ids && ValidCommand(c) && ExactReads(es, c, r)
    ensures DecideEvents(c, id, now, r) == Err(Crashed) <==> ExpiryOverflows(c, now, r.states[c.account])
  {
    hide L.Inv, DecideRevert, OnSet, OnAccount, CheckLegs, PostingEvents, RevertedBy, Fold, LegsOf, ValidPostings,
      OpenHoldOf;
    StatesMatch(es, ids, r.states);
    NamedCovers(c, r);
    if c.Transfer? || c.Post? {
      PostingSetOf(c);
      PostingsExist(LegsOf(c), c.account, id, |LegsOf(c)|);
    } else if c.Revert? {
      RevertExists(es, ids, c, id, r);
    } else if c.PostHold? && r.hold.Some? {
      OpenHoldPlaced(es, ids, c.account, c.holdId);
    }
  }

  // ---------------------------------------------------- room for every event

  ghost predicate Room(states: map<Account, AccountState>, events: seq<Event>) {
    forall a :: a in states ==> states[a].version + |OnAccount(events, a)| <= MAX_BIGINT
  }

  /** The numbering stays within the range exactly when every stream has room. */
  lemma NumbersFit(states: map<Account, AccountState>, events: seq<Event>, legs: seq<Numbered>)
    requires IsNumbering(states, events, legs)
    requires forall a :: a in states ==> states[a].version <= MAX_BIGINT
    ensures (forall i :: 0 <= i < |legs| ==> legs[i].version <= MAX_BIGINT) <==> Room(states, events)
  {
    hide OnAccount, InOrder;
    KeysFromOrder(states, legs);
    if forall i :: 0 <= i < |legs| ==> legs[i].version <= MAX_BIGINT {
      forall a | a in states ensures states[a].version + |OnAccount(events, a)| <= MAX_BIGINT {
        assert OnAccount(EventsOfLegs(legs), a) == OnAccount(events, a);
        if OnAccount(events, a) != [] { LastVersion(states, legs, a); }
      }
    }
    if Room(states, events) {
      forall i | 0 <= i < |legs| ensures legs[i].version <= MAX_BIGINT {
        var a := legs[i].event.account;
        assert OnAccount(EventsOfLegs(legs), a) == OnAccount(events, a);
      }
    }
  }

  ghost predicate AllHaveNext(states: map<Account, AccountState>, events: seq<Event>) {
    forall i :: 0 <= i < |events| ==> events[i].account in states && HasNextVersion(states[events[i].account])
  }

  /** One event per account fits when each account has a next version. */
  lemma DistinctFit(states: map<Account, AccountState>, events: seq<Event>)
    requires Distinct(events) && AllHaveNext(states, events)
    requires forall a :: a in states ==> states[a].version <= MAX_BIGINT
    ensures Room(states, events)
  {
    hide OnAccount;
    forall a | a in states ensures states[a].version + |OnAccount(events, a)| <= MAX_BIGINT {
      OneEach(events, a);
    }
  }

  lemma PostingsFit(states: map<Account, AccountState>, anchor: Account, legs: seq<Leg>, id: Id)
    requires Covers(states, legs) && ValidPostings(anchor, legs) && DecidePostings(states, anchor, legs, id).Ok?
    ensures var events := DecidePostings(states, anchor, legs, id).value;
            Distinct(events) && AllHaveNext(states, events)
  {
    PostingEventsShape(legs, anchor, id, |legs|);
    var events := DecidePostings(states, anchor, legs, id).value;
    forall i | 0 <= i < |events| ensures HasNextVersion(states[events[i].account]) { ChecksPassed(states, legs, i); }
  }

  lemma MirrorsFit(es: seq<Event>, ids: set<Id>, states: map<Account, AccountState>, t: Id, id: Id)
    requires L.Inv(es, ids) && CoversEvents(states, Movements(es, t)) && MirrorLegs(states, Movements(es, t), id, t).Ok?
    ensures var events := MirrorLegs(states, Movements(es, t), id, t).value;
            Distinct(events) && AllHaveNext(states, events)
  {
    var legs := Movements(es, t);
    MirrorShape(states, legs, id, t);
    var events := MirrorLegs(states, legs, id, t).value;
    assert L.Balanced(legs);
    forall i | 0 <= i < |events| ensures HasNextVersion(states[events[i].account]) { MirrorChecks(states, legs, id, t, i); }
  }

  lemma CaptureFits(c: Command, id: Id, now: int, r: Reads)
    requires c.PostHold? && ValidCommand(c) && Sufficient(c, r) && OnlyNamed(c, r) && DecideEvents(c, id, now, r).Ok?
    requires r.hold.value.holdId == c.holdId && r.hold.value.counterparty != c.account
    requires forall a :: a in r.states ==> r.states[a].version <= MAX_BIGINT
    ensures !Room(r.states, DecideEvents(c, id, now, r).value) <==>
              c.capture.Some? && c.capture.value < r.hold.value.amount && r.states[c.account].version == MAX_BIGINT - 1
  {
    var amount := CaptureAccepted(c, id, now, r);
    var events := DecideEvents(c, id, now, r).value;
    var hold := r.hold.value;
    CaptureStreams(c.account, hold, amount, events);
    assert HasNextVersion(r.states[c.account]);
    hide OnAccount, DecideEvents;
    forall a | a in r.states ensures a == c.account || a == hold.counterparty {}
    assert |OnAccount(events, c.account)| == if amount < hold.amount then 2 else 1;
  }

  /** A decided batch lacks room only when a partial capture meets the last version. */
  lemma RoomExactly(es: seq<Event>, ids: set<Id>, c: Command, id: Id, now: int, r: Reads)
    requires L.Inv(es, ids) && ValidCommand(c) && ExactReads(es, c, r) && DecideEvents(c, id, now, r).Ok?
    requires forall a :: a in r.states ==> r.states[a].version <= MAX_BIGINT
    ensures !Room(r.states, DecideEvents(c, id, now, r).value) <==>
              c.PostHold? && r.hold.Some? && c.capture.Some? && c.capture.value < r.hold.value.amount &&
              r.states[c.account].version == MAX_BIGINT - 1
  {
    hide L.Inv, OnAccount, Room, OpenHoldOf, OnSet, MirrorLegs, DecidePostings, LegsOf, ValidPostings, Fold,
      RevertedBy, MovementLegs;
    NamedCovers(c, r);
    if c.Transfer? || c.Post? {
      PostingSetOf(c);
      PostingsFit(r.states, c.account, LegsOf(c), id);
      DistinctFit(r.states, DecideEvents(c, id, now, r).value);
    } else if c.Revert? {
      RevertReads(es, ids, c, id, now, r);
      MirrorsFit(es, ids, r.states, c.transferId, id);
      DistinctFit(r.states, DecideEvents(c, id, now, r).value);
    } else if c.PostHold? {
      OpenHoldPlaced(es, ids, c.account, c.holdId);
      CaptureFits(c, id, now, r);
    } else {
      DistinctFit(r.states, DecideEvents(c, id, now, r).value);
    }
  }

  // ------------------------------------------------------------ the theorem

  lemma DecideCrashes(es: seq<Event>, ids: set<Id>, c: Command, id: Id, now: int, r: Reads)
    requires L.Inv(es, ids) && id !in ids && ValidCommand(c) && ExactReads(es, c, r)
    ensures Decide(c, id, now, r) == Err(Crashed) <==>
              || ExpiryOverflows(c, now, r.states[c.account])
              || (&& DecideEvents(c, id, now, r).Ok?
                  && c.PostHold? && r.hold.Some? && c.capture.Some? && c.capture.value < r.hold.value.amount
                  && r.states[c.account].version == MAX_BIGINT - 1)
  {
    hide L.Inv, DecideEvents, Room, IsNumbering, ExpiryOverflows, Fold, OnAccount, OnSet, RevertedBy, OpenHoldOf,
      Named;
    DecisionCrashes(es, ids, c, id, now, r);
    if DecideEvents(c, id, now, r).Ok? {
      var events := DecideEvents(c, id, now, r).value;
      StatesInRange(es, ids, r.states);
      EventsCovered(c, id, now, r);
      NumberLegsSpec(r.states, events);
      NumbersFit(r.states, events, NumberLegs(r.states, events));
      RoomExactly(es, ids, c, id, now, r);
    }
  }

  lemma StatesInRange(es: seq<Event>, ids: set<Id>, states: map<Account, AccountState>)
    requires L.Inv(es, ids) && Exact(es, states)
    ensures forall a :: a in states ==> ValidState(states[a])
  {
    forall a | a in states ensures ValidState(states[a]) { var s := StateOf(es, ids, a); }
  }

  /** Settling an open hold is decided exactly when it has not expired, the capture fits the
      hold, both streams have a next version and the credit fits the target. */
  lemma CaptureDecided(es: seq<Event>, ids: set<Id>, c: Command, id: Id, now: int, r: Reads)
    requires L.Inv(es, ids) && c.PostHold? && ExactReads(es, c, r) && r.hold.Some? && c.capture.Some?
    ensures DecideEvents(c, id, now, r).Ok? <==>
              && r.hold.value.counterparty in r.states
              && var target := r.states[r.hold.value.counterparty];
                 && !r.hold.value.ExpiredAt(now) && c.capture.value <= r.hold.value.amount
                 && HasNextVersion(r.states[c.account]) && HasNextVersion(target) && CreditFits(target, c.capture.value)
  {
    NamedCovers(c, r);
    StatesMatch(es, ids, r.states);
    OpenHoldPlaced(es, ids, c.account, c.holdId);
    FoldCoversOpenHold(es, ids, c.account, c.holdId, r.states[c.account]);
    hide L.Inv, Fold, OnAccount, OpenHoldOf;
  }

  /** What a serial command that passed the version check rolls back on. */
  lemma ExecuteAborts(db: Db, q: Request, r: Reads)
    requires DbInv(db) && ValidCommand(q.command) && q.id !in db.results
    requires ExactReads(EventsOf(db.log), q.command, r)
    requires FoldStream(db.log, q.command.account) == Ok(r.states[q.command.account])
    requires ReadAll(db.log, q.command, r.states[q.command.account]) == Ok(r)
    requires q.command.expectedVersion == r.states[q.command.account].version
    ensures Execute(db, q).1 == RolledBack <==> Decide(q.command, q.id, q.now, r) == Err(Crashed)
  {
    var decision := Decide(q.command, q.id, q.now, r);
    if decision.Ok? {
      AddressedWritten(EventsOf(db.log), db.results.Keys, q, r, decision.value);
    }
    AbortCases(db, q, r, decision);
    hide *;
  }

  lemma AbortCases(db: Db, q: Request, r: Reads, decision: Result<seq<Numbered>>)
    requires Sufficient(q.command, r) && q.id !in db.results && decision == Decide(q.command, q.id, q.now, r)
    requires FoldStream(db.log, q.command.account) == Ok(r.states[q.command.account])
    requires ReadAll(db.log, q.command, r.states[q.command.account]) == Ok(r)
    requires q.command.expectedVersion == r.states[q.command.account].version
    requires decision.Ok? ==> Addressed(Stamp(decision.value, q.firstEventId), q.command.account).Some?
    ensures Execute(db, q).1 == RolledBack <==> decision == Err(Crashed)
  {
    hide Decide, ReadAll, FoldStream, Stamp, Addressed, PostingsOf;
  }

  lemma ReadExactly(db: Db, c: Command) returns (r: Reads)
    requires DbInv(db)
    ensures ExactReads(EventsOf(db.log), c, r)
    ensures FoldStream(db.log, c.account) == Ok(r.states[c.account])
    ensures ReadAll(db.log, c, r.states[c.account]) == Ok(r)
    ensures r.states[c.account].version == |Stream(db.log, c.account)|
  {
    hide L.Inv, Contiguous, FoldStream, ExactReads, HoldRead, OriginalRead;
    var es, ids := EventsOf(db.log), db.results.Keys;
    var anchor := StateOf(es, ids, c.account);
    assert FoldStream(db.log, c.account) == Ok(anchor) by { FoldStreamIs(db.log, c.account, anchor); }
    InvFolds(es, ids);
    var named := Named(c, HoldRead(db.log, c), OriginalRead(db.log, c));
    FoldOthersFolds(db.log, map[c.account := anchor], named);
    FoldOthersCovers(db.log, map[c.account := anchor], named);
    r := ReadAll(db.log, c, anchor).value;
    ReadsExact(db.log, c, anchor);
  }

  /** A request rolls back without a stored result exactly when it is a partial capture on the
      last version but one, or a hold whose expiry is out of range. */
  lemma RollsBackExactly(db: Db, q: Request)
    requires DbInv(db) && ValidCommand(q.command)
    ensures Execute(db, q).1 == RolledBack <==> CapturesPastTheEnd(db, q) || ExpiresPastTheEnd(db, q)
  {
    var r := ReadExactly(db, q.command);
    if q.id !in db.results && q.command.expectedVersion == r.states[q.command.account].version {
      ExecuteAborts(db, q, r);
      DecideCrashes(EventsOf(db.log), db.results.Keys, q.command, q.id, q.now, r);
      if q.command.PostHold? && r.hold.Some? && q.command.capture.Some? {
        CaptureDecided(EventsOf(db.log), db.results.Keys, q.command, q.id, q.now, r);
        TargetFold(db, q.command, r);
      }
      hide Execute, L.Inv, Contiguous, Decide, DecideEvents, ReadAll, Fold, Named, OpenHoldOf, OnAccount, OnSet,
        RevertedBy;
    } else {
      hide L.Inv, Contiguous, DecideOn, ReadAll, ExactReads;
    }
  }

  lemma TargetFold(db: Db, c: Command, r: Reads)
    requires ExactReads(EventsOf(db.log), c, r) && c.PostHold? && r.hold.Some?
    ensures r.hold.value.counterparty in r.states
    ensures FoldStream(db.log, r.hold.value.counterparty) == Ok(r.states[r.hold.value.counterparty])
  {
    NamedCovers(c, r);
  }
}
