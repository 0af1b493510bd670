/** Every decision taken on a log that satisfies the invariant is sound: its legs apply
    in order to their streams, and the batch is one of the kinds that keep the invariant. */
module Soundness {
  import opened Events
  import opened Accounts
  import opened Views
  import opened Commands
  import opened Execution
  import opened Numbering
  import L = Ledger
  import B = Batches

  // ------------------------------------------------------- shapes of batches

  ghost predicate Ascend(events: seq<Event>) {
    forall i, j :: 0 <= i < j < |events| ==> events[i].account <= events[j].account
  }

  ghost predicate Distinct(events: seq<Event>) {
    forall i, j :: 0 <= i < j < |events| ==> events[i].account != events[j].account
  }

  /** A batch that is already sorted keeps its order. */
  lemma {:induction false} AlreadySorted(states: map<Account, AccountState>, events: seq<Event>, k: nat)
    returns (legs: seq<Numbered>)
    requires CoversEvents(states, events) && k <= |events| && Ascend(events)
    ensures legs == NumberTo(states, events, k)
    ensures EventsOfLegs(legs) == events[..k]
  {
    hide OnAccount;
    if k == 0 {
      legs := [];
    } else {
      var before := AlreadySorted(states, events, k - 1);
      var x := LastNumbered(states, events, k);
      assert before != [] ==> before[|before| - 1].event == events[k - 2];
      legs := before + [x];
      assert events[..k] == events[..k - 1] + [events[k - 1]];
    }
  }

  lemma SortedBatch(states: map<Account, AccountState>, events: seq<Event>)
    requires CoversEvents(states, events) && Ascend(events)
    ensures EventsOfLegs(NumberLegs(states, events)) == events
  {
    var legs := AlreadySorted(states, events, |events|);
    assert events[..|events|] == events;
  }

  /** Two batches with the same streams hold the same events. */
  lemma SameMembers(b: seq<Event>, events: seq<Event>)
    requires forall a :: OnAccount(b, a) == OnAccount(events, a)
    ensures forall e :: e in b <==> e in events
  {
    forall e ensures e in b <==> e in events {
      InOnAccount(b, e.account);
      InOnAccount(events, e.account);
      assert e in OnAccount(b, e.account) <==> e in OnAccount(events, e.account);
    }
  }

  /** With distinct accounts every stream gets at most one event. */
  lemma {:induction false} OneEach(events: seq<Event>, a: Account)
    requires Distinct(events)
    ensures OnAccount(events, a) == [] ||
            exists i :: 0 <= i < |events| && events[i].account == a && OnAccount(events, a) == [events[i]]
  {
    if events != [] {
      var n := |events| - 1;
      OneEach(events[..n], a);
      if events[n].account == a {
        B.NoneOn(events[..n], a);
      }
    }
  }

  /** An event list with at most one event on each stream has distinct accounts. */
  lemma {:induction false} DistinctFromStreams(b: seq<Event>)
    requires forall a :: |OnAccount(b, a)| <= 1
    ensures Distinct(b)
  {
    if b != [] {
      var n := |b| - 1;
      forall a ensures |OnAccount(b[..n], a)| <= 1 {
        assert |OnAccount(b, a)| <= 1;
      }
      DistinctFromStreams(b[..n]);
      var c := b[n].account;
      var before := OnAccount(b[..n], c);
      InOnAccount(b[..n], c);
      assert OnAccount(b, c) == before + [b[n]];
      forall i | 0 <= i < n ensures b[i].account != c {
        var e := b[i];
        assert e in b[..n] by { assert b[..n][i] == e; }
        assert e.account == c ==> e in before;
      }
    }
  }

  lemma StreamsOfDistinct(events: seq<Event>)
    requires Distinct(events)
    ensures forall a :: |OnAccount(events, a)| <= 1
  {
    forall a ensures |OnAccount(events, a)| <= 1 { OneEach(events, a); }
  }

  /** An ascending batch over two accounts is the first stream followed by the second. */
  lemma {:induction false} TwoAccounts(b: seq<Event>, a: Account, c: Account)
    requires Ascend(b) && a < c
    requires forall i :: 0 <= i < |b| ==> b[i].account == a || b[i].account == c
    ensures b == OnAccount(b, a) + OnAccount(b, c)
  {
    if b != [] {
      var n := |b| - 1;
      TwoAccounts(b[..n], a, c);
      if b[n].account == a {
        B.NoneOn(b, c);
        OnAccountAll(b, a);
      } else {
        assert b == b[..n] + [b[n]];
      }
    }
  }

  // --------------------------------------------------------- applying events

  /** A leg that passed its own check applies. */
  lemma CheckedApplies(s: AccountState, e: Event, debit: bool)
    requires ValidState(s) && ValidEvent(e) && !IsHoldEvent(e)
    requires CheckLeg(s, e.account, e.amount, debit) == None
    requires BalanceDelta(e) == if debit then -e.amount else e.amount
    ensures Apply(s, e).Ok?
  {}

  lemma FoldOne(s: seq<Event>, e: Event, st: AccountState)
    requires Fold(s) == Ok(st) && Apply(st, e).Ok?
    ensures Fold(s + [e]).Ok?
  {
    assert (s + [e])[..|s|] == s;
  }

  /** The state a stream of an invariant log folds to. */
  lemma StateOf(es: seq<Event>, ids: set<Id>, a: Account) returns (s: AccountState)
    requires L.Inv(es, ids)
    ensures Fold(OnAccount(es, a)) == Ok(s) && ValidState(s) && Matches(s, a)
    ensures s.balance == BalanceSum(OnAccount(es, a)) && s.held == HeldSum(OnAccount(es, a))
    ensures s.version == |OnAccount(es, a)|
  {
    InOnAccount(es, a);
    var st := OnAccount(es, a);
    forall i | 0 <= i < |st| ensures ValidEvent(st[i]) { assert st[i] in es; }
    assert Fold(OnAccount(es, a)).Ok?;
    FoldIsSums(st, a);
    s := Fold(st).value;
  }

  /** A batch with at most one checked event on each stream folds everywhere. */
  lemma ChecksFold(es: seq<Event>, ids: set<Id>, b: seq<Event>)
    requires L.Inv(es, ids) && AllValid(b) && L.NoHolds(b) && Distinct(b)
    requires forall i :: 0 <= i < |b| ==> StepApplies(es, b[i])
    ensures L.StreamsFold(es + b)
  {
    forall a ensures Fold(OnAccount(es + b, a)).Ok? {
      OnAccountConcat(es, b, a);
      OneEach(b, a);
      var s := StateOf(es, ids, a);
      if OnAccount(b, a) == [] {
        assert OnAccount(es, a) + [] == OnAccount(es, a);
      } else {
        var i :| 0 <= i < |b| && b[i].account == a && OnAccount(b, a) == [b[i]];
        assert StepApplies(es, b[i]);
        FoldOne(OnAccount(es, a), b[i], s);
      }
    }
  }

  ghost predicate StepApplies(es: seq<Event>, e: Event) {
    Fold(OnAccount(es, e.account)).Ok? && Apply(Fold(OnAccount(es, e.account)).value, e).Ok?
  }

  // ------------------------------------------------------------ exact reads

  /** The states a decision uses are the folds of their streams in this log. */
  ghost predicate Exact(es: seq<Event>, states: map<Account, AccountState>) {
    forall a :: a in states ==> Fold(OnAccount(es, a)) == Ok(states[a])
  }

  lemma ReadAllExact(log: seq<Row>, c: Command, anchor: AccountState)
    requires FoldStream(log, c.account) == Ok(anchor) && ReadAll(log, c, anchor).Ok?
    ensures Exact(EventsOf(log), ReadAll(log, c, anchor).value.states)
    ensures Sufficient(c, ReadAll(log, c, anchor).value)
  {
    ReadAllSufficient(log, c, anchor);
    FoldOthersCovers(log, map[c.account := anchor], Named(c, HoldRead(log, c), OriginalRead(log, c)));
  }

  lemma UnusedId(es: seq<Event>, ids: set<Id>, id: Id)
    requires L.Decided(es, ids) && id !in ids
    ensures L.Unused(es, id)
  {}

  // ------------------------------------------------------------ per command

  lemma {:induction false} ChecksPassed(states: map<Account, AccountState>, legs: seq<Leg>, i: nat)
    requires Covers(states, legs) && CheckLegs(states, legs) == None && i < |legs|
    ensures CheckLeg(states[legs[i].account], legs[i].account, legs[i].amount, legs[i].direction == Debit) == None
  {
    if i < |legs| - 1 { ChecksPassed(states, legs[..|legs| - 1], i); }
  }

  /** The events of the first k legs move the debited total down and the credited total up. */
  lemma {:induction false} PostingTotal(legs: seq<Leg>, events: seq<Event>)
    requires |events| == |legs|
    requires forall i :: 0 <= i < |legs| ==>
               BalanceDelta(events[i]) == if legs[i].direction == Debit then -legs[i].amount else legs[i].amount
    ensures BalanceSum(events) == SideTotal(legs, Credit) - SideTotal(legs, Debit)
  {
    if legs != [] { PostingTotal(legs[..|legs| - 1], events[..|events| - 1]); }
  }

  /** What has to hold of the batch of an accepted command. */
  ghost predicate SoundBatch(es: seq<Event>, b: seq<Event>, ids: set<Id>) {
    L.GoodBatch(es, b) && AllValid(b) && L.StreamsFold(es + b) && L.Decided(b, ids)
  }

  /** One row of a posting set: a fresh movement leg that applies to its stream. */
  ghost predicate PostingRow(es: seq<Event>, e: Event, id: Id) {
    && ValidEvent(e) && SetId(e) == Some(id) && IsMovement(e) && RevertsColumn(e).None? && !IsHoldEvent(e)
    && StepApplies(es, e)
  }

  lemma PostingRows(es: seq<Event>, ids: set<Id>, states: map<Account, AccountState>, anchor: Account, legs: seq<Leg>, id: Id)
    requires L.Inv(es, ids) && Exact(es, states) && Covers(states, legs)
    requires DecidePostings(states, anchor, legs, id).Ok?
    ensures forall e :: e in DecidePostings(states, anchor, legs, id).value ==> PostingRow(es, e, id)
  {
    var events := DecidePostings(states, anchor, legs, id).value;
    PostingEventsShape(legs, anchor, id, |legs|);
    forall e | e in events ensures PostingRow(es, e, id) {
      var j :| 0 <= j < |events| && events[j] == e;
      ChecksPassed(states, legs, j);
      var s := StateOf(es, ids, e.account);
      CheckedApplies(s, e, legs[j].direction == Debit);
    }
  }

  /** Sorting distinct accounts gives strictly ascending ones. */
  lemma SortedDistinct(legs: seq<Numbered>, events: seq<Event>)
    requires LegsAscend(legs) && Distinct(events)
    requires forall a :: OnAccount(EventsOfLegs(legs), a) == OnAccount(events, a)
    ensures L.AccountsAscend(EventsOfLegs(legs)) && Distinct(EventsOfLegs(legs))
  {
    StreamsOfDistinct(events);
    var b := EventsOfLegs(legs);
    forall a ensures |OnAccount(b, a)| <= 1 { assert OnAccount(b, a) == OnAccount(events, a); }
    DistinctFromStreams(b);
  }

  lemma PostingSettles(states: map<Account, AccountState>, anchor: Account, legs: seq<Leg>, id: Id)
    requires ValidPostings(anchor, legs) && Covers(states, legs) && DecidePostings(states, anchor, legs, id).Ok?
    ensures var events := DecidePostings(states, anchor, legs, id).value;
            events != [] && Distinct(events) && BalanceSum(events) == 0
  {
    PostingEventsShape(legs, anchor, id, |legs|);
    PostingTotal(legs, DecidePostings(states, anchor, legs, id).value);
  }

  /** The sorted batch of a posting set. */
  lemma PostingBatch(es: seq<Event>, ids: set<Id>, c: Command, id: Id, states: map<Account, AccountState>)
    requires L.Inv(es, ids) && id !in ids && ValidCommand(c) && (c.Transfer? || c.Post?)
    requires Exact(es, states) && Covers(states, LegsOf(c))
    requires DecidePostings(states, c.account, LegsOf(c), id).Ok?
    requires CoversEvents(states, DecidePostings(states, c.account, LegsOf(c), id).value)
    ensures var events := DecidePostings(states, c.account, LegsOf(c), id).value;
            && events != [] && SoundBatch(es, EventsOfLegs(NumberLegs(states, events)), ids + {id})
  {
    PostingSetOf(c);
    PostingSettles(states, c.account, LegsOf(c), id);
    PostingRows(es, ids, states, c.account, LegsOf(c), id);
    var events := DecidePostings(states, c.account, LegsOf(c), id).value;
    NumberLegsSpec(states, events);
    UnusedId(es, ids, id);
    PostingIsGood(es, ids, NumberLegs(states, events), events, id);
  }

  lemma PostingIsGood(es: seq<Event>, ids: set<Id>, legs: seq<Numbered>, events: seq<Event>, id: Id)
    requires L.Inv(es, ids) && L.Unused(es, id)
    requires LegsAscend(legs) && Distinct(events) && BalanceSum(events) == 0
    requires forall a :: OnAccount(EventsOfLegs(legs), a) == OnAccount(events, a)
    requires BalanceSum(EventsOfLegs(legs)) == BalanceSum(events)
    requires forall e :: e in events ==> PostingRow(es, e, id)
    ensures SoundBatch(es, EventsOfLegs(legs), ids + {id})
  {
    var b := EventsOfLegs(legs);
    SameMembers(b, events);
    SortedDistinct(legs, events);
    forall i | 0 <= i < |b| ensures PostingRow(es, b[i], id) { assert b[i] in events; }
    ChecksFold(es, ids, b);
    assert L.IsPosting(es, b, id);
  }

  lemma {:induction false} MirrorChecks(states: map<Account, AccountState>, legs: seq<Event>, id: Id, t: Id, i: nat)
    requires AllMovement(legs) && CoversEvents(states, legs) && MirrorLegs(states, legs, id, t).Ok? && i < |legs|
    ensures CheckLeg(states[legs[i].account], legs[i].account, legs[i].amount, BalanceSign(legs[i]) > 0) == None
  {
    if i < |legs| - 1 { MirrorChecks(states, legs[..|legs| - 1], id, t, i); }
  }

  /** The mirrored legs of a set apply to their streams, each on its own. */
  lemma MirrorApplies(es: seq<Event>, ids: set<Id>, states: map<Account, AccountState>, legs: seq<Event>, id: Id, t: Id)
    requires L.Inv(es, ids) && Exact(es, states) && AllMovement(legs) && CoversEvents(states, legs)
    requires MirrorLegs(states, legs, id, t).Ok?
    ensures var events := MirrorLegs(states, legs, id, t).value;
            && events == L.Mirrored(legs, id, t)
            && AllValid(events)
            && forall i :: 0 <= i < |events| ==> StepApplies(es, events[i])
  {
    MirrorShape(states, legs, id, t);
    var events := MirrorLegs(states, legs, id, t).value;
    forall i | 0 <= i < |events| ensures StepApplies(es, events[i]) {
      MirrorChecks(states, legs, id, t, i);
      MirrorStep(es, ids, legs[i], states[legs[i].account], id, t);
    }
  }

  lemma MirrorStep(es: seq<Event>, ids: set<Id>, leg: Event, s: AccountState, id: Id, t: Id)
    requires L.Inv(es, ids) && IsMovement(leg) && Fold(OnAccount(es, leg.account)) == Ok(s)
    requires CheckLeg(s, leg.account, leg.amount, BalanceSign(leg) > 0) == None
    requires ValidEvent(MirrorEvent(leg, id, t))
    ensures StepApplies(es, MirrorEvent(leg, id, t))
  {
    var st := StateOf(es, ids, leg.account);
    CheckedApplies(s, MirrorEvent(leg, id, t), BalanceSign(leg) > 0);
  }

  lemma ReversalIsGood(es: seq<Event>, ids: set<Id>, b: seq<Event>, id: Id, t: Id)
    requires L.Inv(es, ids) && L.Unused(es, id) && RevertedBy(es, t).None? && Movements(es, t) != []
    requires b == L.Mirrored(Movements(es, t), id, t) && AllValid(b)
    requires forall i :: 0 <= i < |b| ==> StepApplies(es, b[i])
    ensures SoundBatch(es, b, ids + {id}) && Ascend(b)
  {
    assert L.Balanced(Movements(es, t));
    B.MirroredRows(Movements(es, t), id, t);
    B.MirroredBalanced(Movements(es, t), id, t);
    RevertedByReads(es, t);
    assert L.IsReversal(es, b, id, t);
    ChecksFold(es, ids, b);
  }

  /** The sorted batch of a revert. */
  lemma RevertBatch(es: seq<Event>, ids: set<Id>, id: Id, t: Id, states: map<Account, AccountState>)
    requires L.Inv(es, ids) && id !in ids && Exact(es, states)
    requires CoversEvents(states, Movements(es, t)) && Movements(es, t) != [] && RevertedBy(es, t).None?
    requires MirrorLegs(states, Movements(es, t), id, t).Ok?
    requires CoversEvents(states, MirrorLegs(states, Movements(es, t), id, t).value)
    ensures var events := MirrorLegs(states, Movements(es, t), id, t).value;
            && events != [] && SoundBatch(es, EventsOfLegs(NumberLegs(states, events)), ids + {id})
  {
    var events := MirrorLegs(states, Movements(es, t), id, t).value;
    MirrorApplies(es, ids, states, Movements(es, t), id, t);
    UnusedId(es, ids, id);
    ReversalIsGood(es, ids, events, id, t);
    SortedBatch(states, events);
  }

  /** A batch of one event. */
  lemma SingleBatch(es: seq<Event>, ids: set<Id>, states: map<Account, AccountState>, e: Event)
    requires L.Inv(es, ids) && Exact(es, states) && e.account in states
    requires Apply(states[e.account], e).Ok?
    ensures EventsOfLegs(NumberLegs(states, [e])) == [e]
    ensures L.StreamsFold(es + [e])
  {
    SortedBatch(states, [e]);
    forall a ensures Fold(OnAccount(es + [e], a)).Ok? {
      B.StreamPlus(es, e, a);
      var s := StateOf(es, ids, a);
      if a == e.account { FoldOne(OnAccount(es, a), e, s); }
    }
  }

  /** An open hold was placed with a valid amount for somebody else. */
  lemma OpenHoldPlaced(es: seq<Event>, ids: set<Id>, a: Account, h: Id)
    requires L.Inv(es, ids) && OpenHoldOf(h, OnAccount(es, a)).Some?
    ensures var hold := OpenHoldOf(h, OnAccount(es, a)).value;
            hold.holdId == h && ValidAmount(hold.amount) && hold.counterparty != a && h in ids
  {
    var hold := OpenHoldOf(h, OnAccount(es, a)).value;
    assert OnSet(es, h) == [L.PlacedAs(a, hold)];
    InOnSet(es, h);
    assert L.PlacedAs(a, hold) in OnSet(es, h);
    var i :| 0 <= i < |es| && es[i] == L.PlacedAs(a, hold);
    assert ValidEvent(es[i]) && SetId(es[i]) == Some(hold.holdId);
    StatusId(h, OnAccount(es, a));
  }

  lemma {:induction false} StatusId(h: Id, s: seq<Event>)
    ensures StatusOf(h, s).Open? ==> StatusOf(h, s).hold.holdId == h
  {
    if s != [] { StatusId(h, s[..|s| - 1]); }
  }

  // ------------------------------------------------------------ capturing

  /** The last leg on a stream carries the stream's new version. */
  lemma {:induction false} LastVersion(states: map<Account, AccountState>, legs: seq<Numbered>, a: Account)
    requires InOrder(states, legs) && a in states && OnAccount(EventsOfLegs(legs), a) != []
    ensures exists i :: 0 <= i < |legs| && legs[i].event.account == a &&
                        legs[i].version == states[a].version + |OnAccount(EventsOfLegs(legs), a)|
  {
    var n := |legs| - 1;
    if legs != [] {
      assert EventsOfLegs(legs)[..n] == EventsOfLegs(legs[..n]);
      if legs[n].event.account != a {
        LastVersion(states, legs[..n], a);
        var i :| 0 <= i < n && legs[..n][i].event.account == a &&
                 legs[..n][i].version == states[a].version + |OnAccount(EventsOfLegs(legs[..n]), a)|;
        assert legs[i] == legs[..n][i];
      }
    }
  }

  /** The three events of a capture, seen from its two streams. */
  lemma CaptureStreams(a: Account, hold: OpenHold, amount: int, events: seq<Event>)
    requires hold.counterparty != a
    requires events == CaptureEvents(a, hold, amount)
    ensures OnAccount(events, a) == L.CaptureSource(a, hold, amount)
    ensures OnAccount(events, hold.counterparty) == L.CaptureTarget(a, hold, amount)
    ensures forall i :: 0 <= i < |events| ==> events[i].account == a || events[i].account == hold.counterparty
  {
    var c := hold.counterparty;
    var posted := HoldPosted(a, amount, hold.holdId, c);
    var credited := TransferCredited(c, amount, hold.holdId, a);
    var released := HoldReleased(a, hold.amount - amount, hold.holdId, Partial);
    var pair := [posted] + [credited];
    B.OnAccountSingle(posted, a);
    B.OnAccountSingle(posted, c);
    B.StreamPlus([posted], credited, a);
    B.StreamPlus([posted], credited, c);
    assert [] + [credited] == [credited];
    if amount < hold.amount {
      B.StreamPlus(pair, released, a);
      B.StreamPlus(pair, released, c);
      assert events == pair + [released];
    } else {
      assert events == pair;
    }
  }

  function CaptureEvents(a: Account, hold: OpenHold, amount: int): seq<Event> {
    var events := [HoldPosted(a, amount, hold.holdId, hold.counterparty),
                   TransferCredited(hold.counterparty, amount, hold.holdId, a)];
    if amount < hold.amount then events + [HoldReleased(a, hold.amount - amount, hold.holdId, Partial)] else events
  }

  /** A sorted capture is the source's rows and the target's row in account order. */
  lemma CaptureSorted(b: seq<Event>, events: seq<Event>, a: Account, hold: OpenHold, amount: int)
    requires hold.counterparty != a && events == CaptureEvents(a, hold, amount) && Ascend(b)
    requires forall c :: OnAccount(b, c) == OnAccount(events, c)
    ensures b == if a < hold.counterparty then L.CaptureSource(a, hold, amount) + L.CaptureTarget(a, hold, amount)
                 else L.CaptureTarget(a, hold, amount) + L.CaptureSource(a, hold, amount)
  {
    CaptureStreams(a, hold, amount, events);
    SameMembers(b, events);
    forall i | 0 <= i < |b| ensures b[i].account == a || b[i].account == hold.counterparty {
      var e := b[i];
      assert e in events;
    }
    if a < hold.counterparty { TwoAccounts(b, a, hold.counterparty); } else { TwoAccounts(b, hold.counterparty, a); }
  }

  /** The source's rows of a capture apply one after the other. */
  lemma SourceApplies(s: seq<Event>, st: AccountState, a: Account, hold: OpenHold, amount: int)
    requires Fold(s) == Ok(st) && ValidState(st) && Matches(st, a)
    requires 1 <= amount <= hold.amount <= st.held && hold.amount <= MAX_BIGINT
    requires st.version + |L.CaptureSource(a, hold, amount)| <= MAX_BIGINT
    ensures Fold(s + L.CaptureSource(a, hold, amount)).Ok?
  {
    var posted := HoldPosted(a, amount, hold.holdId, hold.counterparty);
    FoldOne(s, posted, st);
    var mid := Apply(st, posted).value;
    if amount < hold.amount {
      var released := HoldReleased(a, hold.amount - amount, hold.holdId, Partial);
      assert (s + [posted])[..|s|] == s;
      assert Fold(s + [posted]) == Ok(mid);
      FoldOne(s + [posted], released, mid);
      assert s + [posted] + [released] == s + L.CaptureSource(a, hold, amount);
    }
  }

  /** A batch on two streams folds when it folds on each of them. */
  lemma TwoStreamsFold(es: seq<Event>, ids: set<Id>, b: seq<Event>, a: Account, c: Account)
    requires L.Inv(es, ids)
    requires forall i :: 0 <= i < |b| ==> b[i].account == a || b[i].account == c
    requires Fold(OnAccount(es, a) + OnAccount(b, a)).Ok? && Fold(OnAccount(es, c) + OnAccount(b, c)).Ok?
    ensures L.StreamsFold(es + b)
  {
    forall k ensures Fold(OnAccount(es + b, k)).Ok? {
      OnAccountConcat(es, b, k);
      if k != a && k != c {
        B.NoneOn(b, k);
        assert OnAccount(es, k) + [] == OnAccount(es, k);
        assert Fold(OnAccount(es, k)).Ok?;
      }
    }
  }

  lemma CaptureFolds(es: seq<Event>, ids: set<Id>, b: seq<Event>, a: Account, hold: OpenHold, amount: int,
                     source: AccountState, target: AccountState)
    requires L.Inv(es, ids) && L.IsCapture(es, b, a, hold, amount)
    requires Fold(OnAccount(es, a)) == Ok(source) && Fold(OnAccount(es, hold.counterparty)) == Ok(target)
    requires 1 <= amount && hold.amount <= MAX_BIGINT && hold.amount <= source.held
    requires source.version + |L.CaptureSource(a, hold, amount)| <= MAX_BIGINT
    requires HasNextVersion(target) && CreditFits(target, amount)
    ensures L.StreamsFold(es + b)
  {
    var c := hold.counterparty;
    B.CaptureViews(es, b, a, hold, amount);
    var s := StateOf(es, ids, a);
    SourceApplies(OnAccount(es, a), s, a, hold, amount);
    var t := StateOf(es, ids, c);
    FoldOne(OnAccount(es, c), TransferCredited(c, amount, hold.holdId, a), t);
    CaptureAccounts(b, a, hold, amount);
    TwoStreamsFold(es, ids, b, a, c);
  }

  lemma CaptureAccounts(b: seq<Event>, a: Account, hold: OpenHold, amount: int)
    requires b == L.CaptureSource(a, hold, amount) + L.CaptureTarget(a, hold, amount) ||
             b == L.CaptureTarget(a, hold, amount) + L.CaptureSource(a, hold, amount)
    ensures forall i :: 0 <= i < |b| ==> b[i].account == a || b[i].account == hold.counterparty
  {}

  lemma CaptureValid(b: seq<Event>, a: Account, hold: OpenHold, amount: int)
    requires b == L.CaptureSource(a, hold, amount) + L.CaptureTarget(a, hold, amount) ||
             b == L.CaptureTarget(a, hold, amount) + L.CaptureSource(a, hold, amount)
    requires 1 <= amount <= hold.amount <= MAX_BIGINT && hold.counterparty != a
    ensures AllValid(b)
  {}

  /** The sorted batch of a hold settlement. */
  lemma CaptureBatch(es: seq<Event>, ids: set<Id>, a: Account, hold: OpenHold, amount: int,
                     states: map<Account, AccountState>, legs: seq<Numbered>)
    requires L.Inv(es, ids) && Exact(es, states) && a in states && hold.counterparty in states
    requires OpenHoldOf(hold.holdId, OnAccount(es, a)) == Some(hold)
    requires 1 <= amount <= hold.amount <= states[a].held
    requires HasNextVersion(states[hold.counterparty]) && CreditFits(states[hold.counterparty], amount)
    requires IsNumbering(states, CaptureEvents(a, hold, amount), legs)
    requires forall i :: 0 <= i < |legs| ==> legs[i].version <= MAX_BIGINT
    ensures SoundBatch(es, EventsOfLegs(legs), ids)
  {
    var b := EventsOfLegs(legs);
    OpenHoldPlaced(es, ids, a, hold.holdId);
    CaptureSorted(b, CaptureEvents(a, hold, amount), a, hold, amount);
    assert L.IsCapture(es, b, a, hold, amount);
    CaptureVersions(states, legs, b, es, a, hold, amount);
    CaptureFolds(es, ids, b, a, hold, amount, states[a], states[hold.counterparty]);
    CaptureValid(b, a, hold, amount);
    B.CaptureRows(es, b, a, hold, amount);
  }

  lemma CaptureVersions(states: map<Account, AccountState>, legs: seq<Numbered>, b: seq<Event>, es: seq<Event>,
                        a: Account, hold: OpenHold, amount: int)
    requires b == EventsOfLegs(legs) && L.IsCapture(es, b, a, hold, amount) && InOrder(states, legs) && a in states
    requires forall i :: 0 <= i < |legs| ==> legs[i].version <= MAX_BIGINT
    ensures states[a].version + |L.CaptureSource(a, hold, amount)| <= MAX_BIGINT
  {
    B.CaptureViews(es, b, a, hold, amount);
    LastVersion(states, legs, a);
  }

  // --------------------------------------------------- every command at once

  lemma InStream(events: seq<Event>, e: Event)
    requires e in events
    ensures OnAccount(events, e.account) != []
  {
    InOnAccount(events, e.account);
    assert e in OnAccount(events, e.account);
  }

  /** Every folded stream is also written. */
  ghost predicate WritesAll(states: map<Account, AccountState>, events: seq<Event>) {
    forall a :: a in states ==> OnAccount(events, a) != []
  }

  ghost predicate OnlyNamed(c: Command, r: Reads) {
    forall a :: a in r.states ==> a == c.account || a in Named(c, r.hold, r.original)
  }

  lemma WritesPostings(c: Command, id: Id, r: Reads)
    requires Sufficient(c, r) && OnlyNamed(c, r) && ValidCommand(c) && (c.Transfer? || c.Post?)
    requires Covers(r.states, LegsOf(c)) && DecidePostings(r.states, c.account, LegsOf(c), id).Ok?
    ensures WritesAll(r.states, DecidePostings(r.states, c.account, LegsOf(c), id).value)
  {
    var legs := LegsOf(c);
    PostingSetOf(c);
    PostingEventsShape(legs, c.account, id, |legs|);
    var events := DecidePostings(r.states, c.account, legs, id).value;
    var named := Named(c, r.hold, r.original);
    forall a | a in r.states ensures OnAccount(events, a) != [] {
      if a == c.account {
        var i :| 0 <= i < |legs| && legs[i].account == a && legs[i].direction == Debit;
        InStream(events, events[i]);
      } else {
        var i :| 0 <= i < |named| && named[i] == a;
        assert legs[i].account == a;
        InStream(events, events[i]);
      }
    }
  }

  lemma WritesRevert(c: Command, id: Id, r: Reads)
    requires Sufficient(c, r) && OnlyNamed(c, r) && c.Revert?
    requires CoversEvents(r.states, r.original)
    requires DecideRevert(r.states, r.original, c.account, id, c.transferId, r.revertedBy).Ok?
    requires forall i :: 0 <= i < |r.original| ==> L.Touches(MovementLegs(r.original), r.original[i].account)
    ensures WritesAll(r.states, DecideRevert(r.states, r.original, c.account, id, c.transferId, r.revertedBy).value)
  {
    var legs := MovementLegs(r.original);
    MovementCovered(r.states, r.original);
    MirrorShape(r.states, legs, id, c.transferId);
    var events := MirrorLegs(r.states, legs, id, c.transferId).value;
    forall a | a in r.states ensures OnAccount(events, a) != [] {
      FoldedIsTouched(c, r, legs, a);
      var i :| 0 <= i < |legs| && legs[i].account == a;
      InStream(events, events[i]);
    }
  }

  lemma FoldedIsTouched(c: Command, r: Reads, legs: seq<Event>, a: Account)
    requires OnlyNamed(c, r) && c.Revert? && a in r.states
    requires exists i :: 0 <= i < |legs| && legs[i].account == c.account && BalanceSign(legs[i]) < 0
    requires forall i :: 0 <= i < |r.original| ==> L.Touches(legs, r.original[i].account)
    ensures L.Touches(legs, a)
  {
    if a != c.account {
      var named := Named(c, r.hold, r.original);
      var i :| 0 <= i < |named| && named[i] == a;
      assert r.original[i].account == a;
    }
  }

  /** Every stream a successful decision folded gets at least one of its events. */
  lemma Written(c: Command, id: Id, now: int, r: Reads)
    requires Sufficient(c, r) && OnlyNamed(c, r) && ValidCommand(c)
    requires DecideEvents(c, id, now, r).Ok?
    requires c.Revert? ==> forall i :: 0 <= i < |r.original| ==> L.Touches(MovementLegs(r.original), r.original[i].account)
    ensures WritesAll(r.states, DecideEvents(c, id, now, r).value)
  {
    NamedCovers(c, r);
    var events := DecideEvents(c, id, now, r).value;
    if c.Transfer? || c.Post? {
      WritesPostings(c, id, r);
    } else if c.Revert? {
      WritesRevert(c, id, r);
    } else if c.PostHold? {
      var a, p := c.account, r.hold.value.counterparty;
      forall k | k in r.states ensures OnAccount(events, k) != [] {
        assert k == a || k == p;
        InStream(events, if k == a then events[0] else events[1]);
      }
    } else {
      forall k | k in r.states ensures OnAccount(events, k) != [] {
        InStream(events, events[0]);
      }
    }
  }

  lemma CashIsSound(es: seq<Event>, ids: set<Id>, states: map<Account, AccountState>, a: Account, amount: int, deposit: bool, e: Event)
    requires L.Inv(es, ids) && Exact(es, states) && a in states && ValidAmount(amount)
    requires DecideCash(states[a], a, amount, deposit) == Ok(e)
    ensures e.account == a && SoundBatch(es, EventsOfLegs(NumberLegs(states, [e])), ids)
  {
    var s := StateOf(es, ids, a);
    SingleBatch(es, ids, states, e);
    assert L.IsCash([e], e);
  }

  lemma PlacementIsSound(es: seq<Event>, ids: set<Id>, states: map<Account, AccountState>, c: Command, id: Id, now: int, e: Event)
    requires L.Inv(es, ids) && id !in ids && Exact(es, states) && c.Hold? && ValidCommand(c) && c.account in states
    requires DecideHold(states[c.account], c.account, c.target, c.amount, c.ttlSeconds, id, now) == Ok(e)
    ensures e.account == c.account && SoundBatch(es, EventsOfLegs(NumberLegs(states, [e])), ids + {id})
  {
    var s := StateOf(es, ids, c.account);
    SingleBatch(es, ids, states, e);
    UnusedId(es, ids, id);
    assert L.IsPlacement(es, [e], e);
  }

  lemma ReleaseIsSound(es: seq<Event>, ids: set<Id>, states: map<Account, AccountState>, a: Account, h: Id, expire: bool,
                       now: int, e: Event)
    requires L.Inv(es, ids) && Exact(es, states) && a in states
    requires DecideReleaseHold(states[a], OpenHoldOf(h, OnAccount(es, a)), a, h, expire, now) == Ok(e)
    ensures e.account == a && SoundBatch(es, EventsOfLegs(NumberLegs(states, [e])), ids)
  {
    var s := StateOf(es, ids, a);
    var hold := OpenHoldOf(h, OnAccount(es, a)).value;
    OpenHoldPlaced(es, ids, a, h);
    SingleBatch(es, ids, states, e);
    assert L.IsRelease(es, [e], a, hold, if expire then Expired else Voided);
  }

  /** The commands that append one event. */
  lemma SingleIsSound(es: seq<Event>, ids: set<Id>, c: Command, id: Id, now: int, r: Reads)
    requires L.Inv(es, ids) && id !in ids && ValidCommand(c) && Sufficient(c, r) && Exact(es, r.states)
    requires c.Deposit? || c.Withdraw? || c.Hold? || c.VoidHold? || c.ExpireHold?
    requires HoldIdOf(c).Some? ==> r.hold == OpenHoldOf(HoldIdOf(c).value, OnAccount(es, c.account))
    requires DecideEvents(c, id, now, r).Ok?
    ensures var events := DecideEvents(c, id, now, r).value;
            && CoversEvents(r.states, events)
            && SoundBatch(es, EventsOfLegs(NumberLegs(r.states, events)), ids + {id})
  {
    var s := r.states[c.account];
    if c.Deposit? || c.Withdraw? {
      CashIsSound(es, ids, r.states, c.account, c.amount, c.Deposit?, DecideCash(s, c.account, c.amount, c.Deposit?).value);
    } else if c.Hold? {
      PlacementIsSound(es, ids, r.states, c, id, now,
                       DecideHold(s, c.account, c.target, c.amount, c.ttlSeconds, id, now).value);
    } else {
      ReleaseIsSound(es, ids, r.states, c.account, c.holdId, c.ExpireHold?, now,
                     DecideReleaseHold(s, r.hold, c.account, c.holdId, c.ExpireHold?, now).value);
    }
  }

  /** What a decision read from one log is exactly what that log says. */
  ghost predicate ExactReads(es: seq<Event>, c: Command, r: Reads) {
    && Sufficient(c, r) && OnlyNamed(c, r) && Exact(es, r.states)
    && r.hold == (if HoldIdOf(c).Some? then OpenHoldOf(HoldIdOf(c).value, OnAccount(es, c.account)) else None)
    && r.original == (if c.Revert? then OnSet(es, c.transferId) else [])
    && r.revertedBy == (if c.Revert? then RevertedBy(es, c.transferId) else None)
  }

  /** The legs of a decision are its events, numbered, within the version range. */
  lemma DecideNumbers(c: Command, id: Id, now: int, r: Reads, legs: seq<Numbered>)
    requires Sufficient(c, r) && Decide(c, id, now, r) == Ok(legs)
    ensures DecideEvents(c, id, now, r).Ok?
    ensures var events := DecideEvents(c, id, now, r).value;
            && CoversEvents(r.states, events) && legs == NumberLegs(r.states, events)
            && IsNumbering(r.states, events, legs)
    ensures KeysAscend(legs)
    ensures forall i :: 0 <= i < |legs| ==> legs[i].version <= MAX_BIGINT
  {
    EventsCovered(c, id, now, r);
    NumberLegsSpec(r.states, DecideEvents(c, id, now, r).value);
  }

  lemma CaptureIsSound(es: seq<Event>, ids: set<Id>, c: Command, id: Id, now: int, r: Reads, legs: seq<Numbered>)
    requires L.Inv(es, ids) && ValidCommand(c) && c.PostHold? && ExactReads(es, c, r)
    requires Decide(c, id, now, r) == Ok(legs)
    ensures SoundBatch(es, EventsOfLegs(legs), ids)
  {
    DecideNumbers(c, id, now, r, legs);
    var amount := CaptureAccepted(c, id, now, r);
    OpenHoldPlaced(es, ids, c.account, c.holdId);
    CaptureBatch(es, ids, c.account, r.hold.value, amount, r.states, legs);
  }

  /** What an accepted settlement checked, and the events it decided. */
  lemma CaptureAccepted(c: Command, id: Id, now: int, r: Reads) returns (amount: int)
    requires c.PostHold? && Sufficient(c, r) && DecideEvents(c, id, now, r).Ok?
    ensures r.hold.Some? && r.hold.value.counterparty in r.states
    ensures amount == if c.capture.None? then r.hold.value.amount else c.capture.value
    ensures r.hold.value.holdId == c.holdId ==>
              DecideEvents(c, id, now, r).value == CaptureEvents(c.account, r.hold.value, amount)
    ensures amount <= r.hold.value.amount <= r.states[c.account].held
    ensures HasNextVersion(r.states[r.hold.value.counterparty]) && CreditFits(r.states[r.hold.value.counterparty], amount)
  {
    NamedCovers(c, r);
    amount := if c.capture.None? then r.hold.value.amount else c.capture.value;
  }

  /** Decision soundness: the legs of every accepted command form a batch that applies to
      all its streams and keeps the ledger invariant, and every folded stream is written. */
  lemma DecisionSound(es: seq<Event>, ids: set<Id>, c: Command, id: Id, now: int, r: Reads, legs: seq<Numbered>)
    requires L.Inv(es, ids) && id !in ids && ValidCommand(c) && ExactReads(es, c, r)
    requires Decide(c, id, now, r) == Ok(legs)
    ensures SoundBatch(es, EventsOfLegs(legs), ids + {id})
    ensures InOrder(r.states, legs) && KeysAscend(legs)
    ensures WritesAll(r.states, EventsOfLegs(legs))
  {
    DecideNumbers(c, id, now, r, legs);
    AllWritten(es, ids, c, id, now, r, legs);
    NamedCovers(c, r);
    if c.Transfer? || c.Post? {
      PostingBatch(es, ids, c, id, r.states);
    } else if c.Revert? {
      RevertReads(es, ids, c, id, now, r);
      RevertBatch(es, ids, id, c.transferId, r.states);
    } else if c.PostHold? {
      CaptureIsSound(es, ids, c, id, now, r, legs);
    } else {
      SingleIsSound(es, ids, c, id, now, r);
    }
  }

  lemma AllWritten(es: seq<Event>, ids: set<Id>, c: Command, id: Id, now: int, r: Reads, legs: seq<Numbered>)
    requires L.Inv(es, ids) && ValidCommand(c) && ExactReads(es, c, r)
    requires Decide(c, id, now, r) == Ok(legs)
    ensures WritesAll(r.states, EventsOfLegs(legs))
  {
    DecideNumbers(c, id, now, r, legs);
    if c.Revert? { RevertReads(es, ids, c, id, now, r); }
    Written(c, id, now, r);
    var events := DecideEvents(c, id, now, r).value;
    forall a | a in r.states ensures OnAccount(EventsOfLegs(legs), a) != [] {
      assert OnAccount(EventsOfLegs(legs), a) == OnAccount(events, a);
    }
  }

  lemma RevertReads(es: seq<Event>, ids: set<Id>, c: Command, id: Id, now: int, r: Reads)
    requires L.Inv(es, ids) && ExactReads(es, c, r) && c.Revert? && DecideEvents(c, id, now, r).Ok?
    ensures Movements(es, c.transferId) != [] && RevertedBy(es, c.transferId).None?
    ensures CoversEvents(r.states, Movements(es, c.transferId))
    ensures MirrorLegs(r.states, Movements(es, c.transferId), id, c.transferId) == DecideEvents(c, id, now, r)
    ensures forall i :: 0 <= i < |r.original| ==> L.Touches(MovementLegs(r.original), r.original[i].account)
  {
    NamedCovers(c, r);
    MovementCovered(r.states, r.original);
    assert L.RowsCovered(es, c.transferId);
  }
}
