/** Rebuilding the read models: every delivery order that keeps each stream's order gives the
    same tables, and they say what the log says.

    A set is always delivered before its reversal touches it, because the reversal writes the
    very streams the set wrote. So no order across streams has to be assumed. */
module Rebuild {
  import opened Events
  import opened Accounts
  import opened Views
  import opened Commands
  import opened Execution
  import opened Numbering
  import opened Soundness
  import opened Runs
  import opened LedgerTheorems
  import opened Projection
  import L = Ledger
  import B = Batches

  // --------------------------------------------------------------- causality

  /** What an event relies on is already in its own stream. */
  ghost predicate Supported(s: seq<Event>, e: Event) {
    && (RevertsColumn(e).Some? ==> FirstLeg(s, RevertsColumn(e).value).Some?)
    && (forall h :: Closes(e, h) ==> StatusOf(h, s).Open?)
    && (e.HoldPlaced? ==> StatusOf(e.holdId, s).Unseen?)
  }

  ghost predicate Causal(s: seq<Event>) {
    s == [] || (Causal(s[..|s| - 1]) && Supported(s[..|s| - 1], s[|s| - 1]))
  }

  ghost predicate StreamsCausal(es: seq<Event>) {
    forall a :: Causal(OnAccount(es, a))
  }

  lemma CausalPlus(s: seq<Event>, e: Event)
    requires Causal(s) && Supported(s, e)
    ensures Causal(s + [e])
  {
    assert (s + [e])[..|s|] == s;
  }

  /** Rows that rely on nothing. */
  ghost predicate Plain(e: Event) {
    RevertsColumn(e).None? && !e.HoldPlaced? && !e.HoldPosted? && (e.HoldReleased? ==> e.reason == Partial)
  }

  lemma PlainSupported(s: seq<Event>, e: Event)
    requires Plain(e)
    ensures Supported(s, e)
  {}

  lemma {:induction false} PlainKeeps(s: seq<Event>, t: seq<Event>)
    requires Causal(s) && forall i :: 0 <= i < |t| ==> Plain(t[i])
    ensures Causal(s + t)
    decreases |t|
  {
    hide Supported, Plain;
    if t == [] {
      assert s + t == s;
    } else {
      var n := |t| - 1;
      PlainKeeps(s, t[..n]);
      PlainSupported(s + t[..n], t[n]);
      CausalPlus(s + t[..n], t[n]);
      assert s + t == s + t[..n] + [t[n]];
    }
  }

  lemma PlainBatch(es: seq<Event>, b: seq<Event>)
    requires StreamsCausal(es) && forall i :: 0 <= i < |b| ==> Plain(b[i])
    ensures StreamsCausal(es + b)
  {
    forall a ensures Causal(OnAccount(es + b, a)) {
      OnAccountConcat(es, b, a);
      InOnAccount(b, a);
      var t := OnAccount(b, a);
      forall i | 0 <= i < |t| ensures Plain(t[i]) { assert t[i] in b; }
      PlainKeeps(OnAccount(es, a), t);
    }
  }

  lemma OneSupported(es: seq<Event>, e: Event)
    requires StreamsCausal(es) && Supported(OnAccount(es, e.account), e)
    ensures StreamsCausal(es + [e])
  {
    hide Supported;
    forall a ensures Causal(OnAccount(es + [e], a)) {
      B.StreamPlus(es, e, a);
      if e.account == a { CausalPlus(OnAccount(es, a), e); }
    }
  }

  lemma {:induction false} FirstLegFound(s: seq<Event>, t: Id, e: Event)
    requires e in s && IsMovement(e) && SetId(e) == Some(t)
    ensures FirstLeg(s, t).Some?
  {
    var n := |s| - 1;
    if s[n] != e { FirstLegFound(s[..n], t, e); }
  }

  /** The mirrored leg of a reversal is supported by the leg it mirrors. */
  lemma MirrorSupported(es: seq<Event>, r: Id, t: Id, i: nat)
    requires i < |Movements(es, t)|
    ensures var e := MirrorEvent(Movements(es, t)[i], r, t);
            Supported(OnAccount(es, e.account), e)
  {
    var leg := Movements(es, t)[i];
    InMovementLegs(OnSet(es, t));
    assert leg in Movements(es, t);
    InOnSet(es, t);
    InOnAccount(es, leg.account);
    FirstLegFound(OnAccount(es, leg.account), t, leg);
  }

  lemma ReversalCausal(es: seq<Event>, b: seq<Event>, r: Id, t: Id)
    requires StreamsCausal(es) && L.SetsBalanced(es) && L.IsReversal(es, b, r, t)
    ensures StreamsCausal(es + b)
  {
    hide Supported, Movements;
    var legs := Movements(es, t);
    assert L.Balanced(legs);
    assert Distinct(b);
    forall a ensures Causal(OnAccount(es + b, a)) {
      OnAccountConcat(es, b, a);
      OneEach(b, a);
      if OnAccount(b, a) == [] {
        assert OnAccount(es, a) + [] == OnAccount(es, a);
      } else {
        var i :| 0 <= i < |b| && b[i].account == a && OnAccount(b, a) == [b[i]];
        MirrorSupported(es, r, t, i);
        CausalPlus(OnAccount(es, a), b[i]);
      }
    }
  }

  lemma OpenIsOpen(h: Id, s: seq<Event>, hold: OpenHold)
    requires OpenHoldOf(h, s) == Some(hold)
    ensures StatusOf(h, s).Open?
  {}

  lemma CaptureCausal(es: seq<Event>, b: seq<Event>, a: Account, hold: OpenHold, amount: int)
    requires StreamsCausal(es) && L.IsCapture(es, b, a, hold, amount)
    ensures StreamsCausal(es + b)
  {
    hide Causal, Supported, OnAccount;
    B.CaptureViews(es, b, a, hold, amount);
    CaptureAccounts(b, a, hold, amount);
    var c := hold.counterparty;
    forall k ensures Causal(OnAccount(es + b, k)) {
      OnAccountConcat(es, b, k);
      if k != a && k != c { B.NoneOn(b, k); }
      CapturedStream(OnAccount(es, k), OnAccount(b, k), a, hold, amount);
    }
  }

  lemma CapturedStream(s: seq<Event>, t: seq<Event>, a: Account, hold: OpenHold, amount: int)
    requires Causal(s)
    requires t == [] || t == L.CaptureTarget(a, hold, amount) ||
             (t == L.CaptureSource(a, hold, amount) && OpenHoldOf(hold.holdId, s) == Some(hold))
    ensures Causal(s + t)
  {
    hide Causal, Supported, L.CaptureSource, OpenHoldOf;
    if t == [] {
      assert s + t == s;
    } else if t == L.CaptureTarget(a, hold, amount) {
      PlainKeeps(s, t);
    } else {
      CaptureSourceCausal(s, a, hold, amount);
    }
  }

  lemma CaptureSourceCausal(s: seq<Event>, a: Account, hold: OpenHold, amount: int)
    requires Causal(s) && OpenHoldOf(hold.holdId, s) == Some(hold)
    ensures Causal(s + L.CaptureSource(a, hold, amount))
  {
    var posted := HoldPosted(a, amount, hold.holdId, hold.counterparty);
    var released := HoldReleased(a, hold.amount - amount, hold.holdId, Partial);
    OpenIsOpen(hold.holdId, s, hold);
    CausalPlus(s, posted);
    PlainSupported(s + [posted], released);
    CausalPlus(s + [posted], released);
    assert s + [posted, released] == s + [posted] + [released];
  }

  /** Every batch of the ledger keeps causality. */
  lemma BatchCausal(es: seq<Event>, b: seq<Event>)
    requires StreamsCausal(es) && L.SetsBalanced(es) && L.GoodBatch(es, b)
    ensures StreamsCausal(es + b)
  {
    hide StreamsCausal, Supported;
    if e :| L.IsCash(b, e) {
      PlainBatch(es, b);
    } else if t :| L.IsPosting(es, b, t) {
      PlainBatch(es, b);
    } else if r, t :| L.IsReversal(es, b, r, t) {
      ReversalCausal(es, b, r, t);
    } else if e :| L.IsPlacement(es, b, e) {
      L.UnusedOnStream(es, e.holdId, e.account);
      assert Supported(OnAccount(es, e.account), e) by { PlacementSupported(OnAccount(es, e.account), e); }
      OneSupported(es, e);
    } else if a, hold, amount :| L.IsCapture(es, b, a, hold, amount) {
      CaptureCausal(es, b, a, hold, amount);
    } else {
      var a, hold, reason :| L.IsRelease(es, b, a, hold, reason);
      var e := HoldReleased(a, hold.amount, hold.holdId, reason);
      OpenIsOpen(hold.holdId, OnAccount(es, a), hold);
      assert Supported(OnAccount(es, a), e) by { ReleaseSupported(OnAccount(es, a), e); }
      OneSupported(es, e);
    }
  }

  lemma PlacementSupported(s: seq<Event>, e: Event)
    requires e.HoldPlaced? && StatusOf(e.holdId, s) == Unseen
    ensures Supported(s, e)
  {}

  lemma ReleaseSupported(s: seq<Event>, e: Event)
    requires e.HoldReleased? && StatusOf(e.holdId, s).Open?
    ensures Supported(s, e)
  {}

  /** Every reachable log is causal. */
  lemma {:induction false} RunCausal(qs: seq<Request>)
    requires ValidRun(qs)
    ensures StreamsCausal(EventsOf(Run(qs).log))
  {
    hide Execute, Decide, ExactReads, L.GoodBatch, Contiguous;
    if qs == [] {
      assert EventsOf([]) == [];
      assert forall a :: OnAccount([], a) == [];
    } else {
      var n := |qs| - 1;
      var db := Run(qs[..n]);
      RunCausal(qs[..n]);
      RunKeeps(qs[..n]);
      StepCausal(db, qs[n]);
    }
  }

  lemma StepCausal(db: Db, q: Request)
    requires DbInv(db) && ValidCommand(q.command) && StreamsCausal(EventsOf(db.log))
    ensures StreamsCausal(EventsOf(Execute(db, q).0.log))
  {
    hide Execute, Decide, ExactReads, L.GoodBatch, Contiguous, StreamsCausal;
    if Execute(db, q).0.log != db.log {
      var r, legs := StepAppends(db, q);
      DecisionSound(EventsOf(db.log), db.results.Keys, q.command, q.id, q.now, r, legs);
      EventsConcat(db.log, Stamp(legs, q.firstEventId));
      BatchCausal(EventsOf(db.log), EventsOfLegs(legs));
    }
  }

  // --------------------------------------------------------- delivery orders

  /** `p` delivers the events of `l`, each stream in its own order. */
  ghost predicate Delivers(p: seq<Event>, l: seq<Event>) {
    forall a :: OnAccount(p, a) == OnAccount(l, a)
  }

  lemma CausalPrefix(p: seq<Event>)
    requires p != [] && StreamsCausal(p)
    ensures StreamsCausal(p[..|p| - 1])
    ensures var e := p[|p| - 1]; Supported(OnAccount(p[..|p| - 1], e.account), e)
  {
    var n := |p| - 1;
    var e := p[n];
    hide Supported;
    forall a ensures Causal(OnAccount(p[..n], a)) {
      assert Causal(OnAccount(p, a));
      if e.account == a { LastOfStream(p, a); }
    }
    LastOfStream(p, e.account);
    assert Causal(OnAccount(p, e.account));
  }

  lemma LastOfStream(p: seq<Event>, a: Account)
    requires p != [] && p[|p| - 1].account == a
    ensures var s := OnAccount(p, a);
            s != [] && s[..|s| - 1] == OnAccount(p[..|p| - 1], a) && s[|s| - 1] == p[|p| - 1]
  {}

  lemma {:induction false} FirstLegOnStream(p: seq<Event>, a: Account, t: Id)
    requires FirstLeg(OnAccount(p, a), t).Some?
    ensures FirstLeg(p, t).Some?
  {
    if p != [] {
      var n := |p| - 1;
      if p[n].account == a {
        LastOfStream(p, a);
        if FirstLeg(OnAccount(p[..n], a), t).Some? { FirstLegOnStream(p[..n], a, t); }
      } else {
        FirstLegOnStream(p[..n], a, t);
      }
    }
  }

  // ---------------------------------------------------------- transfers table

  /** Some leg of set `t` claims kind `k`. */
  ghost predicate HasKind(events: seq<Event>, t: Id, k: Kind) {
    exists e :: e in events && IsMovement(e) && SetId(e) == Some(t) && KindOf(e) == k
  }

  /** The kind of a set, whatever order its legs arrived in. */
  ghost function SetKind(events: seq<Event>, t: Id): Kind {
    if HasKind(events, t, ReversalKind) then ReversalKind
    else if HasKind(events, t, HoldPostingKind) then HoldPostingKind
    else TransferKind
  }

  lemma HasKindPlus(s: seq<Event>, e: Event, t: Id, k: Kind)
    ensures HasKind(s + [e], t, k) <==> HasKind(s, t, k) || (IsMovement(e) && SetId(e) == Some(t) && KindOf(e) == k)
  {
    if HasKind(s, t, k) {
      var x :| x in s && IsMovement(x) && SetId(x) == Some(t) && KindOf(x) == k;
      assert x in s + [e];
    }
    if IsMovement(e) && SetId(e) == Some(t) && KindOf(e) == k { assert e in s + [e]; }
  }

  lemma SetKindPlus(s: seq<Event>, e: Event, t: Id)
    ensures SetKind(s + [e], t) == if IsMovement(e) && SetId(e) == Some(t) then UpsertKind(SetKind(s, t), KindOf(e)) else SetKind(s, t)
  {
    hide HasKind;
    forall k { HasKindPlus(s, e, t, k); }
  }

  lemma {:induction false} NoKind(s: seq<Event>, t: Id)
    requires FirstLeg(s, t).None?
    ensures SetKind(s, t) == TransferKind
  {
    if s != [] {
      var n := |s| - 1;
      NoKind(s[..n], t);
      SetKindPlus(s[..n], s[n], t);
      assert s == s[..n] + [s[n]];
    }
  }

  /** What the transfers table says about set `t`. */
  ghost function TransferOf(events: seq<Event>, t: Id): Option<TransferRow> {
    var leg := FirstLeg(events, t);
    if leg.None? then None else Some(TransferRow(SetKind(events, t), RevertsColumn(leg.value), RevertedBy(events, t)))
  }

  function Lookup(rows: map<Id, TransferRow>, t: Id): Option<TransferRow> {
    if t in rows then Some(rows[t]) else None
  }

  /** Nobody names a set that has not arrived. */
  ghost predicate NamedAfter(p: seq<Event>) {
    p == [] || (NamedAfter(p[..|p| - 1]) &&
                (RevertsColumn(p[|p| - 1]).Some? ==> FirstLeg(p[..|p| - 1], RevertsColumn(p[|p| - 1]).value).Some?))
  }

  lemma {:induction false} CausalNames(p: seq<Event>)
    requires StreamsCausal(p)
    ensures NamedAfter(p)
  {
    hide StreamsCausal;
    if p != [] {
      var n := |p| - 1;
      CausalPrefix(p);
      CausalNames(p[..n]);
      if RevertsColumn(p[n]).Some? { FirstLegOnStream(p[..n], p[n].account, RevertsColumn(p[n]).value); }
    }
  }

  lemma {:induction false} UnnamedIsUnreverted(p: seq<Event>, t: Id)
    requires NamedAfter(p) && FirstLeg(p, t).None?
    ensures RevertedBy(p, t).None?
  {
    if p != [] { UnnamedIsUnreverted(p[..|p| - 1], t); }
  }

  /** One event on one row of the table. */
  lemma TransferStep(rows: map<Id, TransferRow>, e: Event, t: Id)
    requires ValidEvent(e)
    ensures var own := IsMovement(e) && SetId(e) == Some(t);
            var marks := RevertsColumn(e) == Some(t);
            var before := Lookup(rows, t);
            Lookup(ApplyTransfer(rows, e), t) ==
              if own && before.None? then Some(TransferRow(KindOf(e), RevertsColumn(e), None))
              else if own then Some(before.value.(kind := UpsertKind(before.value.kind, KindOf(e))))
              else if marks && before.Some? && before.value.revertedBy.None? then Some(before.value.(revertedBy := SetId(e)))
              else before
  {}

  lemma ProjectPlus(s: seq<Event>, e: Event)
    ensures Project(s + [e]) == ApplyTables(Project(s), e)
  {
    assert (s + [e])[..|s|] == s;
  }

  lemma TransferViewsPlus(s: seq<Event>, e: Event, t: Id)
    ensures FirstLeg(s + [e], t) ==
            if FirstLeg(s, t).Some? then FirstLeg(s, t) else if IsMovement(e) && SetId(e) == Some(t) then Some(e) else None
    ensures RevertedBy(s + [e], t) ==
            if RevertedBy(s, t).Some? then RevertedBy(s, t) else if RevertsColumn(e) == Some(t) then SetId(e) else None
  {
    assert (s + [e])[..|s|] == s;
  }

  /** The transfers table of a causal delivery says what the set's rows say. */
  lemma {:induction false} TransfersMean(p: seq<Event>, t: Id)
    requires NamedAfter(p) && AllValid(p)
    ensures Lookup(Project(p).transfers, t) == TransferOf(p, t)
  {
    if p != [] {
      var n := |p| - 1;
      var s, e := p[..n], p[n];
      assert p == s + [e];
      TransfersMean(s, t);
      if FirstLeg(s, t).None? {
        NoKind(s, t);
        UnnamedIsUnreverted(s, t);
      }
      TransferStep(Project(s).transfers, e, t);
      ProjectPlus(s, e);
      SetKindPlus(s, e, t);
      TransferViewsPlus(s, e, t);
      hide Project, ApplyTransfer, SetKind, FirstLeg, RevertedBy, NamedAfter, ApplyBalance, ApplyHold, ApplyLeg;
    }
  }

  // -------------------------------------------------------------- holds table

  /** The state named by the last row that closes hold `h`. */
  function ClosedAs(s: seq<Event>, h: Id): HoldState {
    if s == [] then OpenState
    else
      var e := s[|s| - 1];
      if !Closes(e, h) then ClosedAs(s[..|s| - 1], h)
      else if e.HoldPosted? then PostedState
      else if e.reason == Voided then VoidedState else ExpiredState
  }

  /** A causal stream's hold row is the open-hold derivation plus the way the hold closed. */
  lemma {:induction false} HoldsMean(s: seq<Event>, h: Id)
    requires Causal(s)
    ensures HoldLookup(s, h).None? <==> StatusOf(h, s).Unseen?
    ensures HoldLookup(s, h).Some? ==>
              var row := HoldLookup(s, h).value;
              && row.state == ClosedAs(s, h)
              && (row.state == OpenState <==> StatusOf(h, s).Open?)
              && (row.state == OpenState ==> StatusOf(h, s).hold == OpenHold(h, row.amount, row.target, row.expiresAt))
    ensures StatusOf(h, s).Unseen? ==> ClosedAs(s, h) == OpenState
  {
    hide ApplyBalance, ApplyTransfer, ApplyLeg, FirstLeg;
    if s != [] {
      var n := |s| - 1;
      HoldsMean(s[..n], h);
    }
  }

  /** A hold row keeps the terms of a placement, whatever became of the hold. */
  lemma {:induction false} HoldRowPlaced(s: seq<Event>, h: Id)
    ensures HoldLookup(s, h).Some? ==>
              var row := HoldLookup(s, h).value;
              HoldPlaced(row.source, row.amount, h, row.target, row.expiresAt) in s
  {
    hide ApplyBalance, ApplyTransfer, ApplyLeg;
    if s != [] {
      var n := |s| - 1;
      HoldRowPlaced(s[..n], h);
      assert s == s[..n] + [s[n]];
    }
  }

  // ------------------------------------------------------------ the theorem

  lemma DeliversSame(p: seq<Event>, l: seq<Event>)
    requires Delivers(p, l)
    ensures forall e :: e in p <==> e in l
    ensures StreamsCausal(l) ==> StreamsCausal(p)
    ensures AllValid(l) ==> AllValid(p)
  {
    SameMembers(p, l);
    if StreamsCausal(l) {
      forall a ensures Causal(OnAccount(p, a)) { assert Causal(OnAccount(l, a)); }
    }
    if AllValid(l) {
      forall i | 0 <= i < |p| ensures ValidEvent(p[i]) { assert p[i] in l; }
    }
  }

  lemma SameKind(p: seq<Event>, l: seq<Event>, t: Id)
    requires forall e :: e in p <==> e in l
    ensures SetKind(p, t) == SetKind(l, t)
  {
    forall k ensures HasKind(p, t, k) <==> HasKind(l, t, k) {}
  }

  lemma {:induction false} FirstLegIn(s: seq<Event>, t: Id)
    ensures FirstLeg(s, t).Some? ==>
              var e := FirstLeg(s, t).value; e in s && IsMovement(e) && SetId(e) == Some(t)
  {
    if s != [] { FirstLegIn(s[..|s| - 1], t); }
  }

  /** Whichever leg came first, it names the same reverted set. */
  lemma SameFirst(p: seq<Event>, l: seq<Event>, t: Id)
    requires (forall e :: e in p <==> e in l) && L.MovementsAgree(l)
    ensures FirstLeg(p, t).Some? <==> FirstLeg(l, t).Some?
    ensures FirstLeg(p, t).Some? ==> RevertsColumn(FirstLeg(p, t).value) == RevertsColumn(FirstLeg(l, t).value)
  {
    FirstLegIn(p, t);
    FirstLegIn(l, t);
    if FirstLeg(p, t).Some? { FirstLegFound(l, t, FirstLeg(p, t).value); }
    if FirstLeg(l, t).Some? { FirstLegFound(p, t, FirstLeg(l, t).value); }
  }

  lemma SameReversal(p: seq<Event>, l: seq<Event>, t: Id)
    requires (forall e :: e in p <==> e in l) && L.RevertedOnce(l)
    ensures RevertedBy(p, t) == RevertedBy(l, t)
  {
    RevertedByReads(p, t);
    RevertedByReads(l, t);
    if RevertedBy(p, t).Some? {
      var i :| 0 <= i < |p| && RevertsColumn(p[i]) == Some(t) && SetId(p[i]) == RevertedBy(p, t);
      assert p[i] in l;
    }
    if RevertedBy(l, t).Some? {
      var j :| 0 <= j < |l| && RevertsColumn(l[j]) == Some(t) && SetId(l[j]) == RevertedBy(l, t);
      assert l[j] in p;
    }
  }

  lemma SameTransfer(p: seq<Event>, l: seq<Event>, t: Id)
    requires (forall e :: e in p <==> e in l) && L.MovementsAgree(l) && L.RevertedOnce(l)
    ensures TransferOf(p, t) == TransferOf(l, t)
  {
    hide SetKind, FirstLeg, RevertedBy, L.MovementsAgree, L.RevertedOnce;
    SameKind(p, l, t);
    SameFirst(p, l, t);
    SameReversal(p, l, t);
  }

  /** The account all rows of a hold are on. */
  lemma HoldHome(p: seq<Event>, l: seq<Event>, h: Id) returns (a: Account)
    requires (forall e :: e in p <==> e in l) && L.HoldsTogether(l)
    ensures HoldOn(p, h, a) && HoldOn(l, h, a)
  {
    if i :| 0 <= i < |l| && IsHoldEvent(l[i]) && l[i].holdId == h {
      a := l[i].account;
      forall k | 0 <= k < |p| && IsHoldEvent(p[k]) && p[k].holdId == h ensures p[k].account == a { assert p[k] in l; }
    } else {
      a := 0;
      forall k | 0 <= k < |p| ensures !(IsHoldEvent(p[k]) && p[k].holdId == h) { assert p[k] in l; }
    }
  }

  lemma SameHold(p: seq<Event>, l: seq<Event>, h: Id)
    requires Delivers(p, l) && (forall e :: e in p <==> e in l) && L.HoldsTogether(l)
    ensures HoldLookup(p, h) == HoldLookup(l, h)
  {
    hide HoldLookup, OnAccount;
    var a := HoldHome(p, l, h);
    HoldsLocal(p, h, a);
    HoldsLocal(l, h, a);
    assert OnAccount(p, a) == OnAccount(l, a);
  }

  lemma SameBalance(p: seq<Event>, l: seq<Event>, a: Account)
    requires OnAccount(p, a) == OnAccount(l, a)
    ensures a in Project(p).balances <==> a in Project(l).balances
    ensures a in Project(p).balances ==> Project(p).balances[a] == Project(l).balances[a]
  {
    hide Project;
    BalancesMean(p, a);
    BalancesMean(l, a);
  }

  lemma SameLeg(p: seq<Event>, l: seq<Event>, key: (Id, Account))
    requires OnAccount(p, key.1) == OnAccount(l, key.1)
    ensures key in Project(p).legs <==> key in Project(l).legs
    ensures key in Project(p).legs ==> Project(p).legs[key] == Project(l).legs[key]
  {
    hide Project;
    LegsMean(p, key.0, key.1);
    LegsMean(l, key.0, key.1);
    assert key == (key.0, key.1);
  }

  lemma SameTransferRow(p: seq<Event>, l: seq<Event>, t: Id)
    requires Delivers(p, l) && StreamsCausal(l) && AllValid(l) && L.MovementsAgree(l) && L.RevertedOnce(l)
    ensures t in Project(p).transfers <==> t in Project(l).transfers
    ensures t in Project(p).transfers ==> Project(p).transfers[t] == Project(l).transfers[t]
    ensures t in Project(l).transfers ==> Some(Project(l).transfers[t]) == TransferOf(l, t)
  {
    hide Project, TransferOf, NamedAfter, StreamsCausal, Delivers, L.MovementsAgree, L.RevertedOnce;
    DeliversSame(p, l);
    CausalNames(p);
    CausalNames(l);
    TransfersMean(p, t);
    TransfersMean(l, t);
    SameTransfer(p, l, t);
  }

  /** Any two deliveries that keep each stream's order build the same tables. */
  lemma RebuildIsUnique(l: seq<Event>, ids: set<Id>, p: seq<Event>)
    requires L.Inv(l, ids) && StreamsCausal(l) && Delivers(p, l)
    ensures Project(p) == Project(l)
  {
    DeliversSame(p, l);
    var x, y := Project(p), Project(l);
    forall a ensures a in x.balances <==> a in y.balances
      ensures a in x.balances ==> x.balances[a] == y.balances[a] { SameBalance(p, l, a); }
    forall h ensures HoldLookup(p, h) == HoldLookup(l, h) { SameHold(p, l, h); }
    forall t ensures t in x.transfers <==> t in y.transfers
      ensures t in x.transfers ==> x.transfers[t] == y.transfers[t] { SameTransferRow(p, l, t); }
    forall k ensures k in x.legs <==> k in y.legs
      ensures k in x.legs ==> x.legs[k] == y.legs[k] { SameLeg(p, l, k); }
    hide Project, StreamsCausal, L.Inv, Delivers;
    assert x.balances == y.balances;
    assert x.holds == y.holds by {
      forall h ensures h in x.holds <==> h in y.holds
        ensures h in x.holds ==> x.holds[h] == y.holds[h] { assert HoldLookup(p, h) == HoldLookup(l, h); }
    }
    assert x.transfers == y.transfers;
    assert x.legs == y.legs;
  }

  /** The tables rebuilt from the log of any run, delivered in any order that keeps each
      stream's own, agree with what the write side derives from the log: the folded state of
      every account, the open holds, and which set reverted which. */
  lemma RebuildMatchesTheLog(qs: seq<Request>, p: seq<Event>, a: Account, h: Id, t: Id)
    requires ValidRun(qs) && Delivers(p, EventsOf(Run(qs).log))
    ensures var log := Run(qs).log;
            var es := EventsOf(log);
            && Project(p) == Project(es)
            && FoldStream(log, a).Ok?
            && (a in Project(p).balances <==> Stream(log, a) != [])
            && (a in Project(p).balances ==>
                  Project(p).balances[a] == BalanceRow(FoldStream(log, a).value.balance, FoldStream(log, a).value.held,
                                                       FoldStream(log, a).value.version))
            && (OpenHoldOf(h, Stream(log, a)).Some? ==>
                  h in Project(p).holds &&
                  var hold := OpenHoldOf(h, Stream(log, a)).value;
                  Project(p).holds[h] == HoldRow(a, hold.counterparty, hold.amount, hold.expiresAt, OpenState))
            && (h in Project(p).holds && Project(p).holds[h].state == OpenState ==>
                  OpenHoldOf(h, Stream(log, Project(p).holds[h].source)).Some?)
            && (t in Project(p).transfers <==> Movements(es, t) != [])
            && (t in Project(p).transfers ==> Project(p).transfers[t].revertedBy == RevertedBy(es, t))
            && (t in Project(p).transfers ==> KindMeans(es, t, Project(p).transfers[t].kind))
            && (t in Project(p).transfers ==> RevertsMeans(es, t, Project(p).transfers[t].reverts))
            && (h in Project(p).holds ==>
                  var row := Project(p).holds[h];
                  && HoldPlaced(row.source, row.amount, h, row.target, row.expiresAt) in es
                  && row.state == ClosedAs(Stream(log, row.source), h))
            && ((t, a) in Project(p).legs <==> L.Touches(Movements(es, t), a))
            && (forall i :: 0 <= i < |Movements(es, t)| && Movements(es, t)[i].account == a ==>
                  Project(p).legs[(t, a)] == LegRowOf(Movements(es, t)[i]))
  {
    var db := Run(qs);
    var es, ids := EventsOf(db.log), db.results.Keys;
    RunKeeps(qs);
    RunCausal(qs);
    hide Run, Project, StreamsCausal, L.Inv, Delivers, Contiguous, RevertedBy, Movements, KindMeans, RevertsMeans, ClosedAs;
    RebuildIsUnique(es, ids, p);
    var s := StateOf(es, ids, a);
    BalancesMean(es, a);
    HoldTable(es, ids, a, h);
    TransferTable(es, ids, t);
    KindTable(es, ids, t);
    LegTable(es, ids, t, a);
  }

  function LegRowOf(leg: Event): LegRow { LegRow(leg.amount, if BalanceSign(leg) < 0 then Debit else Credit) }

  lemma BalancedSet(es: seq<Event>, ids: set<Id>, t: Id)
    requires L.Inv(es, ids)
    ensures L.Balanced(Movements(es, t))
  {}

  /** The legs table lists exactly the movement legs of each set. */
  lemma LegTable(es: seq<Event>, ids: set<Id>, t: Id, a: Account)
    requires L.Inv(es, ids)
    ensures (t, a) in Project(es).legs <==> L.Touches(Movements(es, t), a)
    ensures forall i :: 0 <= i < |Movements(es, t)| && Movements(es, t)[i].account == a ==>
              (t, a) in Project(es).legs && Project(es).legs[(t, a)] == LegRowOf(Movements(es, t)[i])
  {
    hide L.Inv, Project, OnAccount, OnSet, MovementLegs, FirstLeg, BalanceSum;
    BalancedSet(es, ids, t);
    LegsMean(es, t, a);
    InOnAccount(es, a);
    InOnSet(es, t);
    InMovementLegs(OnSet(es, t));
    var legs, own := Movements(es, t), OnAccount(es, a);
    FirstLegIn(own, t);
    if FirstLeg(own, t).Some? {
      var first := FirstLeg(own, t).value;
      assert first in legs;
      var k :| 0 <= k < |legs| && legs[k] == first;
    }
    forall i | 0 <= i < |legs| && legs[i].account == a ensures FirstLeg(own, t) == Some(legs[i]) {
      assert legs[i] in legs;
      FirstLegFound(own, t, legs[i]);
    }
  }

  /** Some row of set `t` is a reversal leg. */
  ghost predicate HasReversal(es: seq<Event>, t: Id) {
    exists e :: e in es && (e.ReversalDebited? || e.ReversalCredited?) && e.transferId == t
  }

  /** Some row of set `t` settles a hold. */
  ghost predicate HasSettlement(es: seq<Event>, t: Id) {
    exists e :: e in es && e.HoldPosted? && e.holdId == t
  }

  /** What the kind column says, in terms of the rows of the set. */
  ghost predicate KindMeans(es: seq<Event>, t: Id, kind: Kind) {
    && (kind == ReversalKind <==> HasReversal(es, t))
    && (kind == HoldPostingKind <==> HasSettlement(es, t))
    && (kind == TransferKind <==> !HasReversal(es, t) && !HasSettlement(es, t))
  }

  /** What the reverts column says: the set the reversal rows name, if there are any. */
  ghost predicate RevertsMeans(es: seq<Event>, t: Id, reverts: Option<Id>) {
    && (reverts.Some? <==> HasReversal(es, t))
    && (forall e :: e in es && (e.ReversalDebited? || e.ReversalCredited?) && e.transferId == t ==> reverts == Some(e.reverts))
  }

  lemma KindTable(es: seq<Event>, ids: set<Id>, t: Id)
    requires L.Inv(es, ids) && StreamsCausal(es)
    ensures t in Project(es).transfers ==>
              KindMeans(es, t, Project(es).transfers[t].kind) && RevertsMeans(es, t, Project(es).transfers[t].reverts)
  {
    assert L.MovementsAgree(es);
    CausalNames(es);
    TransfersMean(es, t);
    hide L.Inv, StreamsCausal, Project, NamedAfter, RevertedBy, L.MovementsAgree, FirstLeg;
    if FirstLeg(es, t).Some? {
      FirstLegIn(es, t);
      ReversalKinds(es, t);
      SettlementKinds(es, t);
      NotBoth(es, t);
      FirstReverts(es, t, FirstLeg(es, t).value);
    }
  }

  lemma ReversalKinds(es: seq<Event>, t: Id)
    ensures HasKind(es, t, ReversalKind) <==> HasReversal(es, t)
  {
    if HasReversal(es, t) {
      var e :| e in es && (e.ReversalDebited? || e.ReversalCredited?) && e.transferId == t;
      assert IsMovement(e) && SetId(e) == Some(t) && KindOf(e) == ReversalKind;
    }
    if HasKind(es, t, ReversalKind) {
      var e :| e in es && IsMovement(e) && SetId(e) == Some(t) && KindOf(e) == ReversalKind;
      assert (e.ReversalDebited? || e.ReversalCredited?) && e.transferId == t;
    }
  }

  lemma SettlementKinds(es: seq<Event>, t: Id)
    ensures HasKind(es, t, HoldPostingKind) <==> HasSettlement(es, t)
  {
    if HasSettlement(es, t) {
      var e :| e in es && e.HoldPosted? && e.holdId == t;
      assert IsMovement(e) && SetId(e) == Some(t) && KindOf(e) == HoldPostingKind;
    }
    if HasKind(es, t, HoldPostingKind) {
      var e :| e in es && IsMovement(e) && SetId(e) == Some(t) && KindOf(e) == HoldPostingKind;
      assert e.HoldPosted? && e.holdId == t;
    }
  }

  /** A reversal row and a row that settles a hold never share their id. */
  lemma Apart(es: seq<Event>, e: Event, f: Event)
    requires L.MovementsAgree(es) && e in es && f in es && (e.ReversalDebited? || e.ReversalCredited?) && f.HoldPosted?
    ensures e.transferId != f.holdId
  {
    hide L.MovementsAgree;
    if e.transferId == f.holdId { AgreeOn(es, e, f); }
  }

  /** A settled hold is not a reversal. */
  lemma NotBoth(es: seq<Event>, t: Id)
    requires L.MovementsAgree(es)
    ensures !(HasReversal(es, t) && HasSettlement(es, t))
  {
    hide L.MovementsAgree;
    forall e, f | e in es && f in es && (e.ReversalDebited? || e.ReversalCredited?) && f.HoldPosted?
      ensures e.transferId != f.holdId
    {
      Apart(es, e, f);
    }
  }

  lemma AgreeOn(es: seq<Event>, e: Event, f: Event)
    requires L.MovementsAgree(es) && e in es && f in es && IsMovement(e) && IsMovement(f) && SetId(e) == SetId(f)
    ensures RevertsColumn(e) == RevertsColumn(f)
  {
    var i :| 0 <= i < |es| && es[i] == e;
    var j :| 0 <= j < |es| && es[j] == f;
  }

  lemma FirstReverts(es: seq<Event>, t: Id, first: Event)
    requires L.MovementsAgree(es) && first in es && IsMovement(first) && SetId(first) == Some(t)
    ensures RevertsMeans(es, t, RevertsColumn(first))
  {
    hide L.MovementsAgree;
    forall e | e in es && (e.ReversalDebited? || e.ReversalCredited?) && e.transferId == t
      ensures RevertsColumn(first) == Some(e.reverts)
    {
      AgreeOn(es, first, e);
    }
  }

  lemma HoldTable(es: seq<Event>, ids: set<Id>, a: Account, h: Id)
    requires L.Inv(es, ids) && StreamsCausal(es)
    ensures h in Project(es).holds ==>
              var row := Project(es).holds[h];
              && HoldPlaced(row.source, row.amount, h, row.target, row.expiresAt) in es
              && row.state == ClosedAs(OnAccount(es, row.source), h)
    ensures OpenHoldOf(h, OnAccount(es, a)).Some? ==>
              && h in Project(es).holds
              && var hold := OpenHoldOf(h, OnAccount(es, a)).value;
                 Project(es).holds[h] == HoldRow(a, hold.counterparty, hold.amount, hold.expiresAt, OpenState)
    ensures h in Project(es).holds && Project(es).holds[h].state == OpenState ==>
              OpenHoldOf(h, OnAccount(es, Project(es).holds[h].source)).Some?
  {
    hide L.Inv, StreamsCausal, Project, OnAccount;
    InvTogether(es, ids);
    var home := HoldHome(es, es, h);
    HoldsLocal(es, h, home);
    assert Causal(OnAccount(es, home)) by { StreamCausal(es, home); }
    HoldsMean(OnAccount(es, home), h);
    HoldRowPlaced(es, h);
    HoldSource(OnAccount(es, home), h, home);
    assert AllOn(OnAccount(es, home), home) by { InOnAccount(es, home); }
    if OpenHoldOf(h, OnAccount(es, a)).Some? {
      OpenAtHome(es, ids, a, h, home);
    }
  }

  lemma InvTogether(es: seq<Event>, ids: set<Id>)
    requires L.Inv(es, ids)
    ensures L.HoldsTogether(es)
  {}

  lemma StreamCausal(es: seq<Event>, a: Account)
    requires StreamsCausal(es)
    ensures Causal(OnAccount(es, a))
  {}

  /** A hold row names the stream its rows are on. */
  lemma {:induction false} HoldSource(s: seq<Event>, h: Id, a: Account)
    ensures AllOn(s, a) && HoldLookup(s, h).Some? ==> HoldLookup(s, h).value.source == a
  {
    if s != [] {
      HoldSource(s[..|s| - 1], h, a);
      hide ApplyBalance, ApplyTransfer, ApplyLeg;
    }
  }

  /** An open hold is open on the stream that carries its rows. */
  lemma OpenAtHome(es: seq<Event>, ids: set<Id>, a: Account, h: Id, home: Account)
    requires L.Inv(es, ids) && OpenHoldOf(h, OnAccount(es, a)).Some? && HoldOn(es, h, home)
    ensures a == home
  {
    var hold := OpenHoldOf(h, OnAccount(es, a)).value;
    assert OnSet(es, h) == [L.PlacedAs(a, hold)];
    InOnSet(es, h);
    assert L.PlacedAs(a, hold) in OnSet(es, h);
    StatusId(h, OnAccount(es, a));
  }

  lemma TransferTable(es: seq<Event>, ids: set<Id>, t: Id)
    requires L.Inv(es, ids) && StreamsCausal(es)
    ensures t in Project(es).transfers <==> Movements(es, t) != []
    ensures t in Project(es).transfers ==> Project(es).transfers[t].revertedBy == RevertedBy(es, t)
  {
    CausalNames(es);
    TransfersMean(es, t);
    hide L.Inv, StreamsCausal, Project, NamedAfter, RevertedBy, SetKind;
    FirstLegIn(es, t);
    InOnSet(es, t);
    InMovementLegs(OnSet(es, t));
    var legs := Movements(es, t);
    if legs != [] {
      assert legs[0] in legs;
      FirstLegFound(es, t, legs[0]);
    }
    if FirstLeg(es, t).Some? {
      assert FirstLeg(es, t).value in legs;
    }
  }
}
