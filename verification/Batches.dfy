/** Every kind of batch keeps the ledger invariant. */
module Batches {
  import opened Events
  import opened Accounts
  import opened Views
  import opened Ledger

  ghost predicate NoSet(b: seq<Event>) {
    forall i :: 0 <= i < |b| ==> SetId(b[i]).None?
  }

  /** A batch of one set changes the rows of that set only. */
  lemma SetsAfter(es: seq<Event>, b: seq<Event>, t: Id)
    requires OneSet(b, t)
    ensures forall u :: u != t ==> OnSet(es + b, u) == OnSet(es, u) && Movements(es + b, u) == Movements(es, u)
    ensures OnSet(es + b, t) == OnSet(es, t) + b
    ensures Movements(es + b, t) == Movements(es, t) + MovementLegs(b)
  {
    Appended(es, b);
    OnSetAll(b, t);
    forall u | u != t ensures OnSet(es + b, u) == OnSet(es, u) && Movements(es + b, u) == Movements(es, u) {
      OnSetNone(b, u);
    }
  }

  lemma SetsAfterCash(es: seq<Event>, b: seq<Event>)
    requires NoSet(b)
    ensures forall u :: OnSet(es + b, u) == OnSet(es, u) && Movements(es + b, u) == Movements(es, u)
  {
    Appended(es, b);
    forall u ensures OnSet(es + b, u) == OnSet(es, u) && Movements(es + b, u) == Movements(es, u) {
      OnSetNone(b, u);
    }
  }

  /** Rows of the new set are covered when they are covered within the batch and before it. */
  lemma CoveredAfter(es: seq<Event>, b: seq<Event>, t: Id)
    requires AllRowsCovered(es) && OneSet(b, t)
    requires RowsCovered(es + b, t)
    ensures AllRowsCovered(es + b)
  {
    SetsAfter(es, b, t);
    forall u ensures RowsCovered(es + b, u) { assert RowsCovered(es, u); }
  }

  lemma CoveredFresh(es: seq<Event>, b: seq<Event>, t: Id)
    requires Unused(es, t) && OneSet(b, t) && AllMovement(b)
    ensures RowsCovered(es + b, t)
  {
    UnusedHasNoRows(es, t);
    SetsAfter(es, b, t);
    MovementLegsAll(b);
    assert OnSet(es + b, t) == b && Movements(es + b, t) == b;
    forall i | 0 <= i < |b| ensures Touches(b, b[i].account) {}
  }

  lemma CoveredWithoutMoves(es: seq<Event>, b: seq<Event>, t: Id)
    requires OneSet(b, t) && Movements(es, t) == [] && MovementLegs(b) == []
    ensures RowsCovered(es + b, t)
  {
    SetsAfter(es, b, t);
  }

  lemma UnusedHasNoRows(es: seq<Event>, t: Id)
    requires Unused(es, t)
    ensures OnSet(es, t) == [] && Movements(es, t) == []
  {
    OnSetNone(es, t);
  }

  /** Old reversals still mirror their originals: neither set is the new one. */
  lemma ReversalsKept(es: seq<Event>, b: seq<Event>, t: Id)
    requires ReversalsMirror(es) && OneSet(b, t) && Movements(es, t) == []
    ensures forall i :: 0 <= i < |es| && RevertsColumn(es[i]).Some? ==>
              Mirrors(es + b, SetId(es[i]).value, RevertsColumn(es[i]).value)
  {
    SetsAfter(es, b, t);
    forall i | 0 <= i < |es| && RevertsColumn(es[i]).Some?
      ensures Mirrors(es + b, SetId(es[i]).value, RevertsColumn(es[i]).value)
    {
      assert Mirrors(es, SetId(es[i]).value, RevertsColumn(es[i]).value);
    }
  }

  /** The parts of the invariant that only look at a new set of rows. */
  lemma CommonParts(es: seq<Event>, b: seq<Event>, t: Id)
    requires SetsBalanced(es) && ReversalsMirror(es) && RevertedOnce(es) && MovementsAgree(es)
    requires OneSet(b, t) && Movements(es, t) == []
    requires Balanced(MovementLegs(b))
    requires forall i :: 0 <= i < |b| ==> RevertsColumn(b[i]).None?
    ensures SetsBalanced(es + b) && ReversalsMirror(es + b) && RevertedOnce(es + b) && MovementsAgree(es + b)
  {
    SetsAfter(es, b, t);
    ReversalsKept(es, b, t);
    forall u ensures Balanced(Movements(es + b, u)) {
      assert Balanced(Movements(es, u));
      if u == t { assert Movements(es + b, u) == MovementLegs(b); }
    }
    AgreesAfter(es, b, t);
  }

  lemma AgreesAfter(es: seq<Event>, b: seq<Event>, t: Id)
    requires RevertedOnce(es) && MovementsAgree(es)
    requires OneSet(b, t) && Movements(es, t) == []
    requires forall i :: 0 <= i < |b| ==> RevertsColumn(b[i]).None?
    ensures RevertedOnce(es + b) && MovementsAgree(es + b)
  {
    NoMovementRows(es, t);
  }

  lemma NoMovementRows(es: seq<Event>, t: Id)
    requires Movements(es, t) == []
    ensures forall i :: 0 <= i < |es| && IsMovement(es[i]) ==> SetId(es[i]) != Some(t)
  {
    InOnSet(es, t);
    InMovementLegs(OnSet(es, t));
    forall i | 0 <= i < |es| && IsMovement(es[i]) ensures SetId(es[i]) != Some(t) {
      var e := es[i];
      assert e in OnSet(es, t) ==> e in Movements(es, t);
    }
  }

  lemma {:induction false} CashConcat(s: seq<Event>, t: seq<Event>)
    ensures CashTotal(s + t) == CashTotal(s) + CashTotal(t)
    decreases |t|
  {
    if t == [] {
      assert s + t == s;
    } else {
      var n := |t| - 1;
      assert (s + t)[..|s + t| - 1] == s + t[..n];
      CashConcat(s, t[..n]);
    }
  }

  lemma {:induction false} NoCash(b: seq<Event>)
    requires forall i :: 0 <= i < |b| ==> SetId(b[i]).Some?
    ensures CashTotal(b) == 0
  {
    if b != [] { NoCash(b[..|b| - 1]); }
  }

  /** The invariant from its parts. */
  lemma Assemble(es: seq<Event>, b: seq<Event>, ids: set<Id>, ids': set<Id>)
    requires AllValid(es) && AllValid(b) && StreamsFold(es + b)
    requires Decided(es, ids) && ids <= ids' && Decided(b, ids')
    requires SetsBalanced(es + b) && ReversalsMirror(es + b) && RevertedOnce(es + b) && MovementsAgree(es + b)
    requires HoldsMatch(es + b) && OpenAlone(es + b) && HoldsTogether(es + b) && AllRowsCovered(es + b)
    requires BalanceSum(es) == CashTotal(es) && BalanceSum(b) == CashTotal(b)
    ensures Inv(es + b, ids')
  {
    TotalsKept(es, b);
    DecidedAfter(es, b, ids, ids');
  }

  lemma DecidedAfter(es: seq<Event>, b: seq<Event>, ids: set<Id>, ids': set<Id>)
    requires Decided(es, ids) && ids <= ids' && Decided(b, ids')
    ensures Decided(es + b, ids')
  {}

  /** Rows without hold events leave every hold where it was. */
  lemma HoldPartsWithoutHolds(es: seq<Event>, b: seq<Event>)
    requires HoldsMatch(es) && OpenAlone(es) && HoldsTogether(es) && NoHolds(b)
    requires forall u :: OnSet(es, u) != [] ==> OnSet(es + b, u) == OnSet(es, u)
    ensures HoldsMatch(es + b) && OpenAlone(es + b) && HoldsTogether(es + b)
  {
    Appended(es, b);
    forall a ensures HeldIsOpen(OnAccount(es + b, a)) {
      StreamWithoutHolds(b, a);
      HeldKeptWithoutHolds(OnAccount(es, a), OnAccount(b, a));
    }
    forall a, h | OpenHoldOf(h, OnAccount(es + b, a)).Some?
      ensures OnSet(es + b, h) == [PlacedAs(a, OpenHoldOf(h, OnAccount(es + b, a)).value)]
    {
      StreamWithoutHolds(b, a);
      StatusIgnores(h, OnAccount(es, a), OnAccount(b, a));
    }
  }

  lemma StreamWithoutHolds(b: seq<Event>, a: Account)
    requires NoHolds(b)
    ensures NoHolds(OnAccount(b, a))
  {
    InOnAccount(b, a);
    var s := OnAccount(b, a);
    forall i | 0 <= i < |s| ensures !IsHoldEvent(s[i]) { assert s[i] in b; }
  }

  // ------------------------------------------------------------ the six kinds

  /** Rows outside every set leave the sets as they were. */
  lemma SetPartsSame(es: seq<Event>, b: seq<Event>)
    requires SetsBalanced(es) && ReversalsMirror(es) && RevertedOnce(es) && MovementsAgree(es)
    requires forall i :: 0 <= i < |b| ==> !IsMovement(b[i])
    requires forall u :: Movements(es + b, u) == Movements(es, u)
    ensures SetsBalanced(es + b) && ReversalsMirror(es + b) && RevertedOnce(es + b) && MovementsAgree(es + b)
  {
    forall u ensures Balanced(Movements(es + b, u)) { assert Balanced(Movements(es, u)); }
    forall i | 0 <= i < |es + b| && RevertsColumn((es + b)[i]).Some?
      ensures Mirrors(es + b, SetId((es + b)[i]).value, RevertsColumn((es + b)[i]).value)
    {
      assert (es + b)[i] == es[i];
      assert Mirrors(es, SetId(es[i]).value, RevertsColumn(es[i]).value);
    }
    forall i | 0 <= i < |es + b| && IsMovement((es + b)[i]) ensures i < |es| && (es + b)[i] == es[i] {}
  }

  lemma TotalsKept(es: seq<Event>, b: seq<Event>)
    requires BalanceSum(es) == CashTotal(es) && BalanceSum(b) == CashTotal(b)
    ensures BalanceSum(es + b) == CashTotal(es + b)
  {
    SumsConcat(es, b);
    CashConcat(es, b);
  }

  lemma Singles(e: Event)
    ensures BalanceSum([e]) == BalanceDelta(e) && HeldSum([e]) == HeldDelta(e)
    ensures CashTotal([e]) == (if SetId(e).None? then BalanceDelta(e) else 0)
    ensures MovementLegs([e]) == if IsMovement(e) then [e] else []
  {
    assert [e][..0] == [];
  }

  lemma CashKeeps(es: seq<Event>, b: seq<Event>, e: Event, ids: set<Id>)
    requires Inv(es, ids) && IsCash(b, e) && AllValid(b) && StreamsFold(es + b)
    ensures Inv(es + b, ids)
  {
    SetsAfterCash(es, b);
    HoldPartsWithoutHolds(es, b);
    SetPartsSame(es, b);
    forall u ensures RowsCovered(es + b, u) { assert RowsCovered(es, u); }
    Singles(e);
    Assemble(es, b, ids, ids);
  }

  lemma PostingKeeps(es: seq<Event>, b: seq<Event>, t: Id, ids: set<Id>, ids': set<Id>)
    requires Inv(es, ids) && IsPosting(es, b, t) && AllValid(b) && StreamsFold(es + b)
    requires ids <= ids' && Decided(b, ids')
    ensures Inv(es + b, ids')
  {
    UnusedHasNoRows(es, t);
    MovementLegsAll(b);
    CommonParts(es, b, t);
    CoveredFresh(es, b, t);
    CoveredAfter(es, b, t);
    SetsAfter(es, b, t);
    HoldPartsWithoutHolds(es, b);
    NoCash(b);
    Assemble(es, b, ids, ids');
  }

  lemma MirrorNegates(leg: Event, r: Id, t: Id)
    requires IsMovement(leg)
    ensures BalanceDelta(MirrorEvent(leg, r, t)) == -BalanceDelta(leg)
  {}

  lemma MirroredPrefix(legs: seq<Event>, r: Id, t: Id)
    requires AllMovement(legs) && legs != []
    ensures Mirrored(legs, r, t)[..|legs| - 1] == Mirrored(legs[..|legs| - 1], r, t)
  {}

  lemma {:induction false} MirroredSum(legs: seq<Event>, r: Id, t: Id)
    requires AllMovement(legs)
    ensures BalanceSum(Mirrored(legs, r, t)) == -BalanceSum(legs)
  {
    if legs != [] {
      MirroredSum(legs[..|legs| - 1], r, t);
      MirroredPrefix(legs, r, t);
      MirrorNegates(legs[|legs| - 1], r, t);
    }
  }

  lemma MirroredRows(legs: seq<Event>, r: Id, t: Id)
    requires AllMovement(legs)
    ensures var b := Mirrored(legs, r, t);
            && OneSet(b, r) && AllMovement(b) && NoHolds(b)
            && forall i :: 0 <= i < |b| ==> RevertsColumn(b[i]) == Some(t)
  {}

  lemma MirroredBalanced(legs: seq<Event>, r: Id, t: Id)
    requires AllMovement(legs) && Balanced(legs)
    ensures Balanced(Mirrored(legs, r, t))
  {
    MirroredSum(legs, r, t);
  }

  lemma ReversalKeeps(es: seq<Event>, b: seq<Event>, r: Id, t: Id, ids: set<Id>, ids': set<Id>)
    requires Inv(es, ids) && IsReversal(es, b, r, t) && AllValid(b) && StreamsFold(es + b)
    requires ids <= ids' && Decided(b, ids')
    ensures Inv(es + b, ids')
  {
    assert Balanced(Movements(es, t));
    MirroredRows(Movements(es, t), r, t);
    MirroredBalanced(Movements(es, t), r, t);
    ReversalSets(es, b, r, t);
    ReversalAgrees(es, b, r, t);
    CoveredFresh(es, b, r);
    CoveredAfter(es, b, r);
    UnusedHasNoRows(es, r);
    SetsAfter(es, b, r);
    HoldPartsWithoutHolds(es, b);
    NoCash(b);
    Assemble(es, b, ids, ids');
  }

  lemma ReversalSets(es: seq<Event>, b: seq<Event>, r: Id, t: Id)
    requires SetsBalanced(es) && ReversalsMirror(es)
    requires IsReversal(es, b, r, t) && OneSet(b, r) && AllMovement(b) && Balanced(b)
    requires forall i :: 0 <= i < |b| ==> RevertsColumn(b[i]) == Some(t)
    ensures SetsBalanced(es + b) && ReversalsMirror(es + b)
  {
    UnusedHasNoRows(es, r);
    MovementLegsAll(b);
    SetsAfter(es, b, r);
    forall u ensures Balanced(Movements(es + b, u)) {
      assert Balanced(Movements(es, u));
      if u == r { assert Movements(es + b, u) == b; }
    }
    NewMirror(es, b, r, t);
    AllMirror(es, b, r, t);
  }

  lemma NewMirror(es: seq<Event>, b: seq<Event>, r: Id, t: Id)
    requires IsReversal(es, b, r, t) && OneSet(b, r) && AllMovement(b)
    ensures Mirrors(es + b, r, t)
  {
    UnusedHasNoRows(es, r);
    MovementLegsAll(b);
    SetsAfter(es, b, r);
  }

  lemma AllMirror(es: seq<Event>, b: seq<Event>, r: Id, t: Id)
    requires ReversalsMirror(es) && Unused(es, r) && OneSet(b, r) && Mirrors(es + b, r, t)
    requires forall i :: 0 <= i < |b| ==> RevertsColumn(b[i]) == Some(t)
    ensures ReversalsMirror(es + b)
  {
    UnusedHasNoRows(es, r);
    ReversalsKept(es, b, r);
    forall i | 0 <= i < |es + b| && RevertsColumn((es + b)[i]).Some?
      ensures Mirrors(es + b, SetId((es + b)[i]).value, RevertsColumn((es + b)[i]).value)
    {
      if i < |es| { assert (es + b)[i] == es[i]; } else { assert (es + b)[i] == b[i - |es|]; }
    }
  }

  lemma ReversalAgrees(es: seq<Event>, b: seq<Event>, r: Id, t: Id)
    requires RevertedOnce(es) && MovementsAgree(es)
    requires IsReversal(es, b, r, t) && OneSet(b, r)
    requires forall i :: 0 <= i < |b| ==> RevertsColumn(b[i]) == Some(t)
    ensures RevertedOnce(es + b) && MovementsAgree(es + b)
  {
  }

  lemma PlacementKeeps(es: seq<Event>, b: seq<Event>, e: Event, ids: set<Id>, ids': set<Id>)
    requires Inv(es, ids) && IsPlacement(es, b, e) && AllValid(b) && StreamsFold(es + b)
    requires ids <= ids' && Decided(b, ids')
    ensures Inv(es + b, ids')
  {
    UnusedHasNoRows(es, e.holdId);
    Singles(e);
    CommonParts(es, b, e.holdId);
    CoveredWithoutMoves(es, b, e.holdId);
    CoveredAfter(es, b, e.holdId);
    PlacementHolds(es, e);
    Assemble(es, b, ids, ids');
  }

  lemma OnAccountSingle(e: Event, a: Account)
    ensures OnAccount([e], a) == if e.account == a then [e] else []
  {
    assert [e][..0] == [];
  }

  /** Appending one row to a stream, seen from one hold. */
  lemma StatusAfter(h: Id, s: seq<Event>, e: Event)
    ensures StatusOf(h, s + [e]) ==
            if StatusOf(h, s).Closed? || Closes(e, h) then Closed
            else if e.HoldPlaced? && e.holdId == h then Open(OpenHold(h, e.amount, e.counterparty, e.expiresAt))
            else StatusOf(h, s)
  {
    assert (s + [e])[..|s|] == s;
  }

  lemma PlacementHolds(es: seq<Event>, e: Event)
    requires HoldsMatch(es) && OpenAlone(es) && HoldsTogether(es) && e.HoldPlaced? && Unused(es, e.holdId)
    ensures HoldsMatch(es + [e]) && OpenAlone(es + [e]) && HoldsTogether(es + [e])
  {
    forall a ensures HeldIsOpen(OnAccount(es + [e], a)) { PlacementHeld(es, e, a); }
    forall a, k | OpenHoldOf(k, OnAccount(es + [e], a)).Some?
      ensures OnSet(es + [e], k) == [PlacedAs(a, OpenHoldOf(k, OnAccount(es + [e], a)).value)]
    {
      PlacementAlone(es, e, a, k);
    }
    forall i | 0 <= i < |es| && IsHoldEvent(es[i]) ensures es[i].holdId != e.holdId {
      assert SetId(es[i]) != Some(e.holdId);
    }
  }

  lemma StreamPlus(es: seq<Event>, e: Event, a: Account)
    ensures OnAccount(es + [e], a) == if e.account == a then OnAccount(es, a) + [e] else OnAccount(es, a)
  {
    assert (es + [e])[..|es|] == es;
  }

  lemma PlacementHeld(es: seq<Event>, e: Event, a: Account)
    requires HoldsMatch(es) && e.HoldPlaced? && Unused(es, e.holdId)
    ensures HeldIsOpen(OnAccount(es + [e], a))
  {
    StreamPlus(es, e, a);
    assert HeldIsOpen(OnAccount(es, a));
    if e.account == a {
      UnusedOnStream(es, e.holdId, a);
      PlacedHeld(OnAccount(es, a), e);
    }
  }

  lemma PlacedHeld(s: seq<Event>, e: Event)
    requires HeldIsOpen(s) && e.HoldPlaced? && StatusOf(e.holdId, s) == Unseen
    ensures HeldIsOpen(s + [e])
  {
    StatusAfter(e.holdId, s, e);
    Singles(e);
    assert IsHoldEvent([e][0]);
    HeldKeptAtOneHold(s, [e], e.holdId);
  }

  lemma PlacementAlone(es: seq<Event>, e: Event, a: Account, k: Id)
    requires OpenAlone(es) && e.HoldPlaced? && Unused(es, e.holdId)
    requires OpenHoldOf(k, OnAccount(es + [e], a)).Some?
    ensures OnSet(es + [e], k) == [PlacedAs(a, OpenHoldOf(k, OnAccount(es + [e], a)).value)]
  {
    SetsAfter(es, [e], e.holdId);
    if k == e.holdId {
      UnusedHasNoRows(es, k);
      NewHoldOpens(es, e, a);
    } else {
      OtherHoldsStay(es, e, a, k);
    }
  }

  lemma OtherHoldsStay(es: seq<Event>, e: Event, a: Account, k: Id)
    requires e.HoldPlaced? && k != e.holdId
    ensures OpenHoldOf(k, OnAccount(es + [e], a)) == OpenHoldOf(k, OnAccount(es, a))
  {
    StreamPlus(es, e, a);
    if e.account == a { StatusAfter(k, OnAccount(es, a), e); }
  }

  lemma NewHoldOpens(es: seq<Event>, e: Event, a: Account)
    requires e.HoldPlaced? && Unused(es, e.holdId)
    ensures StatusOf(e.holdId, OnAccount(es + [e], a)) ==
            if e.account == a then Open(OpenHold(e.holdId, e.amount, e.counterparty, e.expiresAt)) else Unseen
  {
    StreamPlus(es, e, a);
    UnusedOnStream(es, e.holdId, a);
    if e.account == a { StatusAfter(e.holdId, OnAccount(es, a), e); }
  }

  // -------------------------------------------------- closing an open hold

  /** The rows that close hold `h` on stream `a` take its whole amount off `held`. */
  lemma ClosingHolds(es: seq<Event>, b: seq<Event>, a: Account, hold: OpenHold)
    requires HoldsMatch(es) && OpenAlone(es) && HoldsTogether(es)
    requires OpenHoldOf(hold.holdId, OnAccount(es, a)) == Some(hold)
    requires OneSet(b, hold.holdId)
    requires forall i :: 0 <= i < |b| && IsHoldEvent(b[i]) ==> b[i].account == a
    requires exists i :: 0 <= i < |OnAccount(b, a)| && IsHoldEvent(OnAccount(b, a)[i])
    requires HeldSum(OnAccount(b, a)) == -hold.amount
    requires StatusOf(hold.holdId, OnAccount(es, a) + OnAccount(b, a)) == Closed
    ensures HoldsMatch(es + b) && OpenAlone(es + b) && HoldsTogether(es + b)
  {
    SetsAfter(es, b, hold.holdId);
    forall c ensures HeldIsOpen(OnAccount(es + b, c)) { ClosingHeld(es, b, a, hold, c); }
    forall c, k | OpenHoldOf(k, OnAccount(es + b, c)).Some?
      ensures OnSet(es + b, k) == [PlacedAs(c, OpenHoldOf(k, OnAccount(es + b, c)).value)]
    {
      ClosedIsNotOpen(es, b, a, hold, c, k);
    }
    ClosingTogether(es, b, a, hold);
  }

  lemma ClosingHeld(es: seq<Event>, b: seq<Event>, a: Account, hold: OpenHold, c: Account)
    requires HoldsMatch(es)
    requires OpenHoldOf(hold.holdId, OnAccount(es, a)) == Some(hold)
    requires OneSet(b, hold.holdId)
    requires forall i :: 0 <= i < |b| && IsHoldEvent(b[i]) ==> b[i].account == a
    requires exists i :: 0 <= i < |OnAccount(b, a)| && IsHoldEvent(OnAccount(b, a)[i])
    requires HeldSum(OnAccount(b, a)) == -hold.amount
    requires StatusOf(hold.holdId, OnAccount(es, a) + OnAccount(b, a)) == Closed
    ensures HeldIsOpen(OnAccount(es + b, c))
  {
    var s, t := OnAccount(es, c), OnAccount(b, c);
    OnAccountConcat(es, b, c);
    assert HeldIsOpen(s);
    InOnAccount(b, c);
    if c == a {
      forall i | 0 <= i < |t| && IsHoldEvent(t[i]) ensures t[i].holdId == hold.holdId { assert t[i] in b; }
      HeldKeptAtOneHold(s, t, hold.holdId);
    } else {
      forall i | 0 <= i < |t| ensures !IsHoldEvent(t[i]) { assert t[i] in b; }
      HeldKeptWithoutHolds(s, t);
    }
  }

  /** After a closing batch the open holds are the other ones, as they were. */
  lemma ClosedIsNotOpen(es: seq<Event>, b: seq<Event>, a: Account, hold: OpenHold, c: Account, k: Id)
    requires OpenAlone(es) && OneSet(b, hold.holdId)
    requires OpenHoldOf(hold.holdId, OnAccount(es, a)) == Some(hold)
    requires forall i :: 0 <= i < |b| && IsHoldEvent(b[i]) ==> b[i].account == a
    requires StatusOf(hold.holdId, OnAccount(es, a) + OnAccount(b, a)) == Closed
    requires OpenHoldOf(k, OnAccount(es + b, c)).Some?
    ensures k != hold.holdId && OpenHoldOf(k, OnAccount(es + b, c)) == OpenHoldOf(k, OnAccount(es, c))
  {
    var h := hold.holdId;
    var s, t := OnAccount(es, c), OnAccount(b, c);
    Appended(es, b);
    InOnAccount(b, c);
    if k != h {
      forall i | 0 <= i < |t| && IsHoldEvent(t[i]) ensures t[i].holdId != k { assert t[i] in b; }
      StatusIgnores(k, s, t);
    } else if c != a {
      forall i | 0 <= i < |t| ensures !IsHoldEvent(t[i]) { assert t[i] in b; }
      StatusIgnores(k, s, t);
      OpenOnOneStream(es, a, c, h);
    }
  }

  lemma OpenOnOneStream(es: seq<Event>, a: Account, c: Account, h: Id)
    requires OpenAlone(es) && OpenHoldOf(h, OnAccount(es, a)).Some? && OpenHoldOf(h, OnAccount(es, c)).Some?
    ensures a == c
  {
    assert OnSet(es, h) == [PlacedAs(a, OpenHoldOf(h, OnAccount(es, a)).value)];
    assert OnSet(es, h) == [PlacedAs(c, OpenHoldOf(h, OnAccount(es, c)).value)];
    assert OnSet(es, h)[0].account == a;
  }

  lemma ClosingTogether(es: seq<Event>, b: seq<Event>, a: Account, hold: OpenHold)
    requires OpenAlone(es) && HoldsTogether(es) && OneSet(b, hold.holdId)
    requires OpenHoldOf(hold.holdId, OnAccount(es, a)) == Some(hold)
    requires forall i :: 0 <= i < |b| && IsHoldEvent(b[i]) ==> b[i].account == a
    ensures HoldsTogether(es + b)
  {
    var h := hold.holdId;
    InOnSet(es, h);
    forall i | 0 <= i < |es| && IsHoldEvent(es[i]) && es[i].holdId == h ensures es[i].account == a {
      assert es[i] in OnSet(es, h);
    }
    forall i | 0 <= i < |b| && IsHoldEvent(b[i]) ensures b[i].holdId == h { assert SetId(b[i]) == Some(h); }
  }

  lemma OpenHasNoMovements(es: seq<Event>, a: Account, hold: OpenHold)
    requires OpenAlone(es) && OpenHoldOf(hold.holdId, OnAccount(es, a)) == Some(hold)
    ensures Movements(es, hold.holdId) == []
  {
    var rows := OnSet(es, hold.holdId);
    assert rows == [PlacedAs(a, hold)];
    assert rows[..0] == [];
    assert MovementLegs(rows) == MovementLegs(rows[..0]);
  }

  lemma ReleaseKeeps(es: seq<Event>, b: seq<Event>, a: Account, hold: OpenHold, reason: ReleaseReason,
                     ids: set<Id>, ids': set<Id>)
    requires Inv(es, ids) && IsRelease(es, b, a, hold, reason) && AllValid(b) && StreamsFold(es + b)
    requires ids <= ids' && Decided(b, ids')
    ensures Inv(es + b, ids')
  {
    Singles(HoldReleased(a, hold.amount, hold.holdId, reason));
    ReleaseHolds(es, b, a, hold, reason);
    OpenHasNoMovements(es, a, hold);
    CommonParts(es, b, hold.holdId);
    CoveredWithoutMoves(es, b, hold.holdId);
    CoveredAfter(es, b, hold.holdId);
    Assemble(es, b, ids, ids');
  }

  lemma ReleaseHolds(es: seq<Event>, b: seq<Event>, a: Account, hold: OpenHold, reason: ReleaseReason)
    requires HoldsMatch(es) && OpenAlone(es) && HoldsTogether(es) && IsRelease(es, b, a, hold, reason)
    ensures HoldsMatch(es + b) && OpenAlone(es + b) && HoldsTogether(es + b)
  {
    var e := HoldReleased(a, hold.amount, hold.holdId, reason);
    OnAccountSingle(e, a);
    Singles(e);
    StatusAfter(hold.holdId, OnAccount(es, a), e);
    assert IsHoldEvent(OnAccount(b, a)[0]);
    ClosingHolds(es, b, a, hold);
  }

  /** The shape of a capture on its two streams. */
  lemma CaptureViews(es: seq<Event>, b: seq<Event>, a: Account, hold: OpenHold, amount: int)
    requires IsCapture(es, b, a, hold, amount)
    ensures OnAccount(b, a) == CaptureSource(a, hold, amount)
    ensures OnAccount(b, hold.counterparty) == CaptureTarget(a, hold, amount)
  {
    var src, tgt := CaptureSource(a, hold, amount), CaptureTarget(a, hold, amount);
    if a < hold.counterparty { TwoStreams(src, a, tgt, hold.counterparty); } else { TwoStreams(tgt, hold.counterparty, src, a); }
  }

  lemma TwoStreams(s: seq<Event>, a: Account, t: seq<Event>, c: Account)
    requires AllOn(s, a) && AllOn(t, c) && a != c
    ensures OnAccount(s + t, a) == s && OnAccount(s + t, c) == t
  {
    OnAccountAll(s, a);
    OnAccountAll(t, c);
    NoneOn(s, c);
    NoneOn(t, a);
    OnAccountConcat(s, t, a);
    OnAccountConcat(s, t, c);
  }

  lemma CaptureRows(es: seq<Event>, b: seq<Event>, a: Account, hold: OpenHold, amount: int)
    requires IsCapture(es, b, a, hold, amount)
    ensures OneSet(b, hold.holdId)
    ensures forall i :: 0 <= i < |b| && IsHoldEvent(b[i]) ==> b[i].account == a
    ensures forall i :: 0 <= i < |b| ==> RevertsColumn(b[i]).None?
  {
  }

  lemma PairBalanced(x: Event, y: Event)
    requires x.account < y.account && BalanceDelta(x) + BalanceDelta(y) == 0
    ensures Balanced([x] + [y])
  {
    Singles(x);
    Singles(y);
    SumsConcat([x], [y]);
  }

  lemma CaptureBalanced(es: seq<Event>, b: seq<Event>, a: Account, hold: OpenHold, amount: int)
    requires IsCapture(es, b, a, hold, amount)
    ensures Balanced(MovementLegs(b)) && BalanceSum(b) == 0
  {
    var src, tgt := CaptureSource(a, hold, amount), CaptureTarget(a, hold, amount);
    var posted := HoldPosted(a, amount, hold.holdId, hold.counterparty);
    var credited := TransferCredited(hold.counterparty, amount, hold.holdId, a);
    CaptureMoves(a, hold, amount);
    Singles(credited);
    if a < hold.counterparty {
      MovementLegsConcat(src, tgt);
      SumsConcat(src, tgt);
      PairBalanced(posted, credited);
    } else {
      MovementLegsConcat(tgt, src);
      SumsConcat(tgt, src);
      PairBalanced(credited, posted);
    }
  }

  lemma NoneOn(s: seq<Event>, a: Account)
    requires forall i :: 0 <= i < |s| ==> s[i].account != a
    ensures OnAccount(s, a) == []
  {
    if s != [] { NoneOn(s[..|s| - 1], a); }
  }

  /** What the source's rows of a capture move. */
  lemma CaptureMoves(a: Account, hold: OpenHold, amount: int)
    requires amount <= hold.amount
    ensures var src := CaptureSource(a, hold, amount);
            && MovementLegs(src) == [HoldPosted(a, amount, hold.holdId, hold.counterparty)]
            && BalanceSum(src) == -amount && HeldSum(src) == -hold.amount
  {
    var posted := HoldPosted(a, amount, hold.holdId, hold.counterparty);
    Singles(posted);
    if amount < hold.amount {
      var rest := HoldReleased(a, hold.amount - amount, hold.holdId, Partial);
      Singles(rest);
      SumsConcat([posted], [rest]);
      MovementLegsConcat([posted], [rest]);
      assert CaptureSource(a, hold, amount) == [posted] + [rest];
    }
  }

  lemma CaptureCovered(es: seq<Event>, b: seq<Event>, a: Account, hold: OpenHold, amount: int)
    requires OpenAlone(es) && IsCapture(es, b, a, hold, amount)
    ensures RowsCovered(es + b, hold.holdId)
  {
    CaptureRows(es, b, a, hold, amount);
    SetsAfter(es, b, hold.holdId);
    OpenHasNoMovements(es, a, hold);
    CaptureTouches(es, b, a, hold, amount);
    CaptureHas(es, b, a, hold, amount);
    assert Movements(es + b, hold.holdId) == MovementLegs(b);
    CoveredByTwo([PlacedAs(a, hold)], b, MovementLegs(b), a, hold.counterparty);
  }

  lemma CoveredByTwo(first: seq<Event>, rows: seq<Event>, moves: seq<Event>, a: Account, c: Account)
    requires forall i :: 0 <= i < |first| ==> first[i].account == a
    requires forall i :: 0 <= i < |rows| ==> rows[i].account == a || rows[i].account == c
    requires Touches(moves, a) && Touches(moves, c)
    ensures forall i :: 0 <= i < |first + rows| ==> Touches(moves, (first + rows)[i].account)
  {}

  lemma CaptureTouches(es: seq<Event>, b: seq<Event>, a: Account, hold: OpenHold, amount: int)
    requires IsCapture(es, b, a, hold, amount)
    ensures Touches(MovementLegs(b), a) && Touches(MovementLegs(b), hold.counterparty)
  {
    CaptureHas(es, b, a, hold, amount);
    InMovementLegs(b);
    var posted := HoldPosted(a, amount, hold.holdId, hold.counterparty);
    assert posted in MovementLegs(b);
    var credited := TransferCredited(hold.counterparty, amount, hold.holdId, a);
    assert credited in MovementLegs(b);
  }

  lemma CaptureHas(es: seq<Event>, b: seq<Event>, a: Account, hold: OpenHold, amount: int)
    requires IsCapture(es, b, a, hold, amount)
    ensures HoldPosted(a, amount, hold.holdId, hold.counterparty) in b
    ensures TransferCredited(hold.counterparty, amount, hold.holdId, a) in b
    ensures forall i :: 0 <= i < |b| ==> b[i].account == a || b[i].account == hold.counterparty
  {}

  lemma CaptureKeeps(es: seq<Event>, b: seq<Event>, a: Account, hold: OpenHold, amount: int, ids: set<Id>, ids': set<Id>)
    requires Inv(es, ids) && IsCapture(es, b, a, hold, amount) && AllValid(b) && StreamsFold(es + b)
    requires ids <= ids' && Decided(b, ids')
    ensures Inv(es + b, ids')
  {
    CaptureRows(es, b, a, hold, amount);
    CaptureBalanced(es, b, a, hold, amount);
    CaptureHolds(es, b, a, hold, amount);
    OpenHasNoMovements(es, a, hold);
    CommonParts(es, b, hold.holdId);
    CaptureCovered(es, b, a, hold, amount);
    CoveredAfter(es, b, hold.holdId);
    NoCash(b);
    Assemble(es, b, ids, ids');
  }

  lemma CaptureHolds(es: seq<Event>, b: seq<Event>, a: Account, hold: OpenHold, amount: int)
    requires HoldsMatch(es) && OpenAlone(es) && HoldsTogether(es) && IsCapture(es, b, a, hold, amount)
    ensures HoldsMatch(es + b) && OpenAlone(es + b) && HoldsTogether(es + b)
  {
    CaptureRows(es, b, a, hold, amount);
    CaptureViews(es, b, a, hold, amount);
    CaptureMoves(a, hold, amount);
    CaptureCloses(OnAccount(es, a), a, hold, amount);
    assert IsHoldEvent(OnAccount(b, a)[0]);
    ClosingHolds(es, b, a, hold);
  }

  lemma CaptureCloses(s: seq<Event>, a: Account, hold: OpenHold, amount: int)
    ensures StatusOf(hold.holdId, s + CaptureSource(a, hold, amount)) == Closed
  {
    var src := CaptureSource(a, hold, amount);
    StatusAfter(hold.holdId, s, src[0]);
    if |src| == 2 {
      StatusAfter(hold.holdId, s + [src[0]], src[1]);
      assert s + src == s + [src[0]] + [src[1]];
    }
  }

  /** Any good batch that folds keeps the invariant. */
  lemma BatchKeeps(es: seq<Event>, b: seq<Event>, ids: set<Id>, ids': set<Id>)
    requires Inv(es, ids) && GoodBatch(es, b) && AllValid(b) && StreamsFold(es + b)
    requires ids <= ids' && Decided(b, ids')
    ensures Inv(es + b, ids')
  {
    if e :| IsCash(b, e) {
      CashKeeps(es, b, e, ids);
      DecidedAfter(es, b, ids, ids');
    } else if t :| IsPosting(es, b, t) {
      PostingKeeps(es, b, t, ids, ids');
    } else if r, t :| IsReversal(es, b, r, t) {
      ReversalKeeps(es, b, r, t, ids, ids');
    } else if e :| IsPlacement(es, b, e) {
      PlacementKeeps(es, b, e, ids, ids');
    } else if a, hold, amount :| IsCapture(es, b, a, hold, amount) {
      CaptureKeeps(es, b, a, hold, amount, ids, ids');
    } else {
      var a, hold, reason :| IsRelease(es, b, a, hold, reason);
      ReleaseKeeps(es, b, a, hold, reason, ids, ids');
    }
  }
}
