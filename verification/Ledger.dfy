/** The invariant of the event log and why every kind of batch keeps it.

    Everything here is about the events of the log in commit order. The invariant is
    stated at command boundaries: between the two source rows of a partial capture the
    held amount and the open holds disagree. */
module Ledger {
  import opened Events
  import opened Accounts
  import opened Views

  // ------------------------------------------------------------ the invariant

  ghost predicate StreamsFold(es: seq<Event>) {
    forall a :: Fold(OnAccount(es, a)).Ok?
  }

  ghost predicate Decided(es: seq<Event>, ids: set<Id>) {
    forall i :: 0 <= i < |es| && SetId(es[i]).Some? ==> SetId(es[i]).value in ids
  }

  ghost predicate AccountsAscend(legs: seq<Event>) {
    forall i, j :: 0 <= i < j < |legs| ==> legs[i].account < legs[j].account
  }

  /** A committed movement set names pairwise distinct accounts, in ascending order, and
      moves nothing in total. */
  ghost predicate Balanced(legs: seq<Event>) {
    AccountsAscend(legs) && BalanceSum(legs) == 0
  }

  ghost predicate SetsBalanced(es: seq<Event>) {
    forall t :: Balanced(Movements(es, t))
  }

  /** What hold `h` still reserves on a stream, as the open-hold derivation sees it. */
  function OpenAmount(h: Id, s: seq<Event>): int {
    var hold := OpenHoldOf(h, s);
    if hold.Some? then hold.value.amount else 0
  }

  /** Sum of the open holds with an id below `n`. */
  function OpenSum(s: seq<Event>, n: nat): int {
    if n == 0 then 0 else OpenSum(s, n - 1) + OpenAmount(n - 1, s)
  }

  ghost predicate HoldIdsBelow(s: seq<Event>, n: nat) {
    forall i :: 0 <= i < |s| && IsHoldEvent(s[i]) ==> s[i].holdId < n
  }

  /** The held amount of a stream is the sum of its open holds. */
  ghost predicate HeldIsOpen(s: seq<Event>) {
    forall n :: HoldIdsBelow(s, n) ==> HeldSum(s) == OpenSum(s, n)
  }

  ghost predicate HoldsMatch(es: seq<Event>) {
    forall a :: HeldIsOpen(OnAccount(es, a))
  }

  function PlacedAs(a: Account, h: OpenHold): Event {
    HoldPlaced(a, h.amount, h.holdId, h.counterparty, h.expiresAt)
  }

  /** An open hold's placement is the only row that carries its id. */
  ghost predicate OpenAlone(es: seq<Event>) {
    forall a, h :: OpenHoldOf(h, OnAccount(es, a)).Some? ==>
      OnSet(es, h) == [PlacedAs(a, OpenHoldOf(h, OnAccount(es, a)).value)]
  }

  /** All hold rows of one id are on one stream. */
  ghost predicate HoldsTogether(es: seq<Event>) {
    forall i, j :: 0 <= i < |es| && 0 <= j < |es| && IsHoldEvent(es[i]) && IsHoldEvent(es[j]) && es[i].holdId == es[j].holdId
      ==> es[i].account == es[j].account
  }

  /** Some movement leg of the set is on account `a`. */
  ghost predicate Touches(legs: seq<Event>, a: Account) {
    exists i :: 0 <= i < |legs| && legs[i].account == a
  }

  /** Once a set has moved money, every row that carries its id is on an account it moved. */
  ghost predicate RowsCovered(es: seq<Event>, t: Id) {
    Movements(es, t) != [] ==> forall i :: 0 <= i < |OnSet(es, t)| ==> Touches(Movements(es, t), OnSet(es, t)[i].account)
  }

  ghost predicate AllRowsCovered(es: seq<Event>) {
    forall t :: RowsCovered(es, t)
  }

  ghost predicate MovementsAgree(es: seq<Event>) {
    forall i, j :: 0 <= i < |es| && 0 <= j < |es| && IsMovement(es[i]) && IsMovement(es[j]) && SetId(es[i]) == SetId(es[j])
      ==> RevertsColumn(es[i]) == RevertsColumn(es[j])
  }

  function Mirrored(legs: seq<Event>, r: Id, t: Id): (m: seq<Event>)
    requires AllMovement(legs)
    ensures |m| == |legs|
    ensures forall i :: 0 <= i < |legs| ==> m[i] == MirrorEvent(legs[i], r, t)
  {
    seq(|legs|, i requires 0 <= i < |legs| => MirrorEvent(legs[i], r, t))
  }

  /** Set `r` is the leg-by-leg mirror of the committed set `t`. */
  ghost predicate Mirrors(es: seq<Event>, r: Id, t: Id) {
    Movements(es, t) != [] && Movements(es, r) == Mirrored(Movements(es, t), r, t)
  }

  ghost predicate ReversalsMirror(es: seq<Event>) {
    forall i :: 0 <= i < |es| && RevertsColumn(es[i]).Some? ==>
      Mirrors(es, SetId(es[i]).value, RevertsColumn(es[i]).value)
  }

  ghost predicate RevertedOnce(es: seq<Event>) {
    forall i, j :: 0 <= i < |es| && 0 <= j < |es| && RevertsColumn(es[i]).Some? && RevertsColumn(es[i]) == RevertsColumn(es[j])
      ==> SetId(es[i]) == SetId(es[j])
  }

  /** Net cash that entered through deposits and left through withdrawals. */
  function CashTotal(es: seq<Event>): int {
    if es == [] then 0
    else
      var e := es[|es| - 1];
      CashTotal(es[..|es| - 1]) + (if e.Deposited? then e.amount else if e.Withdrawn? then -e.amount else 0)
  }

  ghost predicate Inv(es: seq<Event>, ids: set<Id>) {
    && AllValid(es)
    && StreamsFold(es)
    && Decided(es, ids)
    && SetsBalanced(es)
    && HoldsMatch(es)
    && OpenAlone(es)
    && HoldsTogether(es)
    && AllRowsCovered(es)
    && MovementsAgree(es)
    && ReversalsMirror(es)
    && RevertedOnce(es)
    && BalanceSum(es) == CashTotal(es)
  }

  // ------------------------------------------------------- kinds of batches

  ghost predicate OneSet(b: seq<Event>, t: Id) {
    forall i :: 0 <= i < |b| ==> SetId(b[i]) == Some(t)
  }

  ghost predicate Unused(es: seq<Event>, t: Id) {
    forall i :: 0 <= i < |es| ==> SetId(es[i]) != Some(t)
  }

  ghost predicate NoHolds(b: seq<Event>) {
    forall i :: 0 <= i < |b| ==> !IsHoldEvent(b[i])
  }

  ghost predicate IsCash(b: seq<Event>, e: Event) {
    b == [e] && (e.Deposited? || e.Withdrawn?)
  }

  /** A fresh balanced set of transfer legs. */
  ghost predicate IsPosting(es: seq<Event>, b: seq<Event>, t: Id) {
    && Unused(es, t) && OneSet(b, t) && AllMovement(b) && NoHolds(b) && Balanced(b)
    && forall i :: 0 <= i < |b| ==> RevertsColumn(b[i]).None?
  }

  /** A fresh set that mirrors a committed set nobody has mirrored yet. */
  ghost predicate IsReversal(es: seq<Event>, b: seq<Event>, r: Id, t: Id) {
    && Unused(es, r) && Movements(es, t) != []
    && b == Mirrored(Movements(es, t), r, t)
    && forall i :: 0 <= i < |es| ==> RevertsColumn(es[i]) != Some(t)
  }

  ghost predicate IsPlacement(es: seq<Event>, b: seq<Event>, e: Event) {
    b == [e] && e.HoldPlaced? && Unused(es, e.holdId)
  }

  /** The source's part of a capture of `amount` out of `hold`. */
  function CaptureSource(a: Account, hold: OpenHold, amount: int): seq<Event> {
    if amount < hold.amount
    then [HoldPosted(a, amount, hold.holdId, hold.counterparty), HoldReleased(a, hold.amount - amount, hold.holdId, Partial)]
    else [HoldPosted(a, amount, hold.holdId, hold.counterparty)]
  }

  function CaptureTarget(a: Account, hold: OpenHold, amount: int): seq<Event> {
    [TransferCredited(hold.counterparty, amount, hold.holdId, a)]
  }

  ghost predicate IsCapture(es: seq<Event>, b: seq<Event>, a: Account, hold: OpenHold, amount: int) {
    && OpenHoldOf(hold.holdId, OnAccount(es, a)) == Some(hold)
    && hold.counterparty != a && amount <= hold.amount
    && b == (if a < hold.counterparty then CaptureSource(a, hold, amount) + CaptureTarget(a, hold, amount)
             else CaptureTarget(a, hold, amount) + CaptureSource(a, hold, amount))
  }

  ghost predicate IsRelease(es: seq<Event>, b: seq<Event>, a: Account, hold: OpenHold, reason: ReleaseReason) {
    && OpenHoldOf(hold.holdId, OnAccount(es, a)) == Some(hold)
    && b == [HoldReleased(a, hold.amount, hold.holdId, reason)] && reason != Partial
  }

  ghost predicate GoodBatch(es: seq<Event>, b: seq<Event>) {
    || (exists e :: IsCash(b, e))
    || (exists t :: IsPosting(es, b, t))
    || (exists r, t :: IsReversal(es, b, r, t))
    || (exists e :: IsPlacement(es, b, e))
    || (exists a, hold, amount :: IsCapture(es, b, a, hold, amount))
    || (exists a, hold, reason :: IsRelease(es, b, a, hold, reason))
  }

  // --------------------------------------------------------- hold derivation

  /** Events that are not hold rows of `h` do not change its status. */
  lemma {:induction false} StatusIgnores(h: Id, s: seq<Event>, b: seq<Event>)
    requires forall i :: 0 <= i < |b| && IsHoldEvent(b[i]) ==> b[i].holdId != h
    ensures StatusOf(h, s + b) == StatusOf(h, s)
    decreases |b|
  {
    if b == [] {
      assert s + b == s;
    } else {
      var n := |b| - 1;
      assert (s + b)[..|s + b| - 1] == s + b[..n];
      StatusIgnores(h, s, b[..n]);
    }
  }

  lemma UnseenWhenUnused(h: Id, s: seq<Event>)
    requires forall i :: 0 <= i < |s| && IsHoldEvent(s[i]) ==> s[i].holdId != h
    ensures StatusOf(h, s) == Unseen
  {
    StatusIgnores(h, [], s);
    assert [] + s == s;
  }

  lemma UnusedOnStream(es: seq<Event>, h: Id, a: Account)
    requires Unused(es, h)
    ensures StatusOf(h, OnAccount(es, a)) == Unseen
  {
    InOnAccount(es, a);
    var s := OnAccount(es, a);
    forall i | 0 <= i < |s| && IsHoldEvent(s[i]) ensures s[i].holdId != h { assert s[i] in es; }
    UnseenWhenUnused(h, s);
  }

  lemma {:induction false} OpenSumSame(s: seq<Event>, s': seq<Event>, n: nat)
    requires forall h :: 0 <= h < n ==> OpenAmount(h, s) == OpenAmount(h, s')
    ensures OpenSum(s, n) == OpenSum(s', n)
  {
    if n > 0 { OpenSumSame(s, s', n - 1); }
  }

  lemma {:induction false} OpenSumDiffersAt(s: seq<Event>, s': seq<Event>, n: nat, k: Id)
    requires k < n
    requires forall h :: 0 <= h < n && h != k ==> OpenAmount(h, s) == OpenAmount(h, s')
    ensures OpenSum(s', n) - OpenSum(s, n) == OpenAmount(k, s') - OpenAmount(k, s)
  {
    if k == n - 1 { OpenSumSame(s, s', n - 1); } else { OpenSumDiffersAt(s, s', n - 1, k); }
  }

  /** Rows that touch no hold keep the equation on a stream. */
  lemma HeldKeptWithoutHolds(s: seq<Event>, b: seq<Event>)
    requires HeldIsOpen(s) && NoHolds(b)
    ensures HeldIsOpen(s + b)
  {
    SumsConcat(s, b);
    HeldSumZero(b);
    forall n | HoldIdsBelow(s + b, n) ensures HeldSum(s + b) == OpenSum(s + b, n) {
      assert HoldIdsBelow(s, n) by {
        forall i | 0 <= i < |s| && IsHoldEvent(s[i]) ensures s[i].holdId < n { assert s[i] == (s + b)[i]; }
      }
      forall h | 0 <= h < n ensures OpenAmount(h, s) == OpenAmount(h, s + b) { StatusIgnores(h, s, b); }
      OpenSumSame(s, s + b, n);
    }
  }

  lemma {:induction false} HeldSumZero(b: seq<Event>)
    requires NoHolds(b)
    ensures HeldSum(b) == 0
  {
    if b != [] { HeldSumZero(b[..|b| - 1]); }
  }

  /** Rows that only touch hold `k`, and move held by what its open amount changes. */
  lemma HeldKeptAtOneHold(s: seq<Event>, b: seq<Event>, k: Id)
    requires HeldIsOpen(s)
    requires exists i :: 0 <= i < |b| && IsHoldEvent(b[i])
    requires forall i :: 0 <= i < |b| && IsHoldEvent(b[i]) ==> b[i].holdId == k
    requires HeldSum(b) == OpenAmount(k, s + b) - OpenAmount(k, s)
    ensures HeldIsOpen(s + b)
  {
    SumsConcat(s, b);
    var j :| 0 <= j < |b| && IsHoldEvent(b[j]);
    forall n | HoldIdsBelow(s + b, n) ensures HeldSum(s + b) == OpenSum(s + b, n) {
      assert (s + b)[|s| + j] == b[j];
      assert k < n;
      assert HoldIdsBelow(s, n) by {
        forall i | 0 <= i < |s| && IsHoldEvent(s[i]) ensures s[i].holdId < n { assert s[i] == (s + b)[i]; }
      }
      forall h | 0 <= h < n && h != k ensures OpenAmount(h, s) == OpenAmount(h, s + b) { StatusIgnores(h, s, b); }
      OpenSumDiffersAt(s, s + b, n, k);
    }
  }
}
