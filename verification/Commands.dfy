/** The nine account commands and what their constructors insist on. */
module Commands {
  import opened Events
  import opened Accounts

  const MAX_LEGS := 16

  datatype Command =
    | Deposit(account: Account, amount: int, expectedVersion: int)
    | Withdraw(account: Account, amount: int, expectedVersion: int)
    | Transfer(account: Account, target: Account, amount: int, expectedVersion: int)
    | Post(account: Account, postings: seq<Leg>, expectedVersion: int)
    | Hold(account: Account, target: Account, amount: int, expectedVersion: int, ttlSeconds: int)
    | PostHold(account: Account, holdId: Id, expectedVersion: int, capture: Option<int>)
    | VoidHold(account: Account, holdId: Id, expectedVersion: int)
    | ExpireHold(account: Account, holdId: Id, expectedVersion: int)
    | Revert(account: Account, transferId: Id, expectedVersion: int)

  predicate ValidVersion(v: int) { 0 <= v <= MAX_BIGINT }

  /** Total amount on one side of a list of legs. */
  function SideTotal(legs: seq<Leg>, side: Direction): int {
    if legs == [] then 0
    else
      var n := |legs| - 1;
      SideTotal(legs[..n], side) + (if legs[n].direction == side then legs[n].amount else 0)
  }

  predicate DistinctAccounts(legs: seq<Leg>) {
    forall i, j :: 0 <= i < j < |legs| ==> legs[i].account != legs[j].account
  }

  predicate ValidPostings(anchor: Account, legs: seq<Leg>) {
    && 2 <= |legs| <= MAX_LEGS
    && (forall i :: 0 <= i < |legs| ==> ValidLeg(legs[i]))
    && DistinctAccounts(legs)
    && SideTotal(legs, Debit) == SideTotal(legs, Credit)
    && exists i :: 0 <= i < |legs| && legs[i].account == anchor && legs[i].direction == Debit
  }

  predicate ValidCommand(c: Command) {
    && ValidVersion(c.expectedVersion)
    && match c
       case Deposit(_, amount, _) => ValidAmount(amount)
       case Withdraw(_, amount, _) => ValidAmount(amount)
       case Transfer(a, target, amount, _) => a != target && ValidAmount(amount)
       case Post(a, legs, _) => ValidPostings(a, legs)
       case Hold(a, target, amount, _, ttl) => a != target && ValidAmount(amount) && ttl >= 1
       case PostHold(_, _, _, capture) => capture.Some? ==> ValidAmount(capture.value)
       case VoidHold(_, _, _) => true
       case ExpireHold(_, _, _) => true
       case Revert(_, _, _) => true
  }

  /** A transfer is the two-leg case of a posting set. */
  function LegsOf(c: Command): seq<Leg>
    requires c.Transfer? || c.Post?
  {
    if c.Transfer? then [Leg(c.account, c.amount, Debit), Leg(c.target, c.amount, Credit)] else c.postings
  }

  /** A posting set has two to sixteen legs. */
  lemma PostingLegs(anchor: Account, legs: seq<Leg>)
    requires ValidPostings(anchor, legs)
    ensures 2 <= |legs| <= 16
  {}

  /** One payer and fifteen payees. */
  function Sixteen(k: nat): (legs: seq<Leg>)
    requires 1 <= k <= 16
    ensures |legs| == k && legs[0] == Leg(0, 15, Debit) && forall i :: 1 <= i < k ==> legs[i] == Leg(i, 1, Credit)
  {
    if k == 1 then [Leg(0, 15, Debit)] else Sixteen(k - 1) + [Leg(k - 1, 1, Credit)]
  }

  lemma {:induction false} SixteenTotals(k: nat)
    requires 1 <= k <= 16
    ensures SideTotal(Sixteen(k), Debit) == 15 && SideTotal(Sixteen(k), Credit) == k - 1
  {
    if k > 1 {
      SixteenTotals(k - 1);
      assert Sixteen(k)[..k - 1] == Sixteen(k - 1);
    } else {
      assert Sixteen(1)[..0] == [];
    }
  }

  /** Sixteen legs are allowed. */
  lemma SixteenLegsAreValid()
    ensures ValidPostings(0, Sixteen(16)) && |Sixteen(16)| == 16
  {
    SixteenTotals(16);
    var legs := Sixteen(16);
    hide SideTotal, Sixteen;
    assert legs[0].account == 0 && legs[0].direction == Debit;
  }

  /** The two-leg view of a valid transfer is itself a valid posting set. */
  lemma PostingSetOf(c: Command)
    requires ValidCommand(c) && (c.Transfer? || c.Post?)
    ensures ValidPostings(c.account, LegsOf(c))
  {
    if c.Transfer? {
      var legs := LegsOf(c);
      assert legs[..1] == [legs[0]] && legs[..1][..0] == [];
      assert SideTotal(legs, Debit) == SideTotal(legs[..1], Debit) == c.amount;
      assert SideTotal(legs[..1], Credit) == 0;
      assert legs[0].account == c.account && legs[0].direction == Debit;
    }
  }
}
