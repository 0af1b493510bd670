/** The read models: what each event does to the derived tables, and the tables a log means. */
module Projection {
  import opened Events
  import opened Accounts
  import opened Views

  datatype BalanceRow = BalanceRow(balance: int, held: int, version: int)

  datatype HoldState = OpenState | PostedState | VoidedState | ExpiredState

  datatype HoldRow = HoldRow(source: Account, target: Account, amount: int, expiresAt: int, state: HoldState)

  datatype Kind = TransferKind | HoldPostingKind | ReversalKind

  datatype TransferRow = TransferRow(kind: Kind, reverts: Option<Id>, revertedBy: Option<Id>)

  datatype LegRow = LegRow(amount: int, direction: Direction)

  datatype Tables = Tables(balances: map<Account, BalanceRow>, holds: map<Id, HoldRow>,
                           transfers: map<Id, TransferRow>, legs: map<(Id, Account), LegRow>)

  const EMPTY_TABLES := Tables(map[], map[], map[], map[])

  // ----------------------------------------------------------------- effects

  /** The kind a movement event claims for its set. */
  function KindOf(e: Event): Kind
    requires IsMovement(e)
  {
    if e.HoldPosted? then HoldPostingKind
    else if e.ReversalDebited? || e.ReversalCredited? then ReversalKind
    else TransferKind
  }

  function Rank(k: Kind): int {
    match k case TransferKind => 0 case HoldPostingKind => 1 case ReversalKind => 2
  }

  /** The CASE of the upsert: a set row is only ever upgraded. */
  function UpsertKind(current: Kind, incoming: Kind): Kind {
    if incoming == ReversalKind then ReversalKind
    else if incoming == HoldPostingKind && current == TransferKind then HoldPostingKind
    else current
  }

  /** The SQL of both stores is the ranked rule the read model documents. */
  lemma UpsertIsStronger(current: Kind, incoming: Kind)
    ensures UpsertKind(current, incoming) == if Rank(incoming) > Rank(current) then incoming else current
  {}

  /** The kind of a set row after the legs of a set arrived in some order. */
  function Upserts(first: Kind, kinds: seq<Kind>): Kind {
    if kinds == [] then first else UpsertKind(Upserts(first, kinds[..|kinds| - 1]), kinds[|kinds| - 1])
  }

  /** Whatever the order, the row ends with a strongest kind among those that arrived. */
  lemma {:induction false} UpsertsPickStrongest(first: Kind, kinds: seq<Kind>)
    ensures Upserts(first, kinds) == first || Upserts(first, kinds) in kinds
    ensures Rank(first) <= Rank(Upserts(first, kinds))
    ensures forall i :: 0 <= i < |kinds| ==> Rank(kinds[i]) <= Rank(Upserts(first, kinds))
  {
    if kinds != [] {
      var n := |kinds| - 1;
      UpsertsPickStrongest(first, kinds[..n]);
      UpsertIsStronger(Upserts(first, kinds[..n]), kinds[n]);
      forall i | 0 <= i < |kinds| ensures Rank(kinds[i]) <= Rank(Upserts(first, kinds)) {
        if i < n { assert kinds[..n][i] == kinds[i]; }
      }
    }
  }

  function ApplyBalance(rows: map<Account, BalanceRow>, e: Event): map<Account, BalanceRow> {
    var row := if e.account in rows then rows[e.account] else BalanceRow(0, 0, 0);
    rows[e.account := BalanceRow(row.balance + BalanceDelta(e), row.held + HeldDelta(e), row.version + 1)]
  }

  function ApplyHold(rows: map<Id, HoldRow>, e: Event): map<Id, HoldRow> {
    if e.HoldPlaced? then
      if e.holdId in rows then rows
      else rows[e.holdId := HoldRow(e.account, e.counterparty, e.amount, e.expiresAt, OpenState)]
    else if e.HoldPosted? then
      if e.holdId in rows then rows[e.holdId := rows[e.holdId].(state := PostedState)] else rows
    else if e.HoldReleased? && e.reason != Partial then
      if e.holdId in rows
      then rows[e.holdId := rows[e.holdId].(state := if e.reason == Voided then VoidedState else ExpiredState)]
      else rows
    else rows
  }

  function UpsertTransfer(rows: map<Id, TransferRow>, e: Event): map<Id, TransferRow>
    requires IsMovement(e)
  {
    var t := SetId(e).value;
    if t in rows then rows[t := rows[t].(kind := UpsertKind(rows[t].kind, KindOf(e)))]
    else rows[t := TransferRow(KindOf(e), RevertsColumn(e), None)]
  }

  function MarkReverted(rows: map<Id, TransferRow>, e: Event): map<Id, TransferRow>
    requires IsMovement(e)
  {
    var marks := RevertsColumn(e);
    if marks.Some? && marks.value in rows && rows[marks.value].revertedBy.None?
    then rows[marks.value := rows[marks.value].(revertedBy := SetId(e))] else rows
  }

  function ApplyTransfer(rows: map<Id, TransferRow>, e: Event): map<Id, TransferRow> {
    if IsMovement(e) then MarkReverted(UpsertTransfer(rows, e), e) else rows
  }

  function ApplyLeg(rows: map<(Id, Account), LegRow>, e: Event): map<(Id, Account), LegRow> {
    if IsMovement(e) && (SetId(e).value, e.account) !in rows
    then rows[(SetId(e).value, e.account) := LegRow(e.amount, if BalanceSign(e) < 0 then Debit else Credit)]
    else rows
  }

  /** One event applied to every table. */
  function ApplyTables(t: Tables, e: Event): Tables {
    Tables(ApplyBalance(t.balances, e), ApplyHold(t.holds, e), ApplyTransfer(t.transfers, e), ApplyLeg(t.legs, e))
  }

  /** The tables after a sequence of deliveries. */
  function Project(events: seq<Event>): Tables {
    if events == [] then EMPTY_TABLES
    else ApplyTables(Project(events[..|events| - 1]), events[|events| - 1])
  }

  // ---------------------------------------------- what the tables of a log mean

  /** Balances are the signed sums of the account's own events. */
  lemma {:induction false} BalancesMean(events: seq<Event>, a: Account)
    ensures a in Project(events).balances <==> OnAccount(events, a) != []
    ensures a in Project(events).balances ==>
              var own := OnAccount(events, a);
              Project(events).balances[a] == BalanceRow(BalanceSum(own), HeldSum(own), |own|)
  {
    if events != [] {
      var n := |events| - 1;
      var e := events[n];
      BalancesMean(events[..n], a);
      var own, rows := OnAccount(events[..n], a), Project(events[..n]).balances;
      assert OnAccount(events, a) == if e.account == a then own + [e] else own;
      assert Project(events).balances == ApplyBalance(rows, e) by { hide ApplyBalance, ApplyHold, ApplyTransfer, ApplyLeg; }
      hide OnAccount, Project;
      SumsPlus(own, e);
    }
  }

  lemma SumsPlus(s: seq<Event>, e: Event)
    ensures BalanceSum(s + [e]) == BalanceSum(s) + BalanceDelta(e)
    ensures HeldSum(s + [e]) == HeldSum(s) + HeldDelta(e)
  {
    assert (s + [e])[..|s|] == s;
  }

  /** The first movement leg of set `t` in a list. */
  function FirstLeg(events: seq<Event>, t: Id): Option<Event> {
    if events == [] then None
    else
      var before := FirstLeg(events[..|events| - 1], t);
      var e := events[|events| - 1];
      if before.Some? then before else if IsMovement(e) && SetId(e) == Some(t) then Some(e) else None
  }

  /** The legs table holds, for each set and account, that account's leg of the set. */
  lemma {:induction false} LegsMean(events: seq<Event>, t: Id, a: Account)
    ensures (t, a) in Project(events).legs <==> FirstLeg(OnAccount(events, a), t).Some?
    ensures (t, a) in Project(events).legs ==>
              var leg := FirstLeg(OnAccount(events, a), t).value;
              Project(events).legs[(t, a)] == LegRow(leg.amount, if BalanceSign(leg) < 0 then Debit else Credit)
  {
    if events != [] {
      var n := |events| - 1;
      var e := events[n];
      LegsMean(events[..n], t, a);
      var own, rows := OnAccount(events[..n], a), Project(events[..n]).legs;
      assert OnAccount(events, a) == if e.account == a then own + [e] else own;
      assert Project(events).legs == ApplyLeg(rows, e) by { hide ApplyBalance, ApplyHold, ApplyTransfer, ApplyLeg; }
      FirstLegPlus(own, e, t);
      LegStep(rows, e, t, a);
      hide OnAccount, Project, FirstLeg, ApplyLeg, IsMovement, SetId, BalanceSign;
    }
  }

  lemma LegStep(rows: map<(Id, Account), LegRow>, e: Event, t: Id, a: Account)
    ensures var own := IsMovement(e) && SetId(e) == Some(t) && e.account == a;
            var after := ApplyLeg(rows, e);
            && ((t, a) in after <==> (t, a) in rows || own)
            && ((t, a) in rows ==> after[(t, a)] == rows[(t, a)])
            && ((t, a) !in rows && own ==> after[(t, a)] == LegRow(e.amount, if BalanceSign(e) < 0 then Debit else Credit))
  {}

  lemma FirstLegPlus(s: seq<Event>, e: Event, t: Id)
    ensures FirstLeg(s + [e], t) ==
            if FirstLeg(s, t).Some? then FirstLeg(s, t) else if IsMovement(e) && SetId(e) == Some(t) then Some(e) else None
  {
    assert (s + [e])[..|s|] == s;
  }

  // ------------------------------------------------------------------- holds

  /** All hold rows of one id are on account `a`. */
  ghost predicate HoldOn(events: seq<Event>, h: Id, a: Account) {
    forall i :: 0 <= i < |events| && IsHoldEvent(events[i]) && events[i].holdId == h ==> events[i].account == a
  }

  function HoldLookup(events: seq<Event>, h: Id): Option<HoldRow> {
    if h in Project(events).holds then Some(Project(events).holds[h]) else None
  }

  lemma HoldStep(s: seq<Event>, e: Event, h: Id)
    ensures !(IsHoldEvent(e) && e.holdId == h) ==> HoldLookup(s + [e], h) == HoldLookup(s, h)
    ensures HoldLookup(s, h) == None && e.HoldPlaced? && e.holdId == h ==>
              HoldLookup(s + [e], h) == Some(HoldRow(e.account, e.counterparty, e.amount, e.expiresAt, OpenState))
    ensures HoldLookup(s, h).Some? && Closes(e, h) ==>
              HoldLookup(s + [e], h).Some? && HoldLookup(s + [e], h).value.state != OpenState
    ensures forall s' :: HoldLookup(s', h) == HoldLookup(s, h) ==> HoldLookup(s' + [e], h) == HoldLookup(s + [e], h)
  {
    hide ApplyBalance, ApplyTransfer, ApplyLeg;
    assert (s + [e])[..|s|] == s;
    forall s' | HoldLookup(s', h) == HoldLookup(s, h) ensures HoldLookup(s' + [e], h) == HoldLookup(s + [e], h) {
      assert (s' + [e])[..|s'|] == s';
    }
  }

  /** A hold's row depends on its own stream only. */
  lemma {:induction false} HoldsLocal(events: seq<Event>, h: Id, a: Account)
    requires HoldOn(events, h, a)
    ensures HoldLookup(events, h) == HoldLookup(OnAccount(events, a), h)
  {
    if events != [] {
      var n := |events| - 1;
      var e := events[n];
      assert events == events[..n] + [e];
      HoldsLocal(events[..n], h, a);
      HoldStep(events[..n], e, h);
      HoldStep(OnAccount(events[..n], a), e, h);
    }
  }
}
