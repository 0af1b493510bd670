/** The units of work are writers of the events table: every insert step of an interleaving is
    one the table allows, so what is proved of the table and its feed covers them. */
module Writers {
  import opened Events
  import opened Accounts
  import opened Views
  import opened Commands
  import opened Execution
  import opened Numbering
  import opened Soundness
  import opened Runs
  import opened Optimistic
  import opened Interleaving
  import opened Serializability
  import opened Uncontended
  import opened LedgerTheorems
  import opened Projection
  import opened Republish
  import O = Outbox
  import L = Ledger

  /** A row the transaction has inserted and not published. */
  ghost predicate Inserted(t: Txn, row: Row) {
    t.phase.Writing? && exists n :: 0 <= n < |t.phase.rows| && n < t.phase.taken && t.phase.rows[n] == row
  }

  ghost predicate HasOpen(slots: seq<O.Slot>, txn: nat, row: Row) {
    exists k :: 0 <= k < |slots| && slots[k].status == O.Open && slots[k].txn == txn && O.RowOf(slots[k]) == row
  }

  /** The table as the system has written it: committed rows are the log, open rows are what the
      writing transactions have inserted. */
  ghost predicate Represents(sys: Sys, slots: seq<O.Slot>) {
    && HoldsLog(slots, sys.db.log)
    && (forall i, row :: 0 <= i < |sys.txns| && Inserted(sys.txns[i], row) ==> HasOpen(slots, i, row))
    && (forall k :: 0 <= k < |slots| && slots[k].status == O.Open ==>
          slots[k].txn < |sys.txns| && Inserted(sys.txns[slots[k].txn], O.RowOf(slots[k])))
  }

  /** The id of the next row is not in use. */
  ghost predicate IdFree(sys: Sys, id: Id) {
    && (forall i :: 0 <= i < |sys.db.log| ==> sys.db.log[i].eventId != id)
    && (forall i, row :: 0 <= i < |sys.txns| && Inserted(sys.txns[i], row) ==> row.eventId != id)
  }

  /** An action that inserts an event row. */
  ghost predicate InsertsRow(sys: Sys, act: Action) {
    && act.Step? && act.i < |sys.txns| && sys.txns[act.i].phase.Writing?
    && sys.txns[act.i].phase.taken < |sys.txns[act.i].phase.rows|
    && !Committed(sys.db, NextKey(sys.txns[act.i])) && !exists j :: WaitsFor(sys, act.i, j)
  }

  function NextRow(t: Txn): Row
    requires t.phase.Writing? && t.phase.taken < |t.phase.rows|
  {
    t.phase.rows[t.phase.taken]
  }

  // ---------------------------------------------------- what a writer has seen

  /** Every number between the fold and the end of a batch's part of a stream is in the batch. */
  lemma {:induction false} NumbersPresent(states: map<Account, AccountState>, legs: seq<Numbered>, a: Account, v: int)
    requires InOrder(states, legs) && a in states
    requires states[a].version < v <= states[a].version + |OnAccount(EventsOfLegs(legs), a)|
    ensures exists m :: 0 <= m < |legs| && legs[m].event.account == a && legs[m].version == v
  {
    if legs != [] {
      var n := |legs| - 1;
      assert EventsOfLegs(legs)[..n] == EventsOfLegs(legs[..n]);
      if legs[n].event.account != a || v != legs[n].version {
        NumbersPresent(states, legs[..n], a, v);
        var m :| 0 <= m < n && legs[..n][m].event.account == a && legs[..n][m].version == v;
        assert legs[m] == legs[..n][m];
      }
    }
  }

  lemma {:induction false} InOrderPrefix(states: map<Account, AccountState>, legs: seq<Numbered>, k: nat)
    requires InOrder(states, legs) && k <= |legs|
    ensures InOrder(states, legs[..k])
    decreases |legs|
  {
    if k == |legs| {
      assert legs[..k] == legs;
    } else {
      assert legs[..|legs| - 1][..k] == legs[..k];
      InOrderPrefix(states, legs[..|legs| - 1], k);
    }
  }

  /** An earlier number of the batch's own stream stands earlier in the batch. */
  lemma EarlierNumber(states: map<Account, AccountState>, legs: seq<Numbered>, n: nat, v: int)
    requires InOrder(states, legs) && n < |legs| && legs[n].event.account in states
    requires states[legs[n].event.account].version < v < legs[n].version
    ensures exists m :: 0 <= m < n && legs[m].event.account == legs[n].event.account && legs[m].version == v
  {
    var a := legs[n].event.account;
    InOrderPrefix(states, legs, n + 1);
    InOrderPrefix(states, legs, n);
    var upTo := legs[..n + 1];
    assert EventsOfLegs(upTo)[..n] == EventsOfLegs(legs[..n]);
    hide InOrder;
    LastNumber(states, upTo);
    assert OnAccount(EventsOfLegs(upTo), a) == OnAccount(EventsOfLegs(legs[..n]), a) + [legs[n].event];
    NumbersPresent(states, legs[..n], a, v);
    var m :| 0 <= m < n && legs[..n][m].event.account == a && legs[..n][m].version == v;
    assert legs[m] == legs[..n][m];
  }

  lemma LastNumber(states: map<Account, AccountState>, legs: seq<Numbered>)
    requires InOrder(states, legs) && legs != []
    ensures var x := legs[|legs| - 1];
            x.event.account in states &&
            x.version == states[x.event.account].version + |OnAccount(EventsOfLegs(legs), x.event.account)|
  {}

  /** The decision behind a writing transaction that has rows. */
  lemma WritingLegs(sys: Sys, i: nat) returns (legs: seq<Numbered>)
    requires SysInv(sys) && i < |sys.txns| && sys.txns[i].phase.Writing? && sys.txns[i].phase.rows != []
    ensures var t := sys.txns[i];
            && t.phase.rows == Stamp(legs, t.request.firstEventId)
            && InOrder(t.phase.seen.states, legs) && KeysAscend(legs) && StatesInv(sys.db.log, t.phase.seen.states)
  {
    hide DbInv, KeysInv, Decide, HoldStill, OriginalStill, ReversalStill, ValidCommand, AcceptedResult, StatesInv,
      InOrder, KeysAscend;
    var t := sys.txns[i];
    assert TxnInv(sys.db.log, t);
    legs :| Decision(t, legs);
    DecideNumbers(t.request.command, t.request.id, t.request.now, t.phase.seen, legs);
  }

  /** Every number before the next row is committed or inserted by the same transaction. */
  lemma SeenBefore(sys: Sys, i: nat, v: int)
    requires SysInv(sys) && i < |sys.txns| && sys.txns[i].phase.Writing? && sys.txns[i].phase.taken < |sys.txns[i].phase.rows|
    requires 1 <= v < NextRow(sys.txns[i]).seqNo
    ensures var a := NextRow(sys.txns[i]).event.account;
            || (exists k :: 0 <= k < |sys.db.log| && sys.db.log[k].event.account == a && sys.db.log[k].seqNo == v)
            || (exists row :: Inserted(sys.txns[i], row) && row.event.account == a && row.seqNo == v)
  {
    hide TxnInv, KeysInv, L.Inv, Contiguous, InOrder, KeysAscend, FoldedEarlier;
    var t := sys.txns[i];
    var legs := WritingLegs(sys, i);
    var n := t.phase.taken;
    var a := legs[n].event.account;
    VersionsAbove(t.phase.seen.states, legs, n);
    var s := t.phase.seen.states[a];
    assert FoldedEarlier(sys.db.log, a, s);
    if v <= s.version {
      FoldedLength(sys.db.log, a, s);
      NumbersTaken(sys.db.log, a, v);
    } else {
      EarlierNumber(t.phase.seen.states, legs, n, v);
      var m :| 0 <= m < n && legs[m].event.account == a && legs[m].version == v;
      var row := t.phase.rows[m];
      assert Inserted(t, row);
    }
  }

  lemma FoldedLength(log: seq<Row>, a: Account, s: AccountState)
    requires FoldedEarlier(log, a, s)
    ensures 0 <= s.version <= |Stream(log, a)|
  {}

  lemma NextNumberPositive(sys: Sys, i: nat)
    requires SysInv(sys) && i < |sys.txns| && sys.txns[i].phase.Writing? && sys.txns[i].phase.taken < |sys.txns[i].phase.rows|
    ensures NextRow(sys.txns[i]).seqNo >= 1
  {
    hide TxnInv, KeysInv, DbInv, InOrder, KeysAscend, FoldedEarlier;
    var t := sys.txns[i];
    var legs := WritingLegs(sys, i);
    VersionsAbove(t.phase.seen.states, legs, t.phase.taken);
    var a := legs[t.phase.taken].event.account;
    FoldedLength(sys.db.log, a, t.phase.seen.states[a]);
  }

  /** A transaction's own inserted rows have other keys than its next one. */
  lemma OwnKeysDiffer(sys: Sys, i: nat, row: Row)
    requires SysInv(sys) && i < |sys.txns| && sys.txns[i].phase.Writing? && sys.txns[i].phase.taken < |sys.txns[i].phase.rows|
    requires Inserted(sys.txns[i], row)
    ensures KeyOf(row) != NextKey(sys.txns[i])
  {
    hide TxnInv, KeysInv, DbInv, InOrder, StatesInv;
    var t := sys.txns[i];
    var legs := WritingLegs(sys, i);
    var n :| 0 <= n < |t.phase.rows| && n < t.phase.taken && t.phase.rows[n] == row;
    assert KeyBefore(legs[n], legs[t.phase.taken]);
  }

  // --------------------------------------------------------- the insert is allowed

  /** Every insert step of an interleaving is an insert the table allows. */
  lemma InsertAllowed(sys: Sys, act: Action, slots: seq<O.Slot>)
    requires SysInv(sys) && Represents(sys, slots) && InsertsRow(sys, act) && IdFree(sys, NextRow(sys.txns[act.i]).eventId)
    ensures var row := NextRow(sys.txns[act.i]);
            O.CanInsert(slots, act.i, row.event, row.seqNo, row.eventId)
  {
    hide SysInv, Inserted, Committed, WaitsFor, NextKey;
    var i, t := act.i, sys.txns[act.i];
    var row := NextRow(t);
    var slot := O.Slot(row.eventId, row.event, row.seqNo, i, O.Open, false);
    NextNumberPositive(sys, i);
    forall v | 1 <= v < row.seqNo ensures O.Sees(slots, slot, v) { SlotSeen(sys, i, slots, slot, v); }
    forall k | 0 <= k < |slots| && slots[k].Live()
      ensures slots[k].eventId != row.eventId && !(slots[k].Stream() == row.event.account && slots[k].seqNo == row.seqNo)
    {
      SlotFree(sys, act, slots, k);
    }
  }

  lemma SlotSeen(sys: Sys, i: nat, slots: seq<O.Slot>, slot: O.Slot, v: int)
    requires SysInv(sys) && Represents(sys, slots) && i < |sys.txns| && sys.txns[i].phase.Writing?
    requires sys.txns[i].phase.taken < |sys.txns[i].phase.rows| && 1 <= v < NextRow(sys.txns[i]).seqNo
    requires slot.status == O.Open && slot.txn == i && slot.event == NextRow(sys.txns[i]).event
    ensures O.Sees(slots, slot, v)
  {
    hide SysInv, Inserted;
    SeenBefore(sys, i, v);
    var a := slot.event.account;
    if k :| 0 <= k < |sys.db.log| && sys.db.log[k].event.account == a && sys.db.log[k].seqNo == v {
      var row := sys.db.log[k];
      assert row in sys.db.log;
      assert HasCommitted(slots, row);
      var m :| 0 <= m < |slots| && slots[m].status == O.Committed && O.RowOf(slots[m]) == row;
      assert O.Visible(slots[m], slot);
    } else {
      var row :| Inserted(sys.txns[i], row) && row.event.account == a && row.seqNo == v;
      assert HasOpen(slots, i, row);
      var m :| 0 <= m < |slots| && slots[m].status == O.Open && slots[m].txn == i && O.RowOf(slots[m]) == row;
      assert O.Visible(slots[m], slot);
    }
  }

  lemma SlotFree(sys: Sys, act: Action, slots: seq<O.Slot>, k: nat)
    requires SysInv(sys) && Represents(sys, slots) && InsertsRow(sys, act) && IdFree(sys, NextRow(sys.txns[act.i]).eventId)
    requires k < |slots| && slots[k].Live()
    ensures var row := NextRow(sys.txns[act.i]);
            slots[k].eventId != row.eventId && KeyOf(O.RowOf(slots[k])) != KeyOf(row)
  {
    hide SysInv, Inserted;
    var i := act.i;
    var row, there := NextRow(sys.txns[i]), O.RowOf(slots[k]);
    assert NextKey(sys.txns[i]) == KeyOf(row);
    if slots[k].status == O.Committed {
      assert there in sys.db.log;
      var m :| 0 <= m < |sys.db.log| && sys.db.log[m] == there;
    } else {
      var j := slots[k].txn;
      assert Inserted(sys.txns[j], there);
      if j == i {
        OwnKeysDiffer(sys, i, there);
      } else {
        InsertedIsHeld(sys.txns[j], there);
        assert !WaitsFor(sys, i, j);
      }
    }
  }

  lemma InsertedIsHeld(t: Txn, row: Row)
    requires Inserted(t, row)
    ensures Holds(t, KeyOf(row))
  {}

  // ------------------------------------------------------------ the table follows

  /** The same rows are in the same hands. */
  ghost predicate SameHands(x: Sys, y: Sys) {
    && y.db.log == x.db.log && |x.txns| <= |y.txns|
    && (forall i, row :: 0 <= i < |x.txns| ==> (Inserted(x.txns[i], row) <==> Inserted(y.txns[i], row)))
    && (forall i, row :: |x.txns| <= i < |y.txns| ==> !Inserted(y.txns[i], row))
  }

  lemma RepresentsStill(x: Sys, y: Sys, slots: seq<O.Slot>)
    requires Represents(x, slots) && SameHands(x, y)
    ensures Represents(y, slots)
  {
    hide Inserted, HasOpen, HoldsLog;
  }

  /** A new open row for the next insert. */
  lemma RowInserted(sys: Sys, y: Sys, i: nat, slots: seq<O.Slot>, slot: O.Slot)
    requires Represents(sys, slots) && i < |sys.txns| == |y.txns| && y.db.log == sys.db.log
    requires slot.status == O.Open && slot.txn == i
    requires forall j, row :: 0 <= j < |sys.txns| ==>
               (Inserted(y.txns[j], row) <==> Inserted(sys.txns[j], row) || (j == i && row == O.RowOf(slot)))
    ensures Represents(y, slots + [slot])
  {
    hide Inserted;
    var all := slots + [slot];
    assert all[|slots|] == slot;
    forall row | row in y.db.log ensures HasCommitted(all, row) {
      assert HasCommitted(slots, row);
      var k :| 0 <= k < |slots| && slots[k].status == O.Committed && O.RowOf(slots[k]) == row;
      assert all[k] == slots[k];
    }
    forall j, row | 0 <= j < |y.txns| && Inserted(y.txns[j], row) ensures HasOpen(all, j, row) {
      if Inserted(sys.txns[j], row) {
        assert HasOpen(slots, j, row);
        var k :| 0 <= k < |slots| && slots[k].status == O.Open && slots[k].txn == j && O.RowOf(slots[k]) == row;
        assert all[k] == slots[k];
      }
    }
  }

  /** A transaction ends: its open rows become the log's or are lost, nobody else's change. */
  lemma RowsFinished(sys: Sys, y: Sys, i: nat, slots: seq<O.Slot>, status: O.Status, rows: seq<Row>)
    requires Represents(sys, slots) && i < |sys.txns| == |y.txns| && y.db.log == sys.db.log + rows
    requires status == O.Committed || (status == O.Reverted && rows == [])
    requires forall row :: Inserted(sys.txns[i], row) && status == O.Committed ==> row in rows
    requires forall row :: row in rows ==> Inserted(sys.txns[i], row)
    requires forall j, row :: 0 <= j < |sys.txns| ==> (Inserted(y.txns[j], row) <==> j != i && Inserted(sys.txns[j], row))
    ensures Represents(y, O.Finished(slots, i, status))
  {
    hide Inserted;
    var all := O.Finished(slots, i, status);
    forall row | row in y.db.log ensures HasCommitted(all, row) {
      if row in sys.db.log {
        assert HasCommitted(slots, row);
        var k :| 0 <= k < |slots| && slots[k].status == O.Committed && O.RowOf(slots[k]) == row;
        assert all[k] == slots[k];
      } else {
        assert HasOpen(slots, i, row);
        var k :| 0 <= k < |slots| && slots[k].status == O.Open && slots[k].txn == i && O.RowOf(slots[k]) == row;
        assert all[k] == slots[k].(status := status);
      }
    }
    forall j, row | 0 <= j < |y.txns| && Inserted(y.txns[j], row) ensures HasOpen(all, j, row) {
      assert HasOpen(slots, j, row);
      var k :| 0 <= k < |slots| && slots[k].status == O.Open && slots[k].txn == j && O.RowOf(slots[k]) == row;
      assert all[k] == slots[k];
    }
  }

  // --- what each action does to the inserted rows

  lemma TakesRow(t: Txn, row: Row)
    requires t.phase.Writing? && t.phase.taken <= |t.phase.rows|
    ensures var u := t.(phase := t.phase.(taken := t.phase.taken + 1));
            Inserted(u, row) <==> Inserted(t, row) || (t.phase.taken < |t.phase.rows| && row == NextRow(t))
  {
    if t.phase.taken < |t.phase.rows| && row == NextRow(t) { assert t.phase.rows[t.phase.taken] == row; }
    if Inserted(t, row) {
      var n :| 0 <= n < |t.phase.rows| && n < t.phase.taken && t.phase.rows[n] == row;
    }
  }

  lemma NothingInserted(t: Txn, row: Row)
    requires !t.phase.Writing? || t.phase.taken == 0
    ensures !Inserted(t, row)
  {}

  lemma AllInserted(t: Txn, row: Row)
    requires t.phase.Writing? && t.phase.taken > |t.phase.rows|
    ensures Inserted(t, row) <==> row in t.phase.rows
  {}

  lemma ReadTakesNothing(db: Db, t: Txn, now: int, first: Id)
    requires Shape(t) && (t.phase.Begin? || t.phase.FoldAnchor? || t.phase.ReadTarget? || t.phase.FoldNext?)
    ensures var u := Read(db, t, now, first); !u.phase.Writing? || u.phase.taken == 0
  {
    hide Decide, FoldStream, HoldRead, OriginalRead, RevertedByRead, Stamp, AcceptedResult, Named;
  }

  /** An action that neither inserts a row nor ends a writing transaction. */
  ghost predicate Quiet(sys: Sys, act: Action) {
    && !InsertsRow(sys, act)
    && (act.Step? && act.i < |sys.txns| && sys.txns[act.i].phase.Writing? ==>
          sys.txns[act.i].phase.taken <= |sys.txns[act.i].phase.rows| && !Committed(sys.db, NextKey(sys.txns[act.i])))
    && (act.Abort? && act.i < |sys.txns| ==> !sys.txns[act.i].phase.Writing?)
  }

  lemma QuietKeeps(sys: Sys, act: Action)
    requires Shaped(sys) && Quiet(sys, act)
    ensures SameHands(sys, Do(sys, act))
  {
    hide Inserted, Read, Committed, NextKey, WaitsFor, Shape, ValidCommand;
    var y := Do(sys, act);
    forall i, row | 0 <= i < |sys.txns| ensures Inserted(sys.txns[i], row) <==> Inserted(y.txns[i], row) {
      if y.txns[i] != sys.txns[i] {
        var t := sys.txns[i];
        if t.phase.Writing? {
          TakesRow(t, row);
        } else {
          NothingInserted(t, row);
          if act.Step? { ReadTakesNothing(sys.db, t, act.now, act.firstEventId); }
          NothingInserted(y.txns[i], row);
        }
      }
    }
    forall i, row | |sys.txns| <= i < |y.txns| ensures !Inserted(y.txns[i], row) { NothingInserted(y.txns[i], row); }
  }

  /** What ends a writing transaction, and how its rows fare. */
  lemma EndKeeps(sys: Sys, act: Action, slots: seq<O.Slot>) returns (slots': seq<O.Slot>)
    requires Shaped(sys) && Represents(sys, slots) && O.TableInv(slots) && !act.Submit? && act.i < |sys.txns|
    requires sys.txns[act.i].phase.Writing? && !InsertsRow(sys, act) && !Quiet(sys, act)
    ensures O.TableInv(slots') && Represents(Do(sys, act), slots')
  {
    hide Inserted, Read, Committed, NextKey, WaitsFor, Shape, ValidCommand, Represents, O.TableInv;
    var i, t, y := act.i, sys.txns[act.i], Do(sys, act);
    var commits := act.Step? && t.phase.taken > |t.phase.rows|;
    var status := if commits then O.Committed else O.Reverted;
    slots' := O.Finished(slots, i, status);
    O.FinishKeeps(slots, i, status);
    forall j, row | 0 <= j < |sys.txns| ensures Inserted(y.txns[j], row) <==> j != i && Inserted(sys.txns[j], row) {
      if j == i { NothingInserted(y.txns[i], row); }
    }
    if commits {
      forall row ensures Inserted(t, row) <==> row in t.phase.rows { AllInserted(t, row); }
      RowsFinished(sys, y, i, slots, status, t.phase.rows);
    } else {
      assert sys.db.log + [] == sys.db.log;
      RowsFinished(sys, y, i, slots, status, []);
    }
  }

  lemma InsertKept(sys: Sys, act: Action, slots: seq<O.Slot>) returns (slots': seq<O.Slot>)
    requires SysInv(sys) && Represents(sys, slots) && O.TableInv(slots) && InsertsRow(sys, act)
    requires IdFree(sys, NextRow(sys.txns[act.i]).eventId)
    ensures O.TableInv(slots') && Represents(Do(sys, act), slots')
  {
    hide Inserted, Read, Committed, NextKey, WaitsFor, Shape, ValidCommand, Represents, O.TableInv, DbInv, TxnInv,
      KeysInv, O.CanInsert, IdFree;
    var i, t, y := act.i, sys.txns[act.i], Do(sys, act);
    var row := NextRow(t);
    var slot := O.Slot(row.eventId, row.event, row.seqNo, i, O.Open, false);
    InsertAllowed(sys, act, slots);
    O.InsertKeeps(slots, i, row.event, row.seqNo, row.eventId);
    slots' := slots + [slot];
    assert O.RowOf(slot) == row;
    forall j, other | 0 <= j < |sys.txns|
      ensures Inserted(y.txns[j], other) <==> Inserted(sys.txns[j], other) || (j == i && other == row)
    {
      if j == i { TakesRow(t, other); }
    }
    RowInserted(sys, y, i, slots, slot);
  }

  /** Every event id a run draws for an insert is new. */
  ghost predicate FreshIds(acts: seq<Action>) {
    acts == [] ||
    var sys, act := Concurrent(acts[..|acts| - 1]), acts[|acts| - 1];
    FreshIds(acts[..|acts| - 1]) && (InsertsRow(sys, act) ==> IdFree(sys, NextRow(sys.txns[act.i]).eventId))
  }

  /** For every interleaving with fresh event ids there is an events table, in order, whose
      committed rows are the log and whose open rows are the unpublished inserts. */
  lemma {:induction false} TableFollows(acts: seq<Action>) returns (slots: seq<O.Slot>)
    requires FreshIds(acts)
    ensures O.TableInv(slots) && Represents(Concurrent(acts), slots)
  {
    if acts == [] {
      slots := [];
    } else {
      hide Do, SysInv, Represents, O.TableInv, IdFree, InsertsRow, Quiet;
      var n := |acts| - 1;
      var sys, act := Concurrent(acts[..n]), acts[n];
      var before := TableFollows(acts[..n]);
      ConcurrentKeeps(acts[..n]);
      slots := FollowStep(sys, act, before);
    }
  }

  lemma FollowStep(sys: Sys, act: Action, slots: seq<O.Slot>) returns (slots': seq<O.Slot>)
    requires SysInv(sys) && Represents(sys, slots) && O.TableInv(slots)
    requires InsertsRow(sys, act) ==> IdFree(sys, NextRow(sys.txns[act.i]).eventId)
    ensures O.TableInv(slots') && Represents(Do(sys, act), slots')
  {
    hide Do, Represents, O.TableInv, IdFree, DbInv, TxnInv, KeysInv, Shape, Committed, NextKey, WaitsFor;
    if InsertsRow(sys, act) {
      slots' := InsertKept(sys, act, slots);
    } else if Quiet(sys, act) {
      QuietKeeps(sys, act);
      RepresentsStill(sys, Do(sys, act), slots);
      slots' := slots;
    } else {
      slots' := EndKeeps(sys, act, slots);
    }
  }

  // -------------------------------------------------------- from writers to tables

  lemma LogSurvivesRelay(slots: seq<O.Slot>, log: seq<Row>)
    requires HoldsLog(slots, log)
    ensures HoldsLog(O.Flipped(O.Unpublished(slots)), log) && FullyRelayed(O.Flipped(O.Unpublished(slots)))
  {
    RelayHoldsLog(slots, log);
  }

  /** The entries a relay of unpublished rows into an empty outbox makes. */
  function Entries(rows: seq<O.Slot>, pending: seq<nat>): (r: seq<O.Entry>)
    requires forall k :: 0 <= k < |pending| ==> pending[k] < |rows|
    ensures O.Publishes(rows, 0, pending, r)
  {
    seq(|pending|, k requires 0 <= k < |pending| => O.Entry(k + 1, rows[pending[k]].eventId))
  }

  /** Whatever the interleaving, publishing the table its writers left behind and consuming the
      feed builds exactly the read models of the log. */
  lemma WritersFeedTheTables(acts: seq<Action>) returns (rows: seq<O.Slot>, outbox: seq<O.Entry>, origin: seq<nat>)
    requires FreshIds(acts)
    ensures O.TableInv(rows) && O.FeedInv(rows, outbox, origin) && O.StreamOrder(rows, origin)
    ensures HoldsLog(rows, Concurrent(acts).db.log) && FullyRelayed(rows)
    ensures Project(EventsOf(O.Feed(rows, origin))) == Project(EventsOf(Concurrent(acts).db.log))
  {
    hide Concurrent, Run, AcceptedRequests, Project, O.TableInv, HoldsLog, FullyRelayed, O.StreamOrder,
      O.PublishedPrefix, FreshIds;
    var slots := TableFollows(acts);
    var log := Concurrent(acts).db.log;
    O.ResetKeeps(slots);
    var fresh0 := O.Unpublished(slots);
    O.PendingSpec(fresh0);
    origin := O.Pending(fresh0);
    outbox := Entries(fresh0, origin);
    NothingPublished(fresh0);
    assert [] + outbox == outbox && [] + origin == origin;
    O.RelayKeeps(fresh0, [], [], outbox);
    rows := O.Flipped(fresh0);
    LogSurvivesRelay(slots, log);
    ConcurrentIsSerial(acts);
    TableProjects(AcceptedRequests(acts), rows, outbox, origin);
  }

  lemma NothingPublished(rows: seq<O.Slot>)
    requires forall i :: 0 <= i < |rows| ==> !rows[i].published
    ensures O.FeedInv(rows, [], []) && O.StreamOrder(rows, []) && O.PublishedPrefix(rows)
  {}
}
