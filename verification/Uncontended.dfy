/** Every serial run is one of the interleavings: a transaction that runs while no other is
    writing answers and stores exactly what the serial unit of work does. */
module Uncontended {
  import opened Events
  import opened Accounts
  import opened Views
  import opened Commands
  import opened Execution
  import opened Numbering
  import opened Soundness
  import opened Runs
  import opened LedgerTheorems
  import opened Optimistic
  import opened Interleaving
  import L = Ledger

  /** No transaction holds a key. */
  ghost predicate Idle(txns: seq<Txn>) {
    forall i :: 0 <= i < |txns| ==> !txns[i].phase.Writing?
  }

  /** The run `acts` has left the other transactions at `txns` and the newest one at `t`. */
  ghost predicate At(acts: seq<Action>, db: Db, txns: seq<Txn>, t: Txn) {
    Concurrent(acts) == Sys(db, txns + [t])
  }

  lemma Extend(acts: seq<Action>, act: Action)
    ensures Concurrent(acts + [act]) == Do(Concurrent(acts), act)
  {
    assert (acts + [act])[..|acts|] == acts;
  }

  lemma ReadStep(acts: seq<Action>, db: Db, txns: seq<Txn>, t: Txn, now: int, first: Id) returns (acts': seq<Action>)
    requires At(acts, db, txns, t)
    requires t.phase.Begin? || t.phase.FoldAnchor? || t.phase.ReadTarget? || t.phase.FoldNext?
    ensures Shape(t) && At(acts', db, txns, Read(db, t, now, first))
  {
    hide Read, Shape;
    assert Concurrent(acts).txns[|txns|] == t;
    acts' := acts + [Step(|txns|, now, first)];
    Extend(acts, Step(|txns|, now, first));
    var t' := Read(db, t, now, first);
    assert (txns + [t])[|txns| := t'] == txns + [t'];
  }

  /** Folding the named streams one step at a time is folding them all at once. */
  lemma {:induction false} FoldAll(acts: seq<Action>, db: Db, txns: seq<Txn>, t: Txn, k: nat) returns (acts': seq<Action>)
    requires At(acts, db, txns, t) && t.phase.FoldNext? && t.phase.k == 0 && k <= |NamedOf(t)|
    requires L.StreamsFold(EventsOf(db.log))
    ensures FoldOthers(db.log, t.phase.seen.states, NamedOf(t)[..k]).Ok?
    ensures var states := FoldOthers(db.log, t.phase.seen.states, NamedOf(t)[..k]).value;
            At(acts', db, txns, t.(phase := FoldNext(t.phase.seen.(states := states), k)))
    decreases k
  {
    hide Concurrent;
    var named := NamedOf(t);
    FoldOthersFolds(db.log, t.phase.seen.states, named[..k]);
    if k == 0 {
      acts' := acts;
      assert t.(phase := FoldNext(t.phase.seen.(states := t.phase.seen.states), 0)) == t;
    } else {
      var before := FoldAll(acts, db, txns, t, k - 1);
      assert named[..k][..k - 1] == named[..k - 1];
      var m := FoldOthers(db.log, t.phase.seen.states, named[..k - 1]).value;
      acts' := ReadStep(before, db, txns, t.(phase := FoldNext(t.phase.seen.(states := m), k - 1)), 0, 0);
    }
  }

  // ---------------------------------------------------------------- writing

  ghost predicate Free(db: Db, t: Txn)
    requires t.phase.Writing?
  {
    t.request.id !in db.results && RowsFree(db.log, t.phase.rows)
  }

  lemma NextKeyFree(db: Db, t: Txn)
    requires t.phase.Writing? && t.phase.taken <= |t.phase.rows| && Free(db, t)
    ensures !Committed(db, NextKey(t))
  {
    var key := NextKey(t);
    if t.phase.taken < |t.phase.rows| {
      forall i | 0 <= i < |db.log| ensures KeyOf(db.log[i]) != key {}
    }
  }

  lemma {:induction false} TakeAll(acts: seq<Action>, db: Db, txns: seq<Txn>, t: Txn, k: nat) returns (acts': seq<Action>)
    requires At(acts, db, txns, t) && t.phase.Writing? && t.phase.taken == 0 && k <= |t.phase.rows| + 1
    requires Idle(txns) && Free(db, t)
    ensures At(acts', db, txns, t.(phase := t.phase.(taken := k)))
    decreases k
  {
    hide Concurrent, Free, Committed;
    if k == 0 {
      acts' := acts;
    } else {
      var before := TakeAll(acts, db, txns, t, k - 1);
      var u := t.(phase := t.phase.(taken := k - 1));
      assert Free(db, u) by { FreeSame(db, t, u); }
      acts' := TakeStep(before, db, txns, u);
    }
  }

  lemma FreeSame(db: Db, t: Txn, u: Txn)
    requires t.phase.Writing? && Free(db, t) && u.phase.Writing? && u.request == t.request && u.phase.rows == t.phase.rows
    ensures Free(db, u)
  {}

  lemma TakeStep(acts: seq<Action>, db: Db, txns: seq<Txn>, t: Txn) returns (acts': seq<Action>)
    requires At(acts, db, txns, t) && t.phase.Writing? && t.phase.taken <= |t.phase.rows|
    requires Idle(txns) && Free(db, t)
    ensures At(acts', db, txns, t.(phase := t.phase.(taken := t.phase.taken + 1)))
  {
    hide Free, Committed, NextKey, Read;
    var sys := Concurrent(acts);
    assert sys.txns[|txns|] == t;
    NextKeyFree(db, t);
    forall j: nat ensures !WaitsFor(sys, |txns|, j) {
      if j < |txns| { assert sys.txns[j] == txns[j]; }
    }
    Extend(acts, Step(|txns|, 0, 0));
    acts' := acts + [Step(|txns|, 0, 0)];
    var t' := t.(phase := t.phase.(taken := t.phase.taken + 1));
    assert (txns + [t])[|txns| := t'] == txns + [t'];
  }

  lemma WriteAll(acts: seq<Action>, db: Db, txns: seq<Txn>, t: Txn) returns (acts': seq<Action>)
    requires At(acts, db, txns, t) && t.phase.Writing? && t.phase.taken == 0
    requires Idle(txns) && Free(db, t)
    ensures At(acts', Published(db, t), txns, t.(phase := Answered(Decided(t.phase.stored))))
  {
    hide Free, Committed, Read;
    var taken := |t.phase.rows| + 1;
    var before := TakeAll(acts, db, txns, t, taken);
    var u := t.(phase := t.phase.(taken := taken));
    assert Concurrent(before).txns[|txns|] == u;
    Extend(before, Step(|txns|, 0, 0));
    acts' := before + [Step(|txns|, 0, 0)];
    var t' := t.(phase := Answered(Decided(t.phase.stored)));
    assert (txns + [u])[|txns| := t'] == txns + [t'];
  }

  // ----------------------------------------------------------- fresh numbers

  lemma {:induction false} NumbersBelow(log: seq<Row>, i: nat)
    requires Contiguous(log) && i < |log|
    ensures log[i].seqNo <= |Stream(log, log[i].event.account)|
  {
    var n := |log| - 1;
    assert EventsOf(log)[..n] == EventsOf(log[..n]);
    if i < n { NumbersBelow(log[..n], i); }
  }

  lemma {:induction false} VersionsAbove(states: map<Account, AccountState>, legs: seq<Numbered>, n: nat)
    requires InOrder(states, legs) && n < |legs|
    ensures legs[n].event.account in states && legs[n].version > states[legs[n].event.account].version
  {
    var last := |legs| - 1;
    if n < last {
      VersionsAbove(states, legs[..last], n);
    } else {
      assert EventsOfLegs(legs)[last] == legs[last].event;
    }
  }

  lemma RowsFreeAfter(log: seq<Row>, states: map<Account, AccountState>, legs: seq<Numbered>, first: Id)
    requires Contiguous(log) && InOrder(states, legs)
    requires forall a :: a in states ==> states[a].version == |Stream(log, a)|
    ensures RowsFree(log, Stamp(legs, first))
  {
    hide Contiguous, Stream, InOrder;
    var rows := Stamp(legs, first);
    forall n, i | 0 <= n < |rows| && 0 <= i < |log| ensures KeyOf(log[i]) != KeyOf(rows[n]) {
      NumbersBelow(log, i);
      VersionsAbove(states, legs, n);
      assert rows[n].seqNo == legs[n].version && rows[n].event == legs[n].event;
    }
  }

  // ------------------------------------------------------------ one request

  /** A conclusion is published at once when nobody else writes. */
  lemma Finish(acts: seq<Action>, db: Db, txns: seq<Txn>, t: Txn, r: Reads)
    returns (acts': seq<Action>, t': Txn)
    requires DbInv(db) && Idle(txns) && t.request.id !in db.results && ExactReads(EventsOf(db.log), t.request.command, r)
    requires FoldStream(db.log, t.request.command.account) == Ok(r.states[t.request.command.account])
    requires ReadAll(db.log, t.request.command, r.states[t.request.command.account]) == Ok(r)
    requires r.states[t.request.command.account].version == t.request.command.expectedVersion
    requires At(acts, db, txns, Conclude(t, r, r.states[t.request.command.account].version,
                                         Decide(t.request.command, t.request.id, t.request.now, r)))
    ensures At(acts', Execute(db, t.request).0, txns, t') && t'.phase == Answered(Execute(db, t.request).1)
  {
    hide ReadAll, FoldStream, Decide, L.Inv, Contiguous, Stamp, Concurrent;
    var q := t.request;
    var decision := Decide(q.command, q.id, q.now, r);
    var version := r.states[q.command.account].version;
    var u := Conclude(t, r, version, decision);
    assert DecideOn(db.log, q.command, q.id, q.now, r.states[q.command.account]) == decision;
    if u.phase.Writing? {
      if decision.Ok? {
        DecideNumbers(q.command, q.id, q.now, r, decision.value);
        FoldVersions(db, r.states);
        RowsFreeAfter(db.log, r.states, decision.value, q.firstEventId);
      }
      acts' := WriteAll(acts, db, txns, u);
      t' := u.(phase := Answered(Decided(u.phase.stored)));
      assert db.log + [] == db.log;
    } else {
      acts' := acts;
      t' := u;
    }
  }

  /** Reading from the anchor's fold to the last read, and the decision. */
  lemma Decides(acts: seq<Action>, db: Db, txns: seq<Txn>, t: Txn, anchor: AccountState)
    returns (acts': seq<Action>, t': Txn)
    requires DbInv(db) && Idle(txns) && t.request.id !in db.results
    requires At(acts, db, txns, t) && t.phase == ReadTarget(anchor)
    requires FoldStream(db.log, t.request.command.account) == Ok(anchor) && anchor.version == t.request.command.expectedVersion
    ensures At(acts', Execute(db, t.request).0, txns, t') && t'.phase == Answered(Execute(db, t.request).1)
  {
    hide Concurrent, Execute, L.Inv, Contiguous, Decide, FoldStream, HoldRead, OriginalRead, RevertedByRead,
      Conclude, ExactReads;
    var c := t.request.command;
    InvFolds(EventsOf(db.log), db.results.Keys);
    var acts1 := ReadStep(acts, db, txns, t, 0, 0);
    var t1 := Read(db, t, 0, 0);
    var named := NamedOf(t1);
    assert named[..|named|] == named;
    var acts2 := FoldAll(acts1, db, txns, t1, |named|);
    var states := FoldOthers(db.log, map[c.account := anchor], named).value;
    FoldOthersCovers(db.log, map[c.account := anchor], named);
    var t2 := t1.(phase := FoldNext(t1.phase.seen.(states := states), |named|));
    var acts3 := ReadStep(acts2, db, txns, t2, 0, 0);
    ReadsExact(db.log, c, anchor);
    var r := ReadAll(db.log, c, anchor).value;
    assert r == t2.phase.seen.(revertedBy := RevertedByRead(db.log, c));
    AllFolded(t2, r);
    ConcludesAs(t, t2, r, anchor.version, Decide(c, t.request.id, t.request.now, r));
    acts', t' := Finish(acts3, db, txns, t, r);
  }

  lemma ConcludesAs(t: Txn, u: Txn, r: Reads, version: int, decision: Result<seq<Numbered>>)
    requires t.request == u.request && t.attempt == u.attempt
    ensures Conclude(t, r, version, decision) == Conclude(u, r, version, decision)
  {}

  /** Submitted while nobody writes, a request gets the serial answer and leaves the serial
      database; the other transactions stay where they are. */
  lemma RunAlone(acts: seq<Action>, q: Request) returns (acts': seq<Action>, t': Txn)
    requires DbInv(Concurrent(acts).db) && Idle(Concurrent(acts).txns) && ValidCommand(q.command)
    ensures At(acts', Execute(Concurrent(acts).db, q).0, Concurrent(acts).txns, t')
    ensures t'.phase == Answered(Execute(Concurrent(acts).db, q).1)
  {
    hide Concurrent, L.Inv, Contiguous, ValidCommand, DecideOn, FoldStream, Idle;
    var db, txns := Concurrent(acts).db, Concurrent(acts).txns;
    var t := Txn(q, 1, Begin);
    Extend(acts, Submit(q));
    var acts0 := acts + [Submit(q)];
    var acts1 := ReadStep(acts0, db, txns, t, 0, 0);
    var t1 := Read(db, t, 0, 0);
    if t1.phase.Answered? {
      acts', t' := acts1, t1;
    } else {
      var s := StateOf(EventsOf(db.log), db.results.Keys, q.command.account);
      FoldStreamIs(db.log, q.command.account, s);
      var acts2 := ReadStep(acts1, db, txns, t1, q.now, q.firstEventId);
      var t2 := Read(db, t1, q.now, q.firstEventId);
      assert t2.request == q;
      if t2.phase.Answered? {
        acts', t' := acts2, t2;
      } else if t2.phase.Writing? {
        acts' := WriteAll(acts2, db, txns, t2);
        t' := t2.(phase := Answered(Decided(t2.phase.stored)));
        assert db.log + [] == db.log;
      } else {
        acts', t' := Decides(acts2, db, txns, t2, s);
      }
    }
  }

  /** Every serial run is an interleaving. */
  lemma {:induction false} SerialIsConcurrent(qs: seq<Request>) returns (acts: seq<Action>)
    requires ValidRun(qs)
    ensures Concurrent(acts).db == Run(qs) && Idle(Concurrent(acts).txns)
  {
    if qs == [] {
      acts := [];
    } else {
      hide Execute, DbInv;
      var n := |qs| - 1;
      var before := SerialIsConcurrent(qs[..n]);
      RunKeeps(qs[..n]);
      var t;
      acts, t := RunAlone(before, qs[n]);
    }
  }
}
