/** Every interleaving of READ COMMITTED transactions keeps the ledger and is serializable
    for accepted commands; rejections are not. */
module Serializability {
  import opened Events
  import opened Accounts
  import opened Views
  import opened Commands
  import opened Execution
  import opened Numbering
  import opened Soundness
  import opened Runs
  import opened LedgerTheorems
  import opened Optimistic
  import opened Interleaving
  import L = Ledger
  import B = Batches

  // --------------------------------------------------------- reading steps

  /** A fold of the current log. */
  lemma FoldsNow(db: Db, a: Account)
    requires DbInv(db)
    ensures FoldStream(db.log, a).Ok? && FoldedEarlier(db.log, a, FoldStream(db.log, a).value)
    ensures FoldStream(db.log, a).value.version == |Stream(db.log, a)|
  {
    hide L.Inv, Contiguous;
    var s := StateOf(EventsOf(db.log), db.results.Keys, a);
    assert Stream(db.log, a)[..|Stream(db.log, a)|] == Stream(db.log, a);
  }

  lemma FirstReads(db: Db, c: Command, anchor: AccountState)
    requires FoldedEarlier(db.log, c.account, anchor) && anchor.version == c.expectedVersion
    ensures ReadsInv(db.log, c, Reads(map[c.account := anchor], HoldRead(db.log, c), OriginalRead(db.log, c), None))
  {
    hide FoldedEarlier, Stream, OnSet, OpenHoldOf;
  }

  lemma NextFold(db: Db, c: Command, r: Reads, a: Account)
    requires DbInv(db) && ReadsInv(db.log, c, r) && a !in r.states && a in Named(c, r.hold, r.original)
    ensures FoldStream(db.log, a).Ok?
    ensures ReadsInv(db.log, c, r.(states := r.states[a := FoldStream(db.log, a).value]))
  {
    hide DbInv, FoldedEarlier, FoldStream, Stream, OnSet, OpenHoldOf, MovementLegs;
    FoldsNow(db, a);
  }

  lemma LastRead(log: seq<Row>, c: Command, r: Reads)
    requires ReadsInv(log, c, r)
    ensures var all := r.(revertedBy := RevertedByRead(log, c));
            ReadsInv(log, c, all) && ReversalStill(log, c, all)
  {
    hide FoldedEarlier, Stream, OnSet, OpenHoldOf, MovementLegs, RevertedBy;
  }

  lemma Concludes(log: seq<Row>, t: Txn, r: Reads, version: int)
    requires ValidCommand(t.request.command) && 1 <= t.attempt <= MAX_RACE_RETRIES + 1
    requires ReadsInv(log, t.request.command, r) && ReversalStill(log, t.request.command, r)
    requires Sufficient(t.request.command, r) && version == r.states[t.request.command.account].version
    ensures TxnInv(log, Conclude(t, r, version, Decide(t.request.command, t.request.id, t.request.now, r)))
  {
    hide ReversalStill, ReadsInv, Sufficient, Decide, Decision, ValidCommand, Stamp, Addressed, PostingsOf;
    var decision := Decide(t.request.command, t.request.id, t.request.now, r);
    var t' := Conclude(t, r, version, decision);
    if decision.Ok? && t'.phase.Writing? {
      DecidedTxn(t, r, version, decision.value, t'.phase.stored);
    }
  }

  lemma DecidedTxn(t: Txn, r: Reads, version: int, legs: seq<Numbered>, stored: Stored)
    requires Sufficient(t.request.command, r) && Decide(t.request.command, t.request.id, t.request.now, r) == Ok(legs)
    requires version == r.states[t.request.command.account].version
    requires AcceptedResult(t.request, version, Stamp(legs, t.request.firstEventId)) == Some(stored)
    ensures Decision(t.(phase := Writing(r, Stamp(legs, t.request.firstEventId), stored, 0)), legs)
  {
    hide Decide, AcceptedResult, Stamp, Sufficient;
  }

  lemma ReadKeeps(db: Db, t: Txn, now: int, firstEventId: Id)
    requires DbInv(db) && Shape(t) && TxnInv(db.log, t)
    requires t.phase.Begin? || t.phase.FoldAnchor? || t.phase.ReadTarget? || t.phase.FoldNext?
    ensures TxnInv(db.log, Read(db, t, now, firstEventId))
  {
    hide DbInv, ReadsInv, FoldedEarlier, FoldStream, Decide, ReversalStill, ValidCommand, HoldRead, OriginalRead,
      RevertedByRead, Sufficient;
    var c := t.request.command;
    match t.phase
    case FoldAnchor(_) => FoldsNow(db, c.account);
    case ReadTarget(anchor) => FirstReads(db, c, anchor);
    case FoldNext(r, k) =>
      if k == |NamedOf(t)| {
        var all := r.(revertedBy := RevertedByRead(db.log, c));
        LastRead(db.log, c, r);
        AllFolded(t, all);
        Concludes(db.log, t, all, all.states[c.account].version);
      } else if NamedOf(t)[k] !in r.states {
        NextFold(db, c, r, NamedOf(t)[k]);
      }
    case _ =>
  }

  // ------------------------------------------------------------------- keys

  /** A transaction that holds nothing new cannot break the keys. */
  lemma KeysShrink(sys: Sys, i: nat, t: Txn)
    requires KeysInv(sys) && i < |sys.txns| && forall key :: Holds(t, key) ==> Holds(sys.txns[i], key)
    ensures KeysInv(Sys(sys.db, sys.txns[i := t]))
  {
    hide Holds, Committed;
  }

  /** Taking one free key that nobody else holds. */
  lemma KeyTaken(sys: Sys, i: nat)
    requires KeysInv(sys) && i < |sys.txns| && sys.txns[i].phase.Writing?
    requires sys.txns[i].phase.taken <= |sys.txns[i].phase.rows|
    requires !Committed(sys.db, NextKey(sys.txns[i])) && !exists j :: WaitsFor(sys, i, j)
    ensures var t := sys.txns[i];
            KeysInv(Sys(sys.db, sys.txns[i := t.(phase := t.phase.(taken := t.phase.taken + 1))]))
  {
    var t := sys.txns[i];
    var t' := t.(phase := t.phase.(taken := t.phase.taken + 1));
    forall key | Holds(t', key) ensures Holds(t, key) || key == NextKey(t) {}
    forall j | 0 <= j < |sys.txns| && j != i ensures !Holds(sys.txns[j], NextKey(t)) {
      assert !WaitsFor(sys, i, j);
    }
    hide Holds, Committed, NextKey;
    var sys' := Sys(sys.db, sys.txns[i := t']);
    assert KeysInv(sys');
  }

  /** Publishing: the committed keys grow by exactly the keys the transaction held. */
  lemma KeysPublished(sys: Sys, i: nat)
    requires KeysInv(sys) && Committing(sys, i)
    ensures var t := sys.txns[i];
            KeysInv(Sys(Published(sys.db, t), sys.txns[i := t.(phase := Answered(Decided(t.phase.stored)))]))
  {
    var t := sys.txns[i];
    var t' := t.(phase := Answered(Decided(t.phase.stored)));
    var db' := Published(sys.db, t);
    forall key | Committed(db', key) ensures Committed(sys.db, key) || Holds(t, key) {
      PublishedKey(sys.db, t, key);
    }
    assert forall key :: !Holds(t', key);
    hide Holds, Committed;
    assert KeysInv(Sys(db', sys.txns[i := t']));
  }

  lemma PublishedKey(db: Db, t: Txn, key: Key)
    requires t.phase.Writing? && t.phase.taken > |t.phase.rows| && Committed(Published(db, t), key)
    ensures Committed(db, key) || Holds(t, key)
  {
    if key.RowKey? {
      var log := db.log + t.phase.rows;
      var n :| 0 <= n < |log| && log[n].event.account == key.account && log[n].seqNo == key.seqNo;
      if n < |db.log| {
        assert log[n] == db.log[n];
      } else {
        assert log[n] == t.phase.rows[n - |db.log|];
        assert KeyOf(t.phase.rows[n - |db.log|]) == key;
      }
    }
  }

  // ------------------------------------------------------------------ steps

  lemma WritingStays(log: seq<Row>, t: Txn, taken: nat)
    requires TxnInv(log, t) && t.phase.Writing?
    ensures TxnInv(log, t.(phase := t.phase.(taken := taken)))
  {
    hide ReadsInv, ReversalStill, Sufficient, Decide, ValidCommand, Stamp, AcceptedResult;
    var t' := t.(phase := t.phase.(taken := taken));
    if t.phase.stored.outcome.Accepted? {
      var legs :| Decision(t, legs);
      assert Decision(t', legs);
    }
  }

  /** The published database keeps the invariant, and so does every open transaction. */
  lemma CommitKeeps(sys: Sys, i: nat)
    requires SysInv(sys) && Committing(sys, i)
    ensures DbInv(Published(sys.db, sys.txns[i]))
    ensures forall j :: 0 <= j < |sys.txns| ==> TxnInv(Published(sys.db, sys.txns[i]).log, sys.txns[j])
  {
    hide Execute, Decide, L.Inv, Contiguous, ExactReads, Stamp, Sufficient, KeysInv, L.GoodBatch, ValidCommand;
    var t := sys.txns[i];
    assert TxnInv(sys.db.log, t);
    if t.phase.stored.outcome.Accepted? {
      var legs := CommitIsSerial(sys, i);
      CommittingKeys(sys, i);
      var es, ids := EventsOf(sys.db.log), sys.db.results.Keys;
      ExecuteKeeps(sys.db, t.request);
      DecisionSound(es, ids, t.request.command, t.request.id, t.request.now, t.phase.seen, legs);
      var rows := t.phase.rows;
      forall j | 0 <= j < |sys.txns| ensures TxnInv(sys.db.log + rows, sys.txns[j]) {
        hide TxnInv;
        TxnStays(sys.db.log, rows, ids, sys.txns[j]);
      }
    } else {
      hide TxnInv;
      assert sys.db.log + [] == sys.db.log;
      RecordKeeps(sys.db, t.request.id, t.phase.stored);
    }
  }

  /** Every action keeps the invariant. */
  lemma DoKeeps(sys: Sys, act: Action)
    requires SysInv(sys)
    ensures SysInv(Do(sys, act))
  {
    if act.Submit? {
      SubmitKeeps(sys, act.request);
    } else if act.Abort? {
      AbortKeeps(sys, act.i);
    } else if act.i < |sys.txns| {
      var t := sys.txns[act.i];
      if t.phase.Writing? {
        WriteKeeps(sys, act.i, act.now, act.firstEventId);
      } else if !Finished(t) {
        hide DbInv, TxnInv, KeysInv, Shape;
        ReadKeeps(sys.db, t, act.now, act.firstEventId);
        var t' := Read(sys.db, t, act.now, act.firstEventId);
        ReadHoldsNothing(t, sys.db, act.now, act.firstEventId);
        KeysShrink(sys, act.i, t');
      }
    }
  }

  lemma ReadHoldsNothing(t: Txn, db: Db, now: int, firstEventId: Id)
    requires Shape(t) && (t.phase.Begin? || t.phase.FoldAnchor? || t.phase.ReadTarget? || t.phase.FoldNext?)
    ensures forall key :: !Holds(Read(db, t, now, firstEventId), key)
  {
    hide Decide, FoldStream, HoldRead, OriginalRead, RevertedByRead, Stamp, AcceptedResult, Named;
  }

  lemma SubmitKeeps(sys: Sys, q: Request)
    requires SysInv(sys)
    ensures SysInv(Do(sys, Submit(q)))
  {
    hide DbInv, ValidCommand;
    var t := Txn(q, 1, Begin);
    assert forall key :: !Holds(t, key);
    hide Holds, Committed, Shape;
    var sys' := Do(sys, Submit(q));
    forall i | 0 <= i < |sys'.txns| ensures TxnInv(sys'.db.log, sys'.txns[i]) {
      if i < |sys.txns| { assert sys'.txns[i] == sys.txns[i]; }
    }
    assert KeysInv(sys');
  }

  lemma AbortKeeps(sys: Sys, i: nat)
    requires SysInv(sys)
    ensures SysInv(Do(sys, Abort(i)))
  {
    hide DbInv, ValidCommand, KeysInv, WritingInv, ReadsInv, FoldedEarlier;
    if i < |sys.txns| && !Finished(sys.txns[i]) {
      var t := sys.txns[i].(phase := Cancelled);
      KeysShrink(sys, i, t);
    }
  }

  lemma WriteKeeps(sys: Sys, i: nat, now: int, firstEventId: Id)
    requires SysInv(sys) && i < |sys.txns| && sys.txns[i].phase.Writing?
    ensures SysInv(Do(sys, Step(i, now, firstEventId)))
  {
    hide DbInv, KeysInv, ReadsInv, FoldedEarlier, ValidCommand, WritingInv, Read, Committed, Holds, NextKey;
    var t := sys.txns[i];
    if t.phase.taken > |t.phase.rows| {
      KeysPublished(sys, i);
      CommitKeeps(sys, i);
    } else if Committed(sys.db, NextKey(t)) {
      RestartHoldsNothing(t);
      KeysShrink(sys, i, Restart(t));
    } else if !exists j :: WaitsFor(sys, i, j) {
      KeyTaken(sys, i);
      WritingStays(sys.db.log, t, t.phase.taken + 1);
    }
  }

  lemma RestartHoldsNothing(t: Txn)
    ensures forall key :: !Holds(Restart(t), key)
  {}

  /** Every reachable state of every interleaving satisfies the invariant. */
  lemma {:induction false} ConcurrentKeeps(acts: seq<Action>)
    ensures SysInv(Concurrent(acts))
  {
    if acts == [] {
      EmptyInv();
    } else {
      hide SysInv, Do;
      ConcurrentKeeps(acts[..|acts| - 1]);
      DoKeeps(Concurrent(acts[..|acts| - 1]), acts[|acts| - 1]);
    }
  }

  // -------------------------------------------------------- serializability

  /** Whether an action commits an accepted command. */
  ghost predicate Accepts(sys: Sys, act: Action) {
    act.Step? && Committing(sys, act.i) && sys.txns[act.i].phase.stored.outcome.Accepted?
  }

  /** The accepted requests of a run in commit order. */
  ghost function AcceptedRequests(acts: seq<Action>): seq<Request> {
    if acts == [] then []
    else
      var n := |acts| - 1;
      var before := AcceptedRequests(acts[..n]);
      var sys := Concurrent(acts[..n]);
      if Accepts(sys, acts[n]) then before + [sys.txns[acts[n].i].request] else before
  }

  /** The stored results that are acceptances. */
  function AcceptedOnly(results: map<Id, Stored>): map<Id, Stored> {
    map id | id in results && results[id].outcome.Accepted? :: results[id]
  }

  /** The serial execution of an accepted request does not depend on recorded refusals. */
  lemma RefusalsDoNotMatter(db: Db, q: Request)
    requires q.id !in db.results && Execute(db, q).1.Decided? && Execute(db, q).1.stored.outcome.Accepted?
    ensures var (db', answer) := Execute(db, q);
            Execute(Db(db.log, AcceptedOnly(db.results)), q) == (Db(db'.log, AcceptedOnly(db'.results)), answer)
  {
    hide DecideOn, FoldStream, Stamp, Addressed, PostingsOf;
    var (db', answer) := Execute(db, q);
    assert db'.results == db.results[q.id := answer.stored];
    assert AcceptedOnly(db'.results) == AcceptedOnly(db.results)[q.id := answer.stored];
  }

  /** An action that commits nothing accepted leaves the log and the acceptances alone. */
  lemma OtherActions(sys: Sys, act: Action)
    requires SysInv(sys) && !Accepts(sys, act)
    ensures Do(sys, act).db.log == sys.db.log
    ensures AcceptedOnly(Do(sys, act).db.results) == AcceptedOnly(sys.db.results)
  {
    hide DbInv, Read, KeysInv, ReadsInv, FoldedEarlier, ValidCommand, ReversalStill, Decision;
    if act.Step? && Committing(sys, act.i) {
      NewAtCommit(sys, act.i);
      var t := sys.txns[act.i];
      assert TxnInv(sys.db.log, t);
      assert sys.db.log + [] == sys.db.log;
    }
  }

  lemma NewAtCommit(sys: Sys, i: nat)
    requires SysInv(sys) && Committing(sys, i)
    ensures sys.txns[i].request.id !in sys.db.results
  {
    hide DbInv, TxnInv;
    CommittingKeys(sys, i);
  }

  /** Serializability: the log of every interleaving, and every acceptance it stored, are
      those of running just the accepted requests one after another, in commit order. */
  lemma {:induction false} ConcurrentIsSerial(acts: seq<Action>)
    ensures Run(AcceptedRequests(acts)) == Db(Concurrent(acts).db.log, AcceptedOnly(Concurrent(acts).db.results))
    ensures ValidRun(AcceptedRequests(acts))
  {
    if acts != [] {
      var n := |acts| - 1;
      var sys := Concurrent(acts[..n]);
      var before := AcceptedRequests(acts[..n]);
      ConcurrentIsSerial(acts[..n]);
      ConcurrentKeeps(acts[..n]);
      if Accepts(sys, acts[n]) {
        AcceptedStep(acts, sys, before);
      } else {
        hide Execute, Do, SysInv;
        OtherActions(sys, acts[n]);
      }
    }
  }

  lemma AcceptedStep(acts: seq<Action>, sys: Sys, before: seq<Request>)
    requires acts != [] && sys == Concurrent(acts[..|acts| - 1]) && SysInv(sys) && Accepts(sys, acts[|acts| - 1])
    requires Run(before) == Db(sys.db.log, AcceptedOnly(sys.db.results)) && ValidRun(before)
    ensures var after := before + [sys.txns[acts[|acts| - 1].i].request];
            && Run(after) == Db(Concurrent(acts).db.log, AcceptedOnly(Concurrent(acts).db.results))
            && ValidRun(after)
  {
    hide Execute, Do, Run, Concurrent, Decide, ExactReads, AcceptedOnly, SysInv, ValidCommand, Sufficient, Stamp;
    var act := acts[|acts| - 1];
    var t := sys.txns[act.i];
    CommitStep(acts, sys);
    NewAtCommit(sys, act.i);
    var legs := CommitIsSerial(sys, act.i);
    RefusalsDoNotMatter(sys.db, t.request);
    RunPlus(before, t.request);
  }

  lemma CommitStep(acts: seq<Action>, sys: Sys)
    requires acts != [] && sys == Concurrent(acts[..|acts| - 1]) && SysInv(sys) && Accepts(sys, acts[|acts| - 1])
    ensures Concurrent(acts).db == Published(sys.db, sys.txns[acts[|acts| - 1].i])
    ensures ValidCommand(sys.txns[acts[|acts| - 1].i].request.command)
  {
    hide Do, SysInv, ValidCommand;
    CommitDo(sys, acts[|acts| - 1]);
    TxnValid(sys, acts[|acts| - 1].i);
  }

  lemma CommitDo(sys: Sys, act: Action)
    requires Shaped(sys) && Accepts(sys, act)
    ensures Do(sys, act).db == Published(sys.db, sys.txns[act.i])
  {
    hide Read, Shape, Committed, NextKey;
  }

  lemma TxnValid(sys: Sys, i: nat)
    requires SysInv(sys) && i < |sys.txns|
    ensures ValidCommand(sys.txns[i].request.command)
  {
    hide DbInv, KeysInv, WritingInv, ReadsInv, FoldedEarlier, ValidCommand, Shape;
    assert TxnInv(sys.db.log, sys.txns[i]);
  }

  lemma RunPlus(qs: seq<Request>, q: Request)
    ensures Run(qs + [q]) == Execute(Run(qs), q).0
  {
    hide Execute;
    assert (qs + [q])[..|qs|] == qs;
  }

  // --------------------------------------- what holds in every interleaving

  /** The books are right after every action of every interleaving: bounds, versions, held
      amounts and the total. */
  lemma BooksAreRight(acts: seq<Action>, a: Account, n: nat)
    ensures var log := Concurrent(acts).db.log;
            && FoldStream(log, a).Ok?
            && 0 <= FoldStream(log, a).value.held <= FoldStream(log, a).value.balance <= 9223372036854775807
            && FoldStream(log, a).value.version == |Stream(log, a)|
            && Contiguous(log)
            && (L.HoldIdsBelow(Stream(log, a), n) ==> FoldStream(log, a).value.held == L.OpenSum(Stream(log, a), n))
            && ((forall i :: 0 <= i < |log| ==> log[i].event.account < n) ==>
                  TotalBalance(EventsOf(log), n) == L.CashTotal(EventsOf(log)))
  {
    hide Run, Concurrent, AcceptedRequests, FoldStream, Stream, Contiguous, L.OpenSum, L.CashTotal, TotalBalance;
    ConcurrentIsSerial(acts);
    var qs := AcceptedRequests(acts);
    var log := Concurrent(acts).db.log;
    EveryAccountIsSound(qs, a);
    if L.HoldIdsBelow(Stream(log, a), n) { HeldIsTheSumOfOpenHolds(qs, a, n); }
    if forall i :: 0 <= i < |log| ==> log[i].event.account < n { MoneyIsConserved(qs, n); }
  }

  /** In every interleaving a set is reverted at most once, by its exact mirror. */
  lemma RevertedAtMostOnce(acts: seq<Action>, r: Id, t: Id, a: Account)
    requires Reverts(EventsOf(Concurrent(acts).db.log), r, t)
    ensures var es := EventsOf(Concurrent(acts).db.log);
            && L.Mirrors(es, r, t)
            && Effect(es, r, a) == -Effect(es, t, a)
            && forall r' :: Reverts(es, r', t) ==> r' == r
  {
    hide Concurrent, Effect, Contiguous, TxnInv, KeysInv, Movements;
    ConcurrentKeeps(acts);
    var db := Concurrent(acts).db;
    ReversalCancels(EventsOf(db.log), db.results.Keys, r, t, a);
  }

  /** A stored result is never replaced. */
  lemma {:induction false} ResultsAreFinal(acts: seq<Action>, k: nat, id: Id)
    requires k <= |acts| && id in Concurrent(acts[..k]).db.results
    ensures id in Concurrent(acts).db.results
    ensures Concurrent(acts).db.results[id] == Concurrent(acts[..k]).db.results[id]
    decreases |acts|
  {
    hide Do, SysInv;
    if k == |acts| {
      assert acts[..k] == acts;
    } else {
      var n := |acts| - 1;
      assert acts[..n][..k] == acts[..k];
      ResultsAreFinal(acts[..n], k, id);
      ConcurrentKeeps(acts[..n]);
      StepKeepsResults(Concurrent(acts[..n]), acts[n], id);
    }
  }

  lemma StepKeepsResults(sys: Sys, act: Action, id: Id)
    requires SysInv(sys) && id in sys.db.results
    ensures id in Do(sys, act).db.results && Do(sys, act).db.results[id] == sys.db.results[id]
  {
    hide SysInv, Read;
    if act.Step? && Committing(sys, act.i) { NewAtCommit(sys, act.i); }
  }

  /** The serial history only grows at its end. */
  lemma {:induction false} HistoryGrows(acts: seq<Action>, k: nat) returns (m: nat)
    requires k <= |acts|
    ensures m <= |AcceptedRequests(acts)| && AcceptedRequests(acts)[..m] == AcceptedRequests(acts[..k])
    decreases |acts|
  {
    hide Accepts, Concurrent;
    if k == |acts| {
      assert acts[..k] == acts;
      m := |AcceptedRequests(acts)|;
    } else {
      var n := |acts| - 1;
      assert acts[..n][..k] == acts[..k];
      m := HistoryGrows(acts[..n], k);
    }
  }

  /** In every interleaving, the rows of a set that has moved money never change again. */
  lemma CommittedSetsStay(acts: seq<Action>, k: nat, t: Id)
    requires k <= |acts| && Movements(EventsOf(Concurrent(acts[..k]).db.log), t) != []
    ensures OnSet(EventsOf(Concurrent(acts).db.log), t) == OnSet(EventsOf(Concurrent(acts[..k]).db.log), t)
  {
    hide Concurrent, AcceptedRequests, Run, OnSet, MovementLegs;
    var m := HistoryGrows(acts, k);
    ConcurrentIsSerial(acts);
    ConcurrentIsSerial(acts[..k]);
    CommittedSetsAreFinal(AcceptedRequests(acts), m, t);
  }
}
