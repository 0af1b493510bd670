/** Refusals that depend on the anchor alone are serial after all: each is the answer of the
    serial unit of work on the database of some earlier moment of the run, the one at which
    the transaction folded its anchor. */
module RefusalMoments {
  import opened Events
  import opened Accounts
  import opened Views
  import opened Commands
  import opened Execution
  import opened Soundness
  import opened Runs
  import opened Optimistic
  import opened Interleaving
  import opened Serializability
  import L = Ledger

  /** Commands decided on the anchor's state and nothing else. */
  predicate AnchorOnly(c: Command) { c.Deposit? || c.Withdraw? || c.Hold? }

  /** The refusals in question: every version conflict, and the rejections of those commands. */
  predicate Simple(c: Command, outcome: Outcome) {
    outcome.VersionConflict? || (outcome.Rejected? && AnchorOnly(c))
  }

  /** The anchor's state, once folded. */
  function Anchor(t: Txn): Option<AccountState> {
    var a := t.request.command.account;
    match t.phase
    case ReadTarget(s) => Some(s)
    case FoldNext(r, _) => if a in r.states then Some(r.states[a]) else None
    case Writing(r, _, _, _) => if a in r.states then Some(r.states[a]) else None
    case _ => None
  }

  ghost predicate FoldedAt(acts: seq<Action>, k: nat, a: Account, s: AccountState) {
    k <= |acts| && FoldStream(Concurrent(acts[..k]).db.log, a) == Ok(s)
  }

  ghost predicate HadMoment(acts: seq<Action>, t: Txn) {
    Anchor(t).Some? ==> exists k :: FoldedAt(acts, k, t.request.command.account, Anchor(t).value)
  }

  /** What such a command's decision says about its anchor. */
  function Verdict(c: Command, id: Id, now: int, s: AccountState): Result<Event>
    requires AnchorOnly(c)
  {
    if c.Hold? then DecideHold(s, c.account, c.target, c.amount, c.ttlSeconds, id, now)
    else DecideCash(s, c.account, c.amount, c.Deposit?)
  }

  /** A simple refusal being written is the anchor's own. */
  ghost predicate RefusalShape(t: Txn) {
    t.phase.Writing? && Simple(t.request.command, t.phase.stored.outcome) ==>
      && Anchor(t).Some?
      && t.phase.stored == Refusal(t.request, Anchor(t).value.version, t.phase.stored.outcome)
      && (t.phase.stored.outcome.VersionConflict? <==> Anchor(t).value.version != t.request.command.expectedVersion)
      && (t.phase.stored.outcome.Rejected? ==>
            Verdict(t.request.command, t.request.id, t.request.now, Anchor(t).value) == Err(Refused(t.phase.stored.outcome.error)))
  }

  // ------------------------------------------------------------- the shape

  lemma ConcludeShape(t: Txn, r: Reads, version: int)
    requires Sufficient(t.request.command, r)
    requires version == r.states[t.request.command.account].version == t.request.command.expectedVersion
    ensures RefusalShape(Conclude(t, r, version, Decide(t.request.command, t.request.id, t.request.now, r)))
  {
    hide NumberLegs, Stamp, Addressed, PostingsOf, DecidePostings, DecideRevert, DecidePostHold, DecideReleaseHold,
      DecideCash, DecideHold;
  }

  lemma ReadShape(db: Db, t: Txn, now: int, first: Id)
    requires DbInv(db) && Shape(t) && TxnInv(db.log, t)
    requires t.phase.Begin? || t.phase.FoldAnchor? || t.phase.ReadTarget? || t.phase.FoldNext?
    ensures RefusalShape(Read(db, t, now, first))
    ensures Anchor(Read(db, t, now, first)).Some? ==>
              || Anchor(Read(db, t, now, first)) == Anchor(t)
              || FoldStream(db.log, t.request.command.account) == Ok(Anchor(Read(db, t, now, first)).value)
  {
    hide DbInv, Decide, FoldStream, HoldRead, OriginalRead, RevertedByRead, Sufficient, StatesInv, HoldStill,
      OriginalStill, ValidCommand;
    var c := t.request.command;
    if t.phase.FoldNext? {
      var r, k := t.phase.seen, t.phase.k;
      if k == |NamedOf(t)| {
        var all := r.(revertedBy := RevertedByRead(db.log, c));
        AllFolded(t, all);
        ConcludeShape(t, all, r.states[c.account].version);
        ConcludeAnchor(t, all, r.states[c.account].version, Decide(c, t.request.id, t.request.now, all));
      } else if NamedOf(t)[k] !in r.states {
        FoldsNow(db, NamedOf(t)[k]);
      }
    }
  }

  lemma ConcludeAnchor(t: Txn, r: Reads, version: int, decision: Result<seq<Numbered>>)
    requires t.request.command.account in r.states
    ensures var u := Conclude(t, r, version, decision);
            Anchor(u).Some? ==> Anchor(u) == Some(r.states[t.request.command.account])
  {
    hide Stamp, AcceptedResult;
  }

  // ----------------------------------------------------------- every step keeps it

  ghost predicate MomentInv(acts: seq<Action>, t: Txn) {
    HadMoment(acts, t) && RefusalShape(t)
  }

  ghost predicate AllMoments(acts: seq<Action>) {
    forall i :: 0 <= i < |Concurrent(acts).txns| ==> MomentInv(acts, Concurrent(acts).txns[i])
  }

  lemma MomentStays(acts: seq<Action>, act: Action, t: Txn, u: Txn)
    requires HadMoment(acts, t) && u.request.command == t.request.command
    requires Anchor(u).Some? ==>
               Anchor(u) == Anchor(t) || FoldStream(Concurrent(acts).db.log, t.request.command.account) == Ok(Anchor(u).value)
    ensures HadMoment(acts + [act], u)
  {
    hide Concurrent, FoldStream, Anchor;
    var all := acts + [act];
    if Anchor(u).Some? {
      var a := t.request.command.account;
      if FoldStream(Concurrent(acts).db.log, a) == Ok(Anchor(u).value) {
        assert all[..|acts|] == acts;
        assert FoldedAt(all, |acts|, a, Anchor(u).value);
      } else {
        var k: nat :| FoldedAt(acts, k, a, Anchor(t).value);
        assert all[..k] == acts[..k];
        assert FoldedAt(all, k, a, Anchor(u).value);
      }
    }
  }

  /** One action, seen from one transaction: where it came from and what it may have folded. */
  lemma DoMoment(sys: Sys, act: Action, i: nat)
    requires SysInv(sys) && i < |Do(sys, act).txns|
    requires i < |sys.txns| ==> RefusalShape(sys.txns[i])
    ensures RefusalShape(Do(sys, act).txns[i])
    ensures i < |sys.txns| ==> Do(sys, act).txns[i].request.command == sys.txns[i].request.command
    ensures var u := Do(sys, act).txns[i];
            Anchor(u).Some? ==>
              && i < |sys.txns|
              && (Anchor(u) == Anchor(sys.txns[i]) || FoldStream(sys.db.log, u.request.command.account) == Ok(Anchor(u).value))
  {
    hide DbInv, KeysInv, TxnInv, Read, Committed, FoldStream, Shape, ValidCommand, WaitsFor, NextKey;
    if act.Step? && act.i == i && i < |sys.txns| && !Finished(sys.txns[i]) && !sys.txns[i].phase.Writing? {
      ReadShape(sys.db, sys.txns[i], act.now, act.firstEventId);
    } else if act.Step? && act.i == i && i < |sys.txns| && sys.txns[i].phase.Writing? {
      WritingMoment(sys.txns[i]);
    }
  }

  lemma WritingMoment(t: Txn)
    requires t.phase.Writing? && RefusalShape(t)
    ensures var u := t.(phase := t.phase.(taken := t.phase.taken + 1));
            RefusalShape(u) && Anchor(u) == Anchor(t)
    ensures RefusalShape(Restart(t)) && Anchor(Restart(t)).None?
  {
    hide Verdict;
  }

  lemma {:induction false} MomentsKept(acts: seq<Action>)
    ensures AllMoments(acts)
  {
    if acts != [] {
      hide Do, SysInv, RefusalShape, HadMoment, Anchor;
      var n := |acts| - 1;
      var before, act := acts[..n], acts[n];
      MomentsKept(before);
      ConcurrentKeeps(before);
      assert acts == before + [act];
      var sys := Concurrent(before);
      forall i | 0 <= i < |Concurrent(acts).txns| ensures MomentInv(acts, Concurrent(acts).txns[i]) {
        OneMoment(before, act, i);
      }
    }
  }

  lemma OneMoment(before: seq<Action>, act: Action, i: nat)
    requires SysInv(Concurrent(before)) && AllMoments(before) && i < |Do(Concurrent(before), act).txns|
    ensures MomentInv(before + [act], Do(Concurrent(before), act).txns[i])
  {
    hide Do, SysInv, RefusalShape, HadMoment, Anchor, Concurrent;
    var sys := Concurrent(before);
    var u := Do(sys, act).txns[i];
    if i < |sys.txns| {
      assert MomentInv(before, sys.txns[i]);
      DoMoment(sys, act, i);
      MomentStays(before, act, sys.txns[i], u);
    } else {
      DoMoment(sys, act, i);
      NoAnchorNoMoment(before + [act], u);
    }
  }

  lemma NoAnchorNoMoment(acts: seq<Action>, t: Txn)
    requires Anchor(t).None?
    ensures HadMoment(acts, t)
  {}

  // ------------------------------------------------------------- the theorem

  /** Serial execution of a request whose anchor folds to a state that refuses it. */
  lemma SerialRefusal(db: Db, q: Request, s: AccountState, outcome: Outcome)
    requires q.id !in db.results && FoldStream(db.log, q.command.account) == Ok(s) && Simple(q.command, outcome)
    requires outcome.VersionConflict? <==> s.version != q.command.expectedVersion
    requires outcome.Rejected? ==> Verdict(q.command, q.id, q.now, s) == Err(Refused(outcome.error))
    ensures Execute(db, q).1 == Decided(Refusal(q, s.version, outcome))
  {
    hide FoldStream, HoldRead, OriginalRead, RevertedByRead, DecidePostings, DecideRevert, DecidePostHold,
      DecideReleaseHold, DecideCash, DecideHold, NumberLegs, Stamp, AcceptedResult;
    if outcome.Rejected? {
      var states := map[q.command.account := s];
      assert FoldOthers(db.log, states, []) == Ok(states);
    }
  }

  /** A transaction that is writing a simple refusal, with its id still free, would have got it
      serially at some earlier moment. */
  lemma WritingHadItsMoment(acts: seq<Action>, i: nat) returns (k: nat)
    requires i < |Concurrent(acts).txns| && Concurrent(acts).txns[i].phase.Writing?
    requires Concurrent(acts).txns[i].request.id !in Concurrent(acts).db.results
    requires Simple(Concurrent(acts).txns[i].request.command, Concurrent(acts).txns[i].phase.stored.outcome)
    ensures k <= |acts|
    ensures var t := Concurrent(acts).txns[i];
            Execute(Concurrent(acts[..k]).db, t.request).1 == Decided(t.phase.stored)
  {
    hide Concurrent, Execute, FoldStream, Verdict, Simple;
    MomentsKept(acts);
    var t := Concurrent(acts).txns[i];
    assert MomentInv(acts, t);
    k :| FoldedAt(acts, k, t.request.command.account, Anchor(t).value);
    var db := Concurrent(acts[..k]).db;
    if t.request.id in db.results { ResultsAreFinal(acts, k, t.request.id); assert false; }
    SerialRefusal(db, t.request, Anchor(t).value, t.phase.stored.outcome);
  }

  /** What one action can store: the result a committing transaction was writing. */
  lemma StoredByCommit(sys: Sys, act: Action, id: Id) returns (i: nat)
    requires SysInv(sys) && id in Do(sys, act).db.results && id !in sys.db.results
    ensures i < |sys.txns| && sys.txns[i].phase.Writing? && sys.txns[i].request.id == id
    ensures Do(sys, act).db.results[id] == sys.txns[i].phase.stored
  {
    hide SysInv, Read, Committed, NextKey, WaitsFor;
    i := act.i;
  }

  /** Every stored version conflict, and every stored rejection of a deposit, a withdrawal or a
      hold, is what the serial unit of work answers on the database of an earlier moment. */
  lemma {:induction false} StoredRefusalHadItsMoment(acts: seq<Action>, id: Id) returns (k: nat, q: Request)
    requires id in Concurrent(acts).db.results
    requires Simple(Concurrent(acts).db.results[id].command, Concurrent(acts).db.results[id].outcome)
    ensures k <= |acts| && q.id == id
    ensures Execute(Concurrent(acts[..k]).db, q).1 == Decided(Concurrent(acts).db.results[id])
  {
    hide Do, Execute, SysInv, Simple;
    var n := |acts| - 1;
    var before := acts[..n];
    var sys := Concurrent(before);
    ConcurrentKeeps(before);
    if id in sys.db.results {
      StepKeepsResults(sys, acts[n], id);
      k, q := StoredRefusalHadItsMoment(before, id);
      assert before[..k] == acts[..k];
    } else {
      var i := StoredByCommit(sys, acts[n], id);
      StoredCommand(before, i);
      k := WritingHadItsMoment(before, i);
      q := sys.txns[i].request;
      assert before[..k] == acts[..k];
    }
  }

  /** The stored result is about the transaction's own command. */
  lemma StoredCommand(acts: seq<Action>, i: nat)
    requires i < |Concurrent(acts).txns| && Concurrent(acts).txns[i].phase.Writing?
    ensures Concurrent(acts).txns[i].phase.stored.command == Concurrent(acts).txns[i].request.command
  {
    OwnResults(acts);
  }

  /** A result being written is the transaction's own. */
  ghost predicate OwnResult(t: Txn) {
    t.phase.Writing? ==> t.phase.stored.command == t.request.command && t.phase.stored.caller == t.request.caller
  }

  lemma {:induction false} OwnResults(acts: seq<Action>)
    ensures forall i :: 0 <= i < |Concurrent(acts).txns| ==> OwnResult(Concurrent(acts).txns[i])
  {
    if acts != [] {
      var n := |acts| - 1;
      OwnResults(acts[..n]);
      var sys := Concurrent(acts[..n]);
      hide Concurrent, Read, Committed, NextKey, WaitsFor, Shape, ValidCommand;
      forall i | 0 <= i < |Do(sys, acts[n]).txns| ensures OwnResult(Do(sys, acts[n]).txns[i]) {
        if acts[n].Step? && acts[n].i == i && i < |sys.txns| && !Finished(sys.txns[i]) && !sys.txns[i].phase.Writing? {
          ReadOwnResult(sys.db, sys.txns[i], acts[n].now, acts[n].firstEventId);
        }
      }
    }
  }

  lemma ReadOwnResult(db: Db, t: Txn, now: int, first: Id)
    requires Shape(t) && (t.phase.Begin? || t.phase.FoldAnchor? || t.phase.ReadTarget? || t.phase.FoldNext?)
    ensures OwnResult(Read(db, t, now, first))
  {
    hide Decide, FoldStream, HoldRead, OriginalRead, RevertedByRead, Stamp, Addressed, PostingsOf, Named;
  }
}
