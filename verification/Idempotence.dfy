/** One answer per command id: what is stored, that it is the request's own, and that the same
    request gets it for ever. */
module Idempotence {
  import opened Events
  import opened Accounts
  import opened Views
  import opened Commands
  import opened Execution
  import opened Soundness
  import opened Runs
  import opened HoldLife
  import opened Optimistic
  import opened Interleaving
  import opened Serializability
  import opened RefusalMoments
  import opened Retries

  // --------------------------------------------------------------------- serial

  /** The database after a request: a decision is stored under the request's own id, with its own
      command and caller; only an acceptance touches the log; any other answer changes nothing. */
  lemma DecisionIsStored(db: Db, q: Request)
    ensures var (db', answer) := Execute(db, q);
            if answer.Decided? then
              && q.id !in db.results && db'.results == db.results[q.id := answer.stored]
              && answer.stored.command == q.command && answer.stored.caller == q.caller
              && (!answer.stored.outcome.Accepted? ==> db'.log == db.log)
            else db' == db
  {
    hide DecideOn, FoldStream, Stamp, Addressed, PostingsOf;
  }

  lemma StoredStays(db: Db, q: Request, id: Id)
    requires id in db.results
    ensures id in Execute(db, q).0.results && Execute(db, q).0.results[id] == db.results[id]
  {
    hide Execute;
    DecisionIsStored(db, q);
  }

  lemma {:induction false} StoredStaysLater(db: Db, later: seq<Request>, id: Id)
    requires id in db.results
    ensures id in RunFrom(db, later).results && RunFrom(db, later).results[id] == db.results[id]
  {
    hide Execute;
    if later != [] {
      var n := |later| - 1;
      StoredStaysLater(db, later[..n], id);
      StoredStays(RunFrom(db, later[..n]), later[n], id);
    }
  }

  /** The same request, with whatever clock and event ids, is answered from the stored result. */
  lemma ReplayOf(db: Db, q: Request)
    requires q.id in db.results && db.results[q.id].command == q.command && db.results[q.id].caller == q.caller
    ensures Execute(db, q) == (db, Replayed(db.results[q.id]))
  {
    hide DecideOn, FoldStream;
  }

  /** Once decided, a request is answered with the same stored result after any later requests. */
  lemma DecidedOnceReplayedForEver(db: Db, q: Request, later: seq<Request>, again: Request)
    requires Execute(db, q).1.Decided? && SameRequest(again, q)
    ensures Execute(RunFrom(Execute(db, q).0, later), again)
            == (RunFrom(Execute(db, q).0, later), Replayed(Execute(db, q).1.stored))
  {
    hide Execute, RunFrom;
    DecisionIsStored(db, q);
    var db' := Execute(db, q).0;
    StoredStaysLater(db', later, q.id);
    ReplayOf(RunFrom(db', later), again);
  }

  // ----------------------------------------------------------------- interleaved

  /** Every result an interleaving has stored is stored under the id, the command and the caller of
      a request that was submitted. */
  lemma {:induction false} StoredAsSubmitted(acts: seq<Action>, id: Id) returns (n: nat)
    requires id in Concurrent(acts).db.results
    ensures n < |acts| && acts[n].Submit? && acts[n].request.id == id
    ensures var stored := Concurrent(acts).db.results[id];
            stored.command == acts[n].request.command && stored.caller == acts[n].request.caller
  {
    hide Do, SysInv, OwnResult;
    var last := |acts| - 1;
    var before := acts[..last];
    var sys := Concurrent(before);
    ConcurrentKeeps(before);
    if id in sys.db.results {
      StepKeepsResults(sys, acts[last], id);
      n := StoredAsSubmitted(before, id);
    } else {
      var i := StoredByCommit(sys, acts[last], id);
      OwnResults(before);
      OwnMeans(sys.txns[i]);
      n := SubmittedAs(before, i);
    }
  }

  lemma OwnMeans(t: Txn)
    requires OwnResult(t) && t.phase.Writing?
    ensures t.phase.stored.command == t.request.command && t.phase.stored.caller == t.request.caller
  {}

  /** A commit publishes the result it answers with. */
  lemma CommitAnswers(sys: Sys, i: nat, now: int, first: Id)
    requires Shaped(sys) && Committing(sys, i)
    ensures var (t, y) := (sys.txns[i], Do(sys, Step(i, now, first)));
            && y.txns[i].phase == Answered(Decided(t.phase.stored))
            && y.db.results == sys.db.results[t.request.id := t.phase.stored] && y.db.log == sys.db.log + t.phase.rows
  {
    hide Read, Shape, Committed, NextKey;
  }

  /** In every interleaving, once a transaction has committed a result, a transaction for the same
      request that begins at any later moment is answered with that result. */
  lemma ReplayedConcurrently(acts: seq<Action>, k: nat, i: nat, j: nat, now: int, first: Id)
    requires k <= |acts| && Committing(Concurrent(acts[..k]), i)
    requires k < |acts| && acts[k].Step? && acts[k].i == i
    requires j < |Concurrent(acts).txns| && Concurrent(acts).txns[j].phase.Begin?
    requires SameRequest(Concurrent(acts).txns[j].request, Concurrent(acts[..k]).txns[i].request)
    ensures j < |Do(Concurrent(acts), Step(j, now, first)).txns|
    ensures Do(Concurrent(acts), Step(j, now, first)).txns[j].phase ==
            Answered(Replayed(Concurrent(acts[..k]).txns[i].phase.stored))
  {
    hide Do, Concurrent, SysInv, OwnResult, Committing;
    CommitStored(acts, k, i);
    var t := Concurrent(acts[..k]).txns[i];
    ResultsAreFinal(acts, k + 1, t.request.id);
    OwnResults(acts[..k]);
    OwnMeans(t);
    BeginReplays(Concurrent(acts), j, now, first);
  }

  lemma CommitStored(acts: seq<Action>, k: nat, i: nat)
    requires k < |acts| && Committing(Concurrent(acts[..k]), i) && acts[k].Step? && acts[k].i == i
    ensures var t := Concurrent(acts[..k]).txns[i];
            && i < |Concurrent(acts[..k]).txns| && t.phase.Writing?
            && t.request.id in Concurrent(acts[..k + 1]).db.results
            && Concurrent(acts[..k + 1]).db.results[t.request.id] == t.phase.stored
  {
    hide Do;
    assert acts[..k + 1][..k] == acts[..k];
    CommitAnswers(Concurrent(acts[..k]), i, acts[k].now, acts[k].firstEventId);
  }

  lemma BeginReplays(sys: Sys, j: nat, now: int, first: Id)
    requires Shaped(sys) && j < |sys.txns| && sys.txns[j].phase.Begin? && sys.txns[j].request.id in sys.db.results
    requires var stored := sys.db.results[sys.txns[j].request.id];
             stored.command == sys.txns[j].request.command && stored.caller == sys.txns[j].request.caller
    ensures j < |Do(sys, Step(j, now, first)).txns|
    ensures Do(sys, Step(j, now, first)).txns[j].phase == Answered(Replayed(sys.db.results[sys.txns[j].request.id]))
  {
    hide Committed, NextKey, WaitsFor, FoldStream;
  }
}
