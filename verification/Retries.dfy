/** The race retry, counted on the run: a transaction starts over after its first and its second
    collision and raises exactly at its third. */
module Retries {
  import opened Events
  import opened Accounts
  import opened Commands
  import opened Execution
  import opened Optimistic

  /** The insert a writing transaction tries next meets a committed key. */
  ghost predicate Collides(sys: Sys, act: Action, i: nat) {
    && act.Step? && act.i == i && i < |sys.txns| && sys.txns[i].phase.Writing?
    && sys.txns[i].phase.taken <= |sys.txns[i].phase.rows| && Committed(sys.db, NextKey(sys.txns[i]))
  }

  /** How often transaction `i` has met a committed key. */
  ghost function Collisions(acts: seq<Action>, i: nat): nat {
    if acts == [] then 0
    else
      var n := |acts| - 1;
      Collisions(acts[..n], i) + (if Collides(Concurrent(acts[..n]), acts[n], i) then 1 else 0)
  }

  /** The business request of a transaction: what does not change from attempt to attempt. */
  predicate SameRequest(x: Request, y: Request) {
    x.id == y.id && x.command == y.command && x.caller == y.caller
  }

  ghost predicate AttemptsCounted(acts: seq<Action>, i: nat)
    requires i < |Concurrent(acts).txns|
  {
    var t := Concurrent(acts).txns[i];
    if t.phase.Raised? then Collisions(acts, i) == 3 else t.attempt == Collisions(acts, i) + 1 && Collisions(acts, i) <= 2
  }

  // ---------------------------------------------------------------- one action

  lemma ReadSameAttempt(db: Db, t: Txn, now: int, first: Id)
    requires Shape(t) && (t.phase.Begin? || t.phase.FoldAnchor? || t.phase.ReadTarget? || t.phase.FoldNext?)
    ensures var u := Read(db, t, now, first);
            u.attempt == t.attempt && SameRequest(u.request, t.request) && !u.phase.Raised?
  {
    hide Decide, FoldStream, HoldRead, OriginalRead, RevertedByRead, Stamp, AcceptedResult, Named;
  }

  /** What one action does to the attempts of one transaction. */
  lemma StepAttempt(sys: Sys, act: Action, i: nat)
    requires Shaped(sys) && i < |sys.txns|
    ensures i < |Do(sys, act).txns|
    ensures var t, u := sys.txns[i], Do(sys, act).txns[i];
            && SameRequest(u.request, t.request)
            && (if !Collides(sys, act, i) then u.attempt == t.attempt && (u.phase.Raised? <==> t.phase.Raised?)
                else !t.phase.Raised? &&
                     if t.attempt <= 2 then u.attempt == t.attempt + 1 && u.phase.Begin? else u.phase.Raised?)
  {
    hide Read, Committed, NextKey, WaitsFor, Shape, ValidCommand;
    if act.Step? && act.i == i && !Finished(sys.txns[i]) && !sys.txns[i].phase.Writing? {
      ReadSameAttempt(sys.db, sys.txns[i], act.now, act.firstEventId);
    }
  }

  /** A transaction is new in the last action, or was there before. */
  lemma NewTxn(sys: Sys, act: Action, i: nat)
    requires Shaped(sys) && |sys.txns| <= i < |Do(sys, act).txns|
    ensures var u := Do(sys, act).txns[i]; u.attempt == 1 && u.phase.Begin? && act == Submit(u.request)
  {
    hide Read, Committed, NextKey, WaitsFor, Shape, ValidCommand;
  }

  lemma {:induction false} NoCollisionsYet(acts: seq<Action>, i: nat)
    requires i >= |Concurrent(acts).txns|
    ensures Collisions(acts, i) == 0
  {
    hide Do;
    if acts != [] {
      var n := |acts| - 1;
      TxnsGrow(Concurrent(acts[..n]), acts[n]);
      NoCollisionsYet(acts[..n], i);
    }
  }

  lemma TxnsGrow(sys: Sys, act: Action)
    requires Shaped(sys)
    ensures |sys.txns| <= |Do(sys, act).txns|
  {
    hide Read, Committed, NextKey, WaitsFor, Shape, ValidCommand;
  }

  lemma {:induction false} AttemptsAreCollisions(acts: seq<Action>, i: nat)
    requires i < |Concurrent(acts).txns|
    ensures AttemptsCounted(acts, i)
  {
    hide Do, Collides;
    var n := |acts| - 1;
    if acts != [] {
      var sys := Concurrent(acts[..n]);
      if i < |sys.txns| {
        AttemptsAreCollisions(acts[..n], i);
        StepAttempt(sys, acts[n], i);
      } else {
        NoCollisionsYet(acts[..n], i);
        NewTxn(sys, acts[n], i);
        NotThere(sys, acts[n], i);
      }
    }
  }

  lemma NotThere(sys: Sys, act: Action, i: nat)
    requires i >= |sys.txns|
    ensures !Collides(sys, act, i)
  {}

  // --------------------------------------------------------------- the theorems

  /** In every interleaving a transaction has raised if and only if it has met a committed key
      exactly three times; nobody meets one a fourth time. */
  lemma RaisedAtTheThird(acts: seq<Action>, i: nat)
    requires i < |Concurrent(acts).txns|
    ensures Concurrent(acts).txns[i].phase.Raised? <==> Collisions(acts, i) == 3
    ensures Collisions(acts, i) <= 3
  {
    hide Concurrent, Collisions;
    AttemptsAreCollisions(acts, i);
  }

  /** Right after its first and second collision a transaction is back at the beginning with the
      same id, command and caller; right after its third it has raised. */
  lemma StartsOver(acts: seq<Action>, act: Action, i: nat)
    requires i < |Concurrent(acts).txns| && Collides(Concurrent(acts), act, i)
    ensures i < |Concurrent(acts + [act]).txns|
    ensures var t := Concurrent(acts + [act]).txns[i];
            && SameRequest(t.request, Concurrent(acts).txns[i].request)
            && (Collisions(acts + [act], i) <= 2 ==> t.phase.Begin?)
            && (Collisions(acts + [act], i) == 3 ==> t.phase.Raised?)
  {
    hide Do, Collides;
    var all := acts + [act];
    assert all[..|acts|] == acts;
    AttemptsAreCollisions(acts, i);
    StepAttempt(Concurrent(acts), act, i);
  }

  /** Whatever happens to it, a transaction stays that of the request it was submitted for. */
  lemma {:induction false} SubmittedAs(acts: seq<Action>, i: nat) returns (n: nat)
    requires i < |Concurrent(acts).txns|
    ensures n < |acts| && acts[n].Submit? && SameRequest(acts[n].request, Concurrent(acts).txns[i].request)
  {
    hide Do;
    var last := |acts| - 1;
    if acts != [] {
      var sys := Concurrent(acts[..last]);
      if i < |sys.txns| {
        n := SubmittedAs(acts[..last], i);
        StepAttempt(sys, acts[last], i);
      } else {
        NewTxn(sys, acts[last], i);
        n := last;
      }
    }
  }

  /** Each attempt decides with the clock reading and the event ids of its own fold. */
  lemma FoldTakesTheClock(sys: Sys, i: nat, now: int, first: Id)
    requires Shaped(sys) && i < |sys.txns| && sys.txns[i].phase.FoldAnchor?
    ensures var u := Do(sys, Step(i, now, first)).txns[i];
            u.phase == Answered(RolledBack) || (u.request.now == now && u.request.firstEventId == first)
  {
    hide FoldStream, Committed, WaitsFor;
  }

  /** And keeps them to the end of the attempt. */
  lemma ClockStays(sys: Sys, act: Action, i: nat)
    requires Shaped(sys) && i < |sys.txns| && !sys.txns[i].phase.FoldAnchor?
    ensures i < |Do(sys, act).txns| && Do(sys, act).txns[i].request == sys.txns[i].request
  {
    hide Read, Committed, NextKey, WaitsFor, Shape, ValidCommand;
    if act.Step? && act.i == i && !Finished(sys.txns[i]) && !sys.txns[i].phase.Writing? {
      ReadSameRequest(sys.db, sys.txns[i], act.now, act.firstEventId);
    }
  }

  lemma ReadSameRequest(db: Db, t: Txn, now: int, first: Id)
    requires Shape(t) && (t.phase.Begin? || t.phase.ReadTarget? || t.phase.FoldNext?)
    ensures Read(db, t, now, first).request == t.request
  {
    hide Decide, FoldStream, HoldRead, OriginalRead, RevertedByRead, Stamp, AcceptedResult, Named;
  }
}
