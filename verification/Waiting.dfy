/** Lock order: the transactions of an interleaving can wait for one another, never in a cycle.

    Rows are inserted in ascending (account, version) order and the result row last, so along
    a chain of waiting transactions the wanted keys strictly ascend. */
module Waiting {
  import opened Events
  import opened Accounts
  import opened Views
  import opened Commands
  import opened Execution
  import opened Numbering
  import opened Soundness
  import opened Runs
  import opened Optimistic
  import opened Interleaving
  import opened Serializability

  /** The order in which every transaction takes its keys. */
  predicate Before(x: Key, y: Key) {
    match (x, y)
    case (RowKey(a, v), RowKey(b, w)) => a < b || (a == b && v < w)
    case (RowKey(_, _), IdKey(_)) => true
    case (IdKey(_), _) => false
  }

  lemma BeforeIsTransitive(x: Key, y: Key, z: Key)
    requires Before(x, y) && Before(y, z)
    ensures Before(x, z) && x != z
  {}

  /** The rows of a writing transaction ascend. */
  lemma RowsAscend(log: seq<Row>, t: Txn, m: nat, n: nat)
    requires TxnInv(log, t) && t.phase.Writing? && m < n < |t.phase.rows|
    ensures Before(KeyOf(t.phase.rows[m]), KeyOf(t.phase.rows[n]))
  {
    hide Decide, ReadsInv, ReversalStill, Sufficient, AcceptedResult, ValidCommand, InOrder;
    var legs :| Decision(t, legs);
    DecideNumbers(t.request.command, t.request.id, t.request.now, t.phase.seen, legs);
    assert KeyBefore(legs[m], legs[n]);
  }

  /** Whatever a waiting transaction holds comes before what it waits for. */
  lemma HeldBeforeWanted(log: seq<Row>, t: Txn, key: Key)
    requires TxnInv(log, t) && t.phase.Writing? && t.phase.taken <= |t.phase.rows| && Holds(t, key)
    ensures Before(key, NextKey(t))
  {
    hide TxnInv;
    var n :| 0 <= n < |t.phase.rows| && n < t.phase.taken && KeyOf(t.phase.rows[n]) == key;
    if t.phase.taken < |t.phase.rows| { RowsAscend(log, t, n, t.phase.taken); }
  }

  /** Each transaction of the chain waits for the next one. */
  ghost predicate WaitChain(sys: Sys, chain: seq<nat>) {
    forall n {:trigger chain[n]} :: 0 < n < |chain| ==> WaitsFor(sys, chain[n - 1], chain[n])
  }

  /** The keys wanted along a chain ascend from its first member to any later waiting one. */
  lemma {:induction false} WantedAscend(sys: Sys, chain: seq<nat>, n: nat)
    requires SysInv(sys) && WaitChain(sys, chain) && 0 < n < |chain| - 1
    ensures chain[0] < |sys.txns| && sys.txns[chain[0]].phase.Writing?
    ensures chain[n] < |sys.txns| && sys.txns[chain[n]].phase.Writing?
    ensures Before(NextKey(sys.txns[chain[0]]), NextKey(sys.txns[chain[n]]))
  {
    hide TxnInv, DbInv, KeysInv, Holds, NextKey, Before;
    assert WaitsFor(sys, chain[n], chain[n + 1]);
    assert WaitsFor(sys, chain[n - 1], chain[n]);
    HeldBeforeWanted(sys.db.log, sys.txns[chain[n]], NextKey(sys.txns[chain[n - 1]]));
    if n > 1 {
      WantedAscend(sys, chain, n - 1);
      BeforeIsTransitive(NextKey(sys.txns[chain[0]]), NextKey(sys.txns[chain[n - 1]]), NextKey(sys.txns[chain[n]]));
    }
  }

  /** No deadlock: in every reachable state, for any number of transactions and legs, a chain
      of waiting transactions never comes back to its start. */
  lemma NoWaitCycle(acts: seq<Action>, chain: seq<nat>)
    requires |chain| >= 2 && WaitChain(Concurrent(acts), chain)
    ensures chain[0] != chain[|chain| - 1]
  {
    var sys := Concurrent(acts);
    ConcurrentKeeps(acts);
    hide SysInv, Concurrent;
    var last := |chain| - 1;
    assert WaitsFor(sys, chain[last - 1], chain[last]);
    if chain[0] == chain[last] && last > 1 {
      var key := NextKey(sys.txns[chain[0]]);
      WantedAscend(sys, chain, last - 1);
      assert WaitsFor(sys, chain[0], chain[1]);
      CycleCloses(sys, chain[0], chain[last - 1]);
      assert false;
    }
  }

  /** If a transaction waits for one whose wanted key comes earlier, nothing it holds fits. */
  lemma CycleCloses(sys: Sys, first: nat, last: nat)
    requires SysInv(sys) && WaitsFor(sys, last, first)
    requires sys.txns[first].phase.Writing? && sys.txns[first].phase.taken <= |sys.txns[first].phase.rows|
    ensures !Before(NextKey(sys.txns[first]), NextKey(sys.txns[last]))
  {
    HeldBeforeWanted(sys.db.log, sys.txns[first], NextKey(sys.txns[last]));
  }

  // ---------------------------------------------------------------- progress

  /** A step of this transaction changes the system. */
  ghost predicate CanMove(sys: Sys, i: nat) {
    i < |sys.txns| && !Finished(sys.txns[i]) && !exists j :: WaitsFor(sys, i, j)
  }

  /** Following the waits from a blocked transaction leads, through ever later keys, to one
      that can move. `behind` are the transactions already passed. */
  lemma {:induction false} FollowWaits(sys: Sys, i: nat, behind: set<nat>) returns (k: nat)
    requires SysInv(sys) && i < |sys.txns| && !Finished(sys.txns[i])
    requires forall b :: b in behind ==> b < |sys.txns| && sys.txns[b].phase.Writing?
    requires sys.txns[i].phase.Writing? && sys.txns[i].phase.taken <= |sys.txns[i].phase.rows| ==>
               forall b :: b in behind ==> Before(NextKey(sys.txns[b]), NextKey(sys.txns[i]))
    requires i !in behind
    ensures CanMove(sys, k)
    decreases |sys.txns| - |behind|
  {
    hide TxnInv, DbInv, KeysInv, Holds, NextKey, Before;
    BehindIsSmall(behind + {i}, |sys.txns|);
    if j: nat :| WaitsFor(sys, i, j) {
      HoldersWrite(sys.txns[j], NextKey(sys.txns[i]));
      var behind' := behind + {i};
      if sys.txns[j].phase.taken <= |sys.txns[j].phase.rows| {
        HeldBeforeWanted(sys.db.log, sys.txns[j], NextKey(sys.txns[i]));
        forall b | b in behind' ensures Before(NextKey(sys.txns[b]), NextKey(sys.txns[j])) && b != j {
          if b in behind { BeforeIsTransitive(NextKey(sys.txns[b]), NextKey(sys.txns[i]), NextKey(sys.txns[j])); }
          NotBeforeItself(NextKey(sys.txns[j]));
        }
        k := FollowWaits(sys, j, behind');
      } else {
        k := j;
      }
    } else {
      k := i;
    }
  }

  lemma NotBeforeItself(x: Key)
    ensures !Before(x, x)
  {}

  lemma HoldersWrite(t: Txn, key: Key)
    requires Holds(t, key)
    ensures t.phase.Writing?
  {}

  lemma {:induction false} BehindIsSmall(s: set<nat>, n: nat)
    requires forall x :: x in s ==> x < n
    ensures |s| <= n
  {
    if n > 0 {
      BehindIsSmall(s - {n - 1}, n - 1);
    } else {
      assert s == {};
    }
  }

  lemma ReadsMove(db: Db, t: Txn, now: int, firstEventId: Id)
    requires Shape(t) && (t.phase.Begin? || t.phase.FoldAnchor? || t.phase.ReadTarget? || t.phase.FoldNext?)
    ensures Read(db, t, now, firstEventId).phase != t.phase
  {
    hide Decide, FoldStream, HoldRead, OriginalRead, RevertedByRead, Stamp, AcceptedResult, Named;
  }

  lemma MovesChange(sys: Sys, k: nat, now: int, firstEventId: Id)
    requires Shaped(sys) && CanMove(sys, k)
    ensures Do(sys, Step(k, now, firstEventId)) != sys
  {
    hide Read, Shape, Committed, NextKey, Holds;
    var t := sys.txns[k];
    if !t.phase.Writing? { ReadsMove(sys.db, t, now, firstEventId); }
    assert Do(sys, Step(k, now, firstEventId)).txns[k] != t;
  }

  /** Progress: as long as some transaction is unfinished, some step changes the system. */
  lemma SomeoneMoves(acts: seq<Action>, i: nat, now: int, firstEventId: Id) returns (k: nat)
    requires i < |Concurrent(acts).txns| && !Finished(Concurrent(acts).txns[i])
    ensures CanMove(Concurrent(acts), k)
    ensures Do(Concurrent(acts), Step(k, now, firstEventId)) != Concurrent(acts)
  {
    ConcurrentKeeps(acts);
    hide SysInv, Concurrent, Do;
    k := FollowWaits(Concurrent(acts), i, {});
    MovesChange(Concurrent(acts), k, now, firstEventId);
  }
}
