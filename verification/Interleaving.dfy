/** What every interleaving keeps, and why a commit re-decides the same way.

    The invariant of an open transaction speaks of the current log only. A folded state is
    the fold of a prefix of its stream; what was read about a hold or a reversal still holds
    as long as the anchor's stream has not grown. Both survive every foreign commit. */
module Interleaving {
  import opened Events
  import opened Accounts
  import opened Views
  import opened Commands
  import opened Execution
  import opened Numbering
  import opened Soundness
  import opened Runs
  import opened LedgerTheorems
  import opened Optimistic
  import L = Ledger
  import B = Batches

  // -------------------------------------------------------------- invariant

  /** A state folded from some earlier length of the stream. */
  ghost predicate FoldedEarlier(log: seq<Row>, a: Account, s: AccountState) {
    0 <= s.version <= |Stream(log, a)| && Fold(Stream(log, a)[..s.version]) == Ok(s)
  }

  /** The anchor's stream has not grown since it was folded. */
  ghost predicate AnchorCurrent(log: seq<Row>, c: Command, r: Reads)
    requires c.account in r.states
  {
    r.states[c.account].version == |Stream(log, c.account)|
  }

  ghost predicate StatesInv(log: seq<Row>, states: map<Account, AccountState>) {
    forall a :: a in states ==> FoldedEarlier(log, a, states[a])
  }

  ghost predicate HoldStill(log: seq<Row>, c: Command, r: Reads)
    requires c.account in r.states
  {
    AnchorCurrent(log, c, r) || HoldIdOf(c).None? ==> r.hold == HoldRead(log, c)
  }

  ghost predicate OriginalStill(log: seq<Row>, c: Command, r: Reads) {
    MovementLegs(r.original) != [] || !c.Revert? ==> r.original == OriginalRead(log, c)
  }

  /** No reversal was read: none is there now, unless the anchor's stream has grown. */
  ghost predicate ReversalStill(log: seq<Row>, c: Command, r: Reads)
    requires c.account in r.states
  {
    if !c.Revert? then r.revertedBy.None?
    else r.revertedBy.None? && L.Touches(MovementLegs(r.original), c.account) && AnchorCurrent(log, c, r)
         ==> RevertedByRead(log, c).None?
  }

  ghost predicate ReadsInv(log: seq<Row>, c: Command, r: Reads) {
    && c.account in r.states
    && StatesInv(log, r.states)
    && r.states[c.account].version == c.expectedVersion
    && OnlyNamed(c, r)
    && HoldStill(log, c, r)
    && OriginalStill(log, c, r)
  }

  /** The batch of an accepted command is what its reads decided. */
  ghost predicate WritingInv(log: seq<Row>, t: Txn)
    requires t.phase.Writing?
  {
    var c, r := t.request.command, t.phase.seen;
    if t.phase.stored.outcome.Accepted? then
      && ReadsInv(log, c, r) && ReversalStill(log, c, r) && Sufficient(c, r)
      && exists legs :: Decision(t, legs)
    else t.phase.rows == []
  }

  ghost predicate Decision(t: Txn, legs: seq<Numbered>)
    requires t.phase.Writing?
  {
    var c, r := t.request.command, t.phase.seen;
    && Sufficient(c, r)
    && Decide(c, t.request.id, t.request.now, r) == Ok(legs)
    && t.phase.rows == Stamp(legs, t.request.firstEventId)
    && AcceptedResult(t.request, r.states[c.account].version, t.phase.rows) == Some(t.phase.stored)
  }

  ghost predicate TxnInv(log: seq<Row>, t: Txn) {
    && ValidCommand(t.request.command)
    && 1 <= t.attempt <= MAX_RACE_RETRIES + 1
    && match t.phase
       case ReadTarget(anchor) =>
         FoldedEarlier(log, t.request.command.account, anchor) && anchor.version == t.request.command.expectedVersion
       case FoldNext(r, _) => ReadsInv(log, t.request.command, r) && r.revertedBy.None?
       case Writing(_, _, _, _) => WritingInv(log, t)
       case Raised => t.attempt == MAX_RACE_RETRIES + 1
       case _ => true
  }

  /** The keys inserted by open transactions are free and pairwise different. */
  ghost predicate KeysInv(sys: Sys) {
    && (forall i, key :: 0 <= i < |sys.txns| && Holds(sys.txns[i], key) ==> !Committed(sys.db, key))
    && (forall i, j, key :: 0 <= i < |sys.txns| && 0 <= j < |sys.txns| && Holds(sys.txns[i], key) && Holds(sys.txns[j], key)
          ==> i == j)
  }

  ghost predicate SysInv(sys: Sys) {
    && Shaped(sys)
    && DbInv(sys.db)
    && (forall i :: 0 <= i < |sys.txns| ==> TxnInv(sys.db.log, sys.txns[i]))
    && KeysInv(sys)
  }

  // ------------------------------------------- commit: nothing read has changed

  /** In a contiguous log every number up to a stream's length is taken. */
  lemma {:induction false} NumbersTaken(log: seq<Row>, a: Account, v: int)
    requires Contiguous(log) && 1 <= v <= |Stream(log, a)|
    ensures exists i :: 0 <= i < |log| && log[i].event.account == a && log[i].seqNo == v
  {
    var n := |log| - 1;
    if log != [] {
      assert EventsOf(log)[..n] == EventsOf(log[..n]);
      if log[n].event.account != a || v != |Stream(log, a)| {
        NumbersTaken(log[..n], a, v);
        var i :| 0 <= i < n && log[..n][i].event.account == a && log[..n][i].seqNo == v;
        assert log[i] == log[..n][i];
      }
    }
  }

  /** The first leg on a stream carries the version after the folded one. */
  lemma {:induction false} FirstVersion(states: map<Account, AccountState>, legs: seq<Numbered>, a: Account)
    requires InOrder(states, legs) && a in states && OnAccount(EventsOfLegs(legs), a) != []
    ensures exists i :: 0 <= i < |legs| && legs[i].event.account == a && legs[i].version == states[a].version + 1
  {
    var n := |legs| - 1;
    if legs != [] {
      assert EventsOfLegs(legs)[..n] == EventsOfLegs(legs[..n]);
      if OnAccount(EventsOfLegs(legs[..n]), a) != [] {
        FirstVersion(states, legs[..n], a);
        var i :| 0 <= i < n && legs[..n][i].event.account == a && legs[..n][i].version == states[a].version + 1;
        assert legs[i] == legs[..n][i];
      }
    }
  }

  /** A written stream whose first new number is free has not grown since it was folded. */
  lemma UnchangedStream(log: seq<Row>, a: Account, s: AccountState)
    requires Contiguous(log) && FoldedEarlier(log, a, s)
    requires forall i :: 0 <= i < |log| && log[i].event.account == a ==> log[i].seqNo != s.version + 1
    ensures s.version == |Stream(log, a)| && FoldStream(log, a) == Ok(s)
  {
    if s.version < |Stream(log, a)| { NumbersTaken(log, a, s.version + 1); }
    assert Stream(log, a)[..|Stream(log, a)|] == Stream(log, a);
  }

  ghost predicate RowsFree(log: seq<Row>, rows: seq<Row>) {
    forall n, i :: 0 <= n < |rows| && 0 <= i < |log| ==> KeyOf(log[i]) != KeyOf(rows[n])
  }

  /** With every key of the batch free, every folded stream is as it was folded. */
  lemma StatesCurrent(log: seq<Row>, states: map<Account, AccountState>, legs: seq<Numbered>, first: Id)
    requires Contiguous(log) && StatesInv(log, states) && InOrder(states, legs) && WritesAll(states, EventsOfLegs(legs))
    requires RowsFree(log, Stamp(legs, first))
    ensures forall a :: a in states ==> states[a].version == |Stream(log, a)| && FoldStream(log, a) == Ok(states[a])
  {
    hide Contiguous, FoldStream, Stream, InOrder;
    forall a | a in states ensures states[a].version == |Stream(log, a)| && FoldStream(log, a) == Ok(states[a]) {
      assert OnAccount(EventsOfLegs(legs), a) != [];
      FirstVersion(states, legs, a);
      var n :| 0 <= n < |legs| && legs[n].event.account == a && legs[n].version == states[a].version + 1;
      var row := Stamp(legs, first)[n];
      forall i | 0 <= i < |log| && log[i].event.account == a ensures log[i].seqNo != states[a].version + 1 {
        assert KeyOf(log[i]) != KeyOf(row);
      }
      UnchangedStream(log, a, states[a]);
    }
  }

  /** A set with legs that a transaction read is the set the log holds: its rows are covered. */
  lemma OriginalCovered(log: seq<Row>, ids: set<Id>, c: Command, r: Reads)
    requires L.Inv(EventsOf(log), ids) && OriginalStill(log, c, r) && c.Revert? && MovementLegs(r.original) != []
    ensures forall i :: 0 <= i < |r.original| ==> L.Touches(MovementLegs(r.original), r.original[i].account)
  {
    assert L.RowsCovered(EventsOf(log), c.transferId);
  }

  lemma RevertAccepted(c: Command, id: Id, now: int, r: Reads)
    requires c.Revert? && Sufficient(c, r) && DecideEvents(c, id, now, r).Ok?
    ensures MovementLegs(r.original) != [] && r.revertedBy.None? && L.Touches(MovementLegs(r.original), c.account)
  {
    hide MirrorLegs, MovementLegs;
    NamedCovers(c, r);
    MovementCovered(r.states, r.original);
  }

  /** A decision whose keys are all still free was made on exactly what the log says now. */
  lemma CommitReadsExact(log: seq<Row>, ids: set<Id>, c: Command, id: Id, now: int, r: Reads, legs: seq<Numbered>, first: Id)
    requires L.Inv(EventsOf(log), ids) && Contiguous(log) && ValidCommand(c)
    requires ReadsInv(log, c, r) && ReversalStill(log, c, r) && Sufficient(c, r)
    requires Decide(c, id, now, r) == Ok(legs) && RowsFree(log, Stamp(legs, first))
    ensures ExactReads(EventsOf(log), c, r)
    ensures r.states[c.account].version == |Stream(log, c.account)|
  {
    hide L.Inv, Contiguous, Decide, DecideEvents, RowsFree, InOrder, StatesInv, IsNumbering, KeysAscend, OnSet,
      MovementLegs, RevertedBy;
    DecideNumbers(c, id, now, r, legs);
    if c.Revert? {
      RevertAccepted(c, id, now, r);
      OriginalCovered(log, ids, c, r);
    }
    Written(c, id, now, r);
    SameStreams(r.states, DecideEvents(c, id, now, r).value, legs);
    StatesCurrent(log, r.states, legs, first);
    ExactWhenCurrent(log, c, r);
    hide ExactReads, ReadsInv, ReversalStill, FoldStream, Stream, WritesAll, OriginalStill;
  }

  /** Current states make everything else that was read current too. */
  lemma ExactWhenCurrent(log: seq<Row>, c: Command, r: Reads)
    requires ReadsInv(log, c, r) && ReversalStill(log, c, r) && Sufficient(c, r)
    requires forall a :: a in r.states ==> r.states[a].version == |Stream(log, a)| && FoldStream(log, a) == Ok(r.states[a])
    requires c.Revert? ==> MovementLegs(r.original) != [] && r.revertedBy.None? && L.Touches(MovementLegs(r.original), c.account)
    ensures ExactReads(EventsOf(log), c, r)
  {
    hide OnSet, OnAccount, Fold, RevertedBy, MovementLegs, OpenHoldOf, StatesInv, OnlyNamed, Sufficient;
  }

  lemma SameStreams(states: map<Account, AccountState>, events: seq<Event>, legs: seq<Numbered>)
    requires WritesAll(states, events) && IsNumbering(states, events, legs)
    ensures WritesAll(states, EventsOfLegs(legs)) && InOrder(states, legs)
  {
    forall a | a in states ensures OnAccount(EventsOfLegs(legs), a) != [] {
      assert OnAccount(EventsOfLegs(legs), a) == OnAccount(events, a);
    }
  }

  /** Reading everything again, atomically, gives the same values. */
  lemma RereadsTheSame(log: seq<Row>, ids: set<Id>, c: Command, r: Reads)
    requires L.Inv(EventsOf(log), ids) && ExactReads(EventsOf(log), c, r)
    ensures FoldStream(log, c.account) == Ok(r.states[c.account])
    ensures ReadAll(log, c, r.states[c.account]) == Ok(r)
  {
    hide OnSet, OnAccount, RevertedBy, Fold, FoldOthers;
    var anchor := r.states[c.account];
    var named := Named(c, HoldRead(log, c), OriginalRead(log, c));
    InvFolds(EventsOf(log), ids);
    FoldOthersFolds(log, map[c.account := anchor], named);
    FoldOthersCovers(log, map[c.account := anchor], named);
    var m := FoldOthers(log, map[c.account := anchor], named).value;
    assert m == r.states;
  }

  /** A transaction about to commit. */
  ghost predicate Committing(sys: Sys, i: nat) {
    i < |sys.txns| && sys.txns[i].phase.Writing? && sys.txns[i].phase.taken > |sys.txns[i].phase.rows|
  }

  lemma CommittingKeys(sys: Sys, i: nat)
    requires KeysInv(sys) && Committing(sys, i)
    ensures sys.txns[i].request.id !in sys.db.results
    ensures RowsFree(sys.db.log, sys.txns[i].phase.rows)
  {
    var t := sys.txns[i];
    assert Holds(t, IdKey(t.request.id));
    assert !Committed(sys.db, IdKey(t.request.id));
    forall n, k | 0 <= n < |t.phase.rows| && 0 <= k < |sys.db.log|
      ensures KeyOf(sys.db.log[k]) != KeyOf(t.phase.rows[n])
    {
      assert Holds(t, KeyOf(t.phase.rows[n]));
      assert !Committed(sys.db, KeyOf(t.phase.rows[n]));
    }
  }

  /** Serial execution of a request whose reads are exact. */
  lemma SerialAccepts(db: Db, q: Request, r: Reads, legs: seq<Numbered>, stored: Stored)
    requires Sufficient(q.command, r) && q.id !in db.results
    requires FoldStream(db.log, q.command.account) == Ok(r.states[q.command.account])
    requires r.states[q.command.account].version == q.command.expectedVersion
    requires ReadAll(db.log, q.command, r.states[q.command.account]) == Ok(r)
    requires Decide(q.command, q.id, q.now, r) == Ok(legs)
    requires AcceptedResult(q, q.command.expectedVersion, Stamp(legs, q.firstEventId)) == Some(stored)
    ensures Execute(db, q) == (Db(db.log + Stamp(legs, q.firstEventId), db.results[q.id := stored]), Decided(stored))
  {
    hide Decide, ReadAll, FoldStream, Stamp, AcceptedResult, Sufficient;
  }

  /** The heart of the protocol: whenever an accepted command commits, deciding it again
      atomically on the current database gives the same rows, the same result and therefore
      the same new database. */
  lemma CommitIsSerial(sys: Sys, i: nat) returns (legs: seq<Numbered>)
    requires SysInv(sys) && Committing(sys, i) && sys.txns[i].phase.stored.outcome.Accepted?
    ensures var t := sys.txns[i];
            && Execute(sys.db, t.request) == (Published(sys.db, t), Decided(t.phase.stored))
            && t.phase.rows == Stamp(legs, t.request.firstEventId)
            && Sufficient(t.request.command, t.phase.seen)
            && Decide(t.request.command, t.request.id, t.request.now, t.phase.seen) == Ok(legs)
            && ExactReads(EventsOf(sys.db.log), t.request.command, t.phase.seen)
  {
    hide Execute, Decide, L.Inv, Contiguous, ReadAll, ExactReads, FoldStream, ReversalStill, AcceptedResult, Stamp,
      Sufficient, RowsFree;
    var t := sys.txns[i];
    assert TxnInv(sys.db.log, t);
    legs :| Decision(t, legs);
    CommittingKeys(sys, i);
    var ids := sys.db.results.Keys;
    CommitReadsExact(sys.db.log, ids, t.request.command, t.request.id, t.request.now, t.phase.seen, legs, t.request.firstEventId);
    RereadsTheSame(sys.db.log, ids, t.request.command, t.phase.seen);
    SerialAccepts(sys.db, t.request, t.phase.seen, legs, t.phase.stored);
  }

  // ------------------------------------------------ a foreign commit arrives

  lemma FoldedEarlierStays(log: seq<Row>, rows: seq<Row>, a: Account, s: AccountState)
    requires FoldedEarlier(log, a, s)
    ensures FoldedEarlier(log + rows, a, s)
  {
    hide Stream;
    StreamAfter(log, rows, a);
    assert Stream(log + rows, a)[..s.version] == Stream(log, a)[..s.version];
  }

  /** If the anchor's stream is still as folded after a batch, the batch did not touch it. */
  lemma AnchorUntouched(log: seq<Row>, rows: seq<Row>, c: Command, r: Reads)
    requires ReadsInv(log, c, r) && AnchorCurrent(log + rows, c, r)
    ensures AnchorCurrent(log, c, r) && OnAccount(EventsOf(rows), c.account) == []
    ensures Stream(log + rows, c.account) == Stream(log, c.account)
  {
    hide Stream, HoldStill, OriginalStill;
    StreamAfter(log, rows, c.account);
    assert FoldedEarlier(log, c.account, r.states[c.account]);
    assert Stream(log, c.account) + [] == Stream(log, c.account);
  }

  lemma OriginalStays(log: seq<Row>, rows: seq<Row>, ids: set<Id>, c: Command, r: Reads)
    requires L.Inv(EventsOf(log), ids) && L.GoodBatch(EventsOf(log), EventsOf(rows))
    requires OriginalStill(log, c, r)
    ensures OriginalStill(log + rows, c, r)
  {
    hide L.Inv, L.GoodBatch, OnSet, MovementLegs;
    if c.Revert? && MovementLegs(r.original) != [] {
      EventsConcat(log, rows);
      SetsNeverChange(EventsOf(log), EventsOf(rows), ids, c.transferId);
    }
  }

  /** A batch that names `t` as the set it reverts is the mirror of `t`. */
  lemma RevertingBatch(es: seq<Event>, b: seq<Event>, t: Id)
    requires L.GoodBatch(es, b) && RevertedBy(b, t).Some?
    ensures exists r :: L.IsReversal(es, b, r, t)
  {
    RevertedByReads(b, t);
    var i :| 0 <= i < |b| && RevertsColumn(b[i]) == Some(t);
    if r, u :| L.IsReversal(es, b, r, u) {
      assert b[i] == MirrorEvent(Movements(es, u)[i], r, u);
    } else if a, hold, amount :| L.IsCapture(es, b, a, hold, amount) {
      CaptureNamesNoSet(es, b, a, hold, amount, i);
    }
  }

  lemma CaptureNamesNoSet(es: seq<Event>, b: seq<Event>, a: Account, hold: OpenHold, amount: int, i: nat)
    requires L.IsCapture(es, b, a, hold, amount) && i < |b|
    ensures RevertsColumn(b[i]).None?
  {
    var source, target := L.CaptureSource(a, hold, amount), L.CaptureTarget(a, hold, amount);
    assert b[i] in source || b[i] in target;
  }

  /** Nobody can revert a set without writing on every account the set moved. */
  lemma ReversalStays(log: seq<Row>, rows: seq<Row>, ids: set<Id>, c: Command, r: Reads)
    requires L.Inv(EventsOf(log), ids) && L.GoodBatch(EventsOf(log), EventsOf(rows))
    requires ReadsInv(log, c, r) && ReversalStill(log, c, r)
    ensures ReversalStill(log + rows, c, r)
  {
    hide L.Inv, L.GoodBatch, OnSet, MovementLegs, RevertedBy, OnAccount, HoldStill, StatesInv, Stream, EventsOf;
    if c.Revert? && r.revertedBy.None? && L.Touches(MovementLegs(r.original), c.account) && AnchorCurrent(log + rows, c, r) {
      AnchorUntouched(log, rows, c, r);
      var es, b, t := EventsOf(log), EventsOf(rows), c.transferId;
      EventsConcat(log, rows);
      RevertedByConcat(es, b, t);
      if RevertedBy(b, t).Some? {
        RevertingBatch(es, b, t);
        var u :| L.IsReversal(es, b, u, t);
        ReversalTouches(es, b, u, t, c.account);
        assert false;
      }
    }
  }

  lemma ReversalTouches(es: seq<Event>, b: seq<Event>, u: Id, t: Id, a: Account)
    requires L.IsReversal(es, b, u, t) && L.Touches(Movements(es, t), a)
    ensures OnAccount(b, a) != []
  {
    var legs := Movements(es, t);
    var i :| 0 <= i < |legs| && legs[i].account == a;
    assert b[i] == MirrorEvent(legs[i], u, t);
    InStream(b, b[i]);
  }

  lemma ReadsStay(log: seq<Row>, rows: seq<Row>, ids: set<Id>, c: Command, r: Reads)
    requires L.Inv(EventsOf(log), ids) && L.GoodBatch(EventsOf(log), EventsOf(rows))
    requires ReadsInv(log, c, r)
    ensures ReadsInv(log + rows, c, r)
  {
    hide L.Inv, L.GoodBatch, FoldedEarlier, Stream, OriginalStill;
    forall a | a in r.states ensures FoldedEarlier(log + rows, a, r.states[a]) {
      FoldedEarlierStays(log, rows, a, r.states[a]);
    }
    if AnchorCurrent(log + rows, c, r) { AnchorUntouched(log, rows, c, r); }
    OriginalStays(log, rows, ids, c, r);
  }

  /** Every open transaction survives a foreign batch. */
  lemma TxnStays(log: seq<Row>, rows: seq<Row>, ids: set<Id>, t: Txn)
    requires L.Inv(EventsOf(log), ids) && L.GoodBatch(EventsOf(log), EventsOf(rows))
    requires TxnInv(log, t)
    ensures TxnInv(log + rows, t)
  {
    hide L.Inv, L.GoodBatch, FoldedEarlier, ReadsInv, ReversalStill, Decision, Sufficient, ValidCommand;
    var c := t.request.command;
    match t.phase
    case ReadTarget(anchor) => FoldedEarlierStays(log, rows, c.account, anchor);
    case FoldNext(r, _) => ReadsStay(log, rows, ids, c, r);
    case Writing(r, _, stored, _) =>
      if stored.outcome.Accepted? {
        ReadsStay(log, rows, ids, c, r);
        ReversalStays(log, rows, ids, c, r);
      }
    case _ =>
  }
}
