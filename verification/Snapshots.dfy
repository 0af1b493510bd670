/** Stream snapshots: a verified cache over the fold. */
module Snapshots {
  import opened Events
  import opened Accounts
  import opened Views
  import opened Execution
  import opened Runs

  const CURRENT_STATE_VERSION := 2

  datatype StreamSnapshot = StreamSnapshot(seqNo: int, state: AccountState, stateVersion: int, anchorId: Id)

  datatype Rejection = ShapeChanged | StateVersionMismatch | PastTheEnd | AnchorMismatch

  /** Why a snapshot must not be used on the stream's rows from its own number on. */
  function SnapshotRejection(snapshot: StreamSnapshot, rows: seq<Row>): Option<Rejection> {
    if snapshot.stateVersion != CURRENT_STATE_VERSION then Some(ShapeChanged)
    else if snapshot.state.version != snapshot.seqNo then Some(StateVersionMismatch)
    else if rows == [] then Some(PastTheEnd)
    else if rows[0].seqNo != snapshot.seqNo || rows[0].eventId != snapshot.anchorId then Some(AnchorMismatch)
    else None
  }

  function FoldFromSnapshot(snapshot: StreamSnapshot, tail: seq<Event>): Result<AccountState> {
    FoldFrom(snapshot.state, tail)
  }

  /** `WHERE stream = a ORDER BY seq`. */
  function RowsOn(log: seq<Row>, a: Account): seq<Row> {
    if log == [] then []
    else
      var before := RowsOn(log[..|log| - 1], a);
      var row := log[|log| - 1];
      if row.event.account == a then before + [row] else before
  }

  /** `WHERE stream = a AND seq >= v ORDER BY seq`. */
  function RowsFrom(log: seq<Row>, a: Account, v: int): seq<Row> {
    if log == [] then []
    else
      var before := RowsFrom(log[..|log| - 1], a, v);
      var row := log[|log| - 1];
      if row.event.account == a && row.seqNo >= v then before + [row] else before
  }

  /** The fold a unit of work uses: the snapshot plus its tail if it may be trusted, else the
      whole stream. */
  function CachedFold(log: seq<Row>, a: Account, snapshot: Option<StreamSnapshot>): Result<AccountState> {
    if snapshot.None? then FoldStream(log, a)
    else
      var rows := RowsFrom(log, a, snapshot.value.seqNo);
      if SnapshotRejection(snapshot.value, rows).None? then FoldFromSnapshot(snapshot.value, EventsOf(rows[1..]))
      else FoldStream(log, a)
  }

  /** What a snapshot claims, checkable or not: if its anchor is in the stream, the anchor has
      its number and the fold up to it is its state. */
  ghost predicate Trusted(log: seq<Row>, a: Account, s: StreamSnapshot) {
    var rows := RowsOn(log, a);
    forall k :: 0 <= k < |rows| && rows[k].eventId == s.anchorId ==>
      k + 1 == s.seqNo && Fold(EventsOf(rows[..k + 1])) == Ok(s.state)
  }

  // ----------------------------------------------------------- the row views

  lemma {:induction false} RowsOnSpec(log: seq<Row>, a: Account)
    requires Contiguous(log)
    ensures EventsOf(RowsOn(log, a)) == Stream(log, a)
    ensures forall k :: 0 <= k < |RowsOn(log, a)| ==> RowsOn(log, a)[k].seqNo == k + 1 && RowsOn(log, a)[k].event.account == a
  {
    if log != [] {
      var n := |log| - 1;
      RowsOnSpec(log[..n], a);
      assert EventsOf(log)[..n] == EventsOf(log[..n]);
    }
  }

  lemma {:induction false} RowsFromSpec(log: seq<Row>, a: Account, v: int)
    requires Contiguous(log)
    ensures RowsFrom(log, a, v) == if v < 1 then RowsOn(log, a) else if v > |RowsOn(log, a)| then [] else RowsOn(log, a)[v - 1..]
  {
    if log != [] {
      var n := |log| - 1;
      RowsFromSpec(log[..n], a, v);
      RowsOnSpec(log[..n], a);
      RowsOnSpec(log, a);
    }
  }

  lemma {:induction false} RowsOnConcat(log: seq<Row>, rows: seq<Row>, a: Account)
    ensures RowsOn(log + rows, a) == RowsOn(log, a) + RowsOn(rows, a)
    decreases |rows|
  {
    if rows == [] {
      assert log + rows == log;
    } else {
      var n := |rows| - 1;
      assert (log + rows)[..|log + rows| - 1] == log + rows[..n];
      RowsOnConcat(log, rows[..n], a);
    }
  }

  lemma {:induction false} InRowsOn(log: seq<Row>, a: Account)
    ensures forall row :: row in RowsOn(log, a) ==> row in log
  {
    if log != [] {
      InRowsOn(log[..|log| - 1], a);
    }
  }

  // ------------------------------------------------------------ the theorem

  /** Folding from a trusted snapshot is folding the whole stream. */
  lemma CachedFoldIsFold(log: seq<Row>, a: Account, snapshot: Option<StreamSnapshot>)
    requires Contiguous(log)
    requires snapshot.Some? && snapshot.value.stateVersion == CURRENT_STATE_VERSION ==> Trusted(log, a, snapshot.value)
    ensures CachedFold(log, a, snapshot) == FoldStream(log, a)
  {
    if snapshot.Some? {
      var s := snapshot.value;
      var tail := RowsFrom(log, a, s.seqNo);
      if SnapshotRejection(s, tail).None? {
        RowsOnSpec(log, a);
        RowsFromSpec(log, a, s.seqNo);
        hide Contiguous, RowsOn, RowsFrom, Fold, Stream;
        var rows := RowsOn(log, a);
        assert rows[s.seqNo - 1] == tail[0];
        TailFolds(rows, s.seqNo, s.state);
      }
    }
  }

  lemma TailFolds(rows: seq<Row>, k: int, state: AccountState)
    requires 1 <= k <= |rows| && Fold(EventsOf(rows[..k])) == Ok(state)
    ensures Fold(EventsOf(rows)) == FoldFrom(state, EventsOf(rows[k - 1..][1..]))
  {
    hide FoldFrom;
    var head, tail := EventsOf(rows[..k]), EventsOf(rows[k - 1..][1..]);
    assert EventsOf(rows) == head + tail;
    FoldConcat(EMPTY, head, tail);
  }

  /** A snapshot of this build's shape whose anchor stands in the stream where it says. */
  predicate Usable(s: StreamSnapshot, rows: seq<Row>) {
    s.stateVersion == 2 && s.state.version == s.seqNo && 1 <= s.seqNo <= |rows| && rows[s.seqNo - 1].eventId == s.anchorId
  }

  /** Exactly the usable snapshots are used; the others are rejected for the first reason that
      holds of the stream. */
  lemma UsableExactly(log: seq<Row>, a: Account, s: StreamSnapshot)
    requires Contiguous(log)
    ensures var rejection := SnapshotRejection(s, RowsFrom(log, a, s.seqNo));
            && (rejection.None? <==> Usable(s, RowsOn(log, a)))
            && (rejection == Some(PastTheEnd) ==> s.seqNo > |RowsOn(log, a)| || RowsOn(log, a) == [])
            && (s.stateVersion != 2 <==> rejection == Some(ShapeChanged))
  {
    hide Contiguous, RowsOn, RowsFrom;
    RowsOnSpec(log, a);
    RowsFromSpec(log, a, s.seqNo);
    var rows := RowsOn(log, a);
    if 1 <= s.seqNo <= |rows| { assert rows[s.seqNo - 1..][0] == rows[s.seqNo - 1]; }
  }

  /** A trusted snapshot is used exactly when its anchor is in the stream. */
  lemma TrustedIsUsable(log: seq<Row>, a: Account, s: StreamSnapshot)
    requires Contiguous(log) && Trusted(log, a, s) && s.stateVersion == 2 && s.state.version == s.seqNo
    ensures SnapshotRejection(s, RowsFrom(log, a, s.seqNo)).None? <==> exists row :: row in RowsOn(log, a) && row.eventId == s.anchorId
  {
    hide Contiguous, RowsFrom, Fold;
    UsableExactly(log, a, s);
    var rows := RowsOn(log, a);
    if Usable(s, rows) { assert rows[s.seqNo - 1] in rows; }
    if row :| row in rows && row.eventId == s.anchorId {
      var k :| 0 <= k < |rows| && rows[k] == row;
      assert k + 1 == s.seqNo;
    }
  }

  // ------------------------------------------- what keeps a snapshot trusted

  /** A row with another id does not touch the claim. */
  lemma TrustedAfterAppend(log: seq<Row>, row: Row, a: Account, s: StreamSnapshot)
    requires Trusted(log, a, s) && row.eventId != s.anchorId
    ensures Trusted(log + [row], a, s)
  {
    RowsPlus(log, row, a);
    var before, rows := RowsOn(log, a), RowsOn(log + [row], a);
    forall k | 0 <= k < |rows| && rows[k].eventId == s.anchorId
      ensures k + 1 == s.seqNo && Fold(EventsOf(rows[..k + 1])) == Ok(s.state)
    {
      assert rows[k] == before[k] && rows[..k + 1] == before[..k + 1];
    }
  }

  lemma RowsPlus(log: seq<Row>, row: Row, a: Account)
    ensures RowsOn(log + [row], a) == if row.event.account == a then RowsOn(log, a) + [row] else RowsOn(log, a)
  {
    assert (log + [row])[..|log|] == log;
  }

  /** Cutting the log back to any prefix keeps every claim. */
  lemma TrustedAfterCut(log: seq<Row>, k: nat, a: Account, s: StreamSnapshot)
    requires k <= |log| && Trusted(log, a, s)
    ensures Trusted(log[..k], a, s)
  {
    RowsOnConcat(log[..k], log[k..], a);
    assert log == log[..k] + log[k..];
    var rows, cut := RowsOn(log, a), RowsOn(log[..k], a);
    forall i | 0 <= i < |cut| && cut[i].eventId == s.anchorId
      ensures i + 1 == s.seqNo && Fold(EventsOf(cut[..i + 1])) == Ok(s.state)
    {
      assert cut[i] == rows[i] && cut[..i + 1] == rows[..i + 1];
    }
  }

  /** A snapshot taken right after appending a row with a fresh id is trusted. */
  lemma TrustedWhenTaken(log: seq<Row>, row: Row, prior: AccountState, s: StreamSnapshot)
    requires Contiguous(log) && (forall i :: 0 <= i < |log| ==> log[i].eventId != row.eventId)
    requires FoldStream(log, row.event.account) == Ok(prior) && Apply(prior, row.event) == Ok(s.state)
    requires row.seqNo == |Stream(log, row.event.account)| + 1
    requires s.seqNo == row.seqNo && s.anchorId == row.eventId
    ensures Trusted(log + [row], row.event.account, s)
    ensures FoldStream(log + [row], row.event.account) == Ok(s.state)
  {
    hide Contiguous, RowsOn, Fold, Stream;
    var a := row.event.account;
    RowsPlus(log, row, a);
    RowsOnSpec(log, a);
    ContiguousPlus(log, row);
    RowsOnSpec(log + [row], a);
    InRowsOn(log, a);
    var before := RowsOn(log, a);
    FoldPlus(before, row, prior);
    forall k | 0 <= k < |before| ensures before[k].eventId != row.eventId { assert before[k] in log; }
    var rows := before + [row];
    assert rows[..|rows|] == rows;
  }

  lemma FoldPlus(rows: seq<Row>, row: Row, prior: AccountState)
    requires Fold(EventsOf(rows)) == Ok(prior)
    ensures Fold(EventsOf(rows + [row])) == Apply(prior, row.event)
  {
    hide Apply;
    assert EventsOf(rows + [row])[..|rows|] == EventsOf(rows);
  }
}
