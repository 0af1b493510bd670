/** The snapshot rows beside the log: the per-transaction tracker, the monotonic upsert, and a
    store whose log can be rolled back, cut to any prefix and grown again. */
module SnapshotStore {
  import opened Events
  import opened Accounts
  import opened Views
  import opened Execution
  import opened Runs
  import opened Snapshots

  /** Which streams a transaction has folded, from where, and when a snapshot is due. */
  class SnapshotTracker {
    const every: int
    var states: map<Account, AccountState>
    var snapshotSeq: map<Account, int>

    ghost predicate Valid()
      reads this
    {
      states.Keys == snapshotSeq.Keys
    }

    constructor (every: int)
      ensures Valid() && this.every == every && states == map[]
    {
      this.every := every;
      states, snapshotSeq := map[], map[];
    }

    method Folded(a: Account, state: AccountState, seqNo: int)
      requires Valid()
      modifies this
      ensures Valid() && states == old(states)[a := state] && snapshotSeq == old(snapshotSeq)[a := seqNo]
    {
      states := states[a := state];
      snapshotSeq := snapshotSeq[a := seqNo];
    }

    /** The state after the event, and the snapshot that has become due. */
    method AfterAppend(eventId: Id, version: int, e: Event) returns (r: Result<Option<StreamSnapshot>>)
      requires Valid()
      modifies this
      ensures Valid()
      ensures e.account !in old(states) ==> r == Ok(None)
      ensures e.account in old(states) ==> (r.Ok? <==> Apply(old(states[e.account]), e).Ok?)
      ensures states == if r.Ok? && e.account in old(states)
                        then old(states)[e.account := Apply(old(states[e.account]), e).value] else old(states)
      ensures r.Err? || e.account !in old(states) ==> snapshotSeq == old(snapshotSeq)
      ensures r.Ok? && r.value.Some? ==>
                e.account in states && r.value.value == StreamSnapshot(version, states[e.account], CURRENT_STATE_VERSION, eventId)
      ensures r.Ok? && e.account in old(states) ==>
                (r.value.Some? <==> every > 0 && version - old(snapshotSeq[e.account]) >= every) &&
                snapshotSeq == if r.value.Some? then old(snapshotSeq)[e.account := version] else old(snapshotSeq)
    {
      if e.account !in states {
        return Ok(None);
      }
      var applied := Apply(states[e.account], e);
      if applied.Err? {
        return Err(applied.fault);
      }
      states := states[e.account := applied.value];
      if every <= 0 || version - snapshotSeq[e.account] < every {
        return Ok(None);
      }
      snapshotSeq := snapshotSeq[e.account := version];
      r := Ok(Some(StreamSnapshot(version, applied.value, CURRENT_STATE_VERSION, eventId)));
    }
  }

  /** Every row this build wrote was issued by it. */
  ghost predicate RowsIssued(rows: map<Account, StreamSnapshot>, issued: set<(Account, StreamSnapshot)>) {
    forall a :: a in rows && rows[a].stateVersion == CURRENT_STATE_VERSION ==> (a, rows[a]) in issued
  }

  /** Every snapshot ever issued is trusted, and no id is free again once drawn. */
  ghost predicate Claims(log: seq<Row>, used: set<Id>, issued: set<(Account, StreamSnapshot)>) {
    && (forall i :: 0 <= i < |log| ==> log[i].eventId in used)
    && (forall a, s :: (a, s) in issued ==> s.anchorId in used && Trusted(log, a, s))
  }

  ghost predicate Tracked(log: seq<Row>, states: map<Account, AccountState>) {
    forall a :: a in states ==> FoldStream(log, a) == Ok(states[a])
  }

  lemma MoreUsed(log: seq<Row>, used: set<Id>, issued: set<(Account, StreamSnapshot)>, id: Id)
    requires Claims(log, used, issued)
    ensures Claims(log, used + {id}, issued)
  {}

  lemma MoreIssued(rows: map<Account, StreamSnapshot>, issued: set<(Account, StreamSnapshot)>, x: (Account, StreamSnapshot))
    requires RowsIssued(rows, issued)
    ensures RowsIssued(rows, issued + {x})
  {}

  lemma UpsertIssued(rows: map<Account, StreamSnapshot>, issued: set<(Account, StreamSnapshot)>, a: Account, s: StreamSnapshot)
    requires RowsIssued(rows, issued)
    ensures RowsIssued(rows[a := s], issued + {(a, s)})
  {}

  /** The snapshot rows after an upsert that only ever moves forward. */
  function Upserted(rows: map<Account, StreamSnapshot>, a: Account, s: StreamSnapshot): map<Account, StreamSnapshot> {
    if a !in rows || rows[a].seqNo < s.seqNo then rows[a := s] else rows
  }

  /** What one appended row does to the claims and to the tracked states. */
  lemma Appends(log: seq<Row>, used: set<Id>, issued: set<(Account, StreamSnapshot)>, states: map<Account, AccountState>,
                row: Row, taken: StreamSnapshot)
    requires Contiguous(log) && Claims(log, used, issued) && Tracked(log, states) && row.eventId !in used
    requires row.event.account in states && Apply(states[row.event.account], row.event) == Ok(taken.state)
    requires row.seqNo == |Stream(log, row.event.account)| + 1 == taken.seqNo && taken.anchorId == row.eventId
    ensures Contiguous(log + [row])
    ensures Claims(log + [row], used + {row.eventId}, issued)
    ensures Claims(log + [row], used + {row.eventId}, issued + {(row.event.account, taken)})
    ensures Tracked(log + [row], states[row.event.account := taken.state])
  {
    hide Contiguous, FoldStream, Stream, Trusted, Apply;
    var log' := log + [row];
    ContiguousPlus(log, row);
    TrustedWhenTaken(log, row, states[row.event.account], taken);
    forall a, s | (a, s) in issued ensures Trusted(log', a, s) { TrustedAfterAppend(log, row, a, s); }
    forall a | a != row.event.account ensures FoldStream(log', a) == FoldStream(log, a) { FoldElsewhere(log, row, a); }
  }

  lemma Cuts(log: seq<Row>, used: set<Id>, issued: set<(Account, StreamSnapshot)>, k: nat)
    requires k <= |log| && Contiguous(log) && Claims(log, used, issued)
    ensures Contiguous(log[..k]) && Claims(log[..k], used, issued)
  {
    hide Contiguous, Trusted;
    ContiguousCut(log, k);
    forall a, s | (a, s) in issued ensures Trusted(log[..k], a, s) { TrustedAfterCut(log, k, a, s); }
  }

  /** A log with snapshot rows. `issued` are all snapshots this build ever wrote, kept or not,
      and `used` all event ids ever drawn. */
  class Store {
    var log: seq<Row>
    var snapshots: map<Account, StreamSnapshot>
    var savedLog: seq<Row>
    var savedSnapshots: map<Account, StreamSnapshot>
    var tracker: SnapshotTracker
    ghost var issued: set<(Account, StreamSnapshot)>
    ghost var used: set<Id>

    ghost predicate Valid()
      reads this, tracker
    {
      && tracker.Valid()
      && Contiguous(log)
      && savedLog <= log
      && RowsIssued(snapshots, issued) && RowsIssued(savedSnapshots, issued)
      && Claims(log, used, issued)
      && Tracked(log, tracker.states)
    }

    constructor (every: int)
      ensures Valid() && fresh(tracker) && log == []
    {
      log, snapshots, savedLog, savedSnapshots := [], map[], [], map[];
      issued, used := {}, {};
      tracker := new SnapshotTracker(every);
    }

    /** Every snapshot ever written, wherever a reader picked it up, folds to the full fold. */
    lemma AnyIssuedSnapshot(a: Account, s: StreamSnapshot)
      requires Valid() && (a, s) in issued
      ensures CachedFold(log, a, Some(s)) == FoldStream(log, a)
    {
      CachedFoldIsFold(log, a, Some(s));
    }

    /** Fold from the snapshot if it may be trusted; the result is always the full fold. */
    method FoldAccount(a: Account) returns (r: Result<AccountState>)
      requires Valid()
      modifies tracker
      ensures Valid()
      ensures r == FoldStream(log, a)
      ensures r.Ok? ==> tracker.states == old(tracker.states)[a := r.value]
      ensures r.Err? ==> tracker.states == old(tracker.states) && tracker.snapshotSeq == old(tracker.snapshotSeq)
      ensures r.Ok? ==> tracker.snapshotSeq == old(tracker.snapshotSeq)[a :=
                          if a in snapshots && Usable(snapshots[a], RowsOn(log, a)) then snapshots[a].seqNo else 0]
    {
      ghost var snapshot := if a in snapshots then Some(snapshots[a]) else None;
      CachedFoldIsFold(log, a, snapshot);
      if a in snapshots {
        UsableExactly(log, a, snapshots[a]);
        var rows := RowsFrom(log, a, snapshots[a].seqNo);
        if SnapshotRejection(snapshots[a], rows).None? {
          r := FoldEvents(EventsOf(rows[1..]), snapshots[a].state);
          if r.Ok? { tracker.Folded(a, r.value, snapshots[a].seqNo); }
          return;
        }
      }
      r := FoldEvents(Stream(log, a), EMPTY);
      if r.Ok? { tracker.Folded(a, r.value, 0); }
    }

    /** A lagging writer never moves a snapshot backwards. */
    method Upsert(a: Account, s: StreamSnapshot)
      modifies this`snapshots
      ensures snapshots == Upserted(old(snapshots), a, s)
    {
      if a !in snapshots || snapshots[a].seqNo < s.seqNo {
        snapshots := snapshots[a := s];
      }
    }

    /** Append the next event of a folded stream under a fresh id. */
    method AppendEvent(eventId: Id, e: Event) returns (r: Result<()>)
      requires Valid() && eventId !in used && e.account in tracker.states
      modifies this, tracker
      ensures Valid() && tracker == old(tracker) && e.account in tracker.states && used == old(used) + {eventId}
      ensures savedLog == old(savedLog) && savedSnapshots == old(savedSnapshots)
      ensures r.Ok? <==> Apply(old(tracker.states[e.account]), e).Ok?
      ensures log == if r.Ok? then old(log) + [Row(eventId, |Stream(old(log), e.account)| + 1, e)] else old(log)
      ensures var version := |Stream(old(log), e.account)| + 1;
              snapshots == if r.Ok? && tracker.every > 0 && version - old(tracker.snapshotSeq[e.account]) >= tracker.every
                           then Upserted(old(snapshots), e.account,
                                         StreamSnapshot(version, tracker.states[e.account], CURRENT_STATE_VERSION, eventId))
                           else old(snapshots)
    {
      hide Contiguous, FoldStream, Stream, Claims, Tracked, RowsIssued, Apply;
      var version := |Stream(log, e.account)| + 1;
      var row := Row(eventId, version, e);
      ghost var states := tracker.states;
      var due := tracker.AfterAppend(eventId, version, e);
      if due.Err? {
        MoreUsed(log, used, issued, eventId);
        used := used + {eventId};
        return Err(due.fault);
      }
      ghost var taken := StreamSnapshot(version, tracker.states[e.account], CURRENT_STATE_VERSION, eventId);
      Appends(log, used, issued, states, row, taken);
      MoreIssued(snapshots, issued, (e.account, taken));
      MoreIssued(savedSnapshots, issued, (e.account, taken));
      used := used + {eventId};
      log := log + [row];
      if due.value.Some? {
        UpsertIssued(snapshots, issued, e.account, taken);
        issued := issued + {(e.account, due.value.value)};
        Upsert(e.account, due.value.value);
      }
      r := Ok(());
    }

    /** Start a transaction: a fresh tracker and a point to roll back to. */
    method Begin(every: int)
      requires Valid()
      modifies this
      ensures Valid() && fresh(tracker) && log == savedLog == old(log) && snapshots == savedSnapshots == old(snapshots)
    {
      savedLog, savedSnapshots := log, snapshots;
      tracker := new SnapshotTracker(every);
    }

    /** Undo everything since the transaction began; the ids stay used. */
    method Rollback()
      requires Valid()
      modifies this
      ensures Valid() && fresh(tracker) && log == old(savedLog) && snapshots == old(savedSnapshots)
    {
      hide Claims, Contiguous;
      Cuts(log, used, issued, |savedLog|);
      assert log[..|savedLog|] == savedLog;
      log, snapshots := savedLog, savedSnapshots;
      tracker := new SnapshotTracker(tracker.every);
    }

    /** The log is restored from an older copy while all snapshot rows stay. */
    method CutBack(k: nat)
      requires Valid() && k <= |log|
      modifies this
      ensures Valid() && fresh(tracker) && log == old(log)[..k] && snapshots == old(snapshots)
    {
      hide Claims, Contiguous;
      Cuts(log, used, issued, k);
      log := log[..k];
      savedLog := log;
      tracker := new SnapshotTracker(tracker.every);
    }

    /** Snapshot rows may be dropped at any time. */
    method Drop(a: Account)
      requires Valid()
      modifies this`snapshots
      ensures Valid() && snapshots == old(snapshots) - {a}
    {
      snapshots := snapshots - {a};
    }

    /** Another build, with another state shape, may have written the row. */
    method OtherBuildWrites(a: Account, s: StreamSnapshot)
      requires Valid() && s.stateVersion != CURRENT_STATE_VERSION
      modifies this`snapshots
      ensures Valid() && snapshots == old(snapshots)[a := s]
    {
      snapshots := snapshots[a := s];
    }
  }

  lemma FoldElsewhere(log: seq<Row>, row: Row, a: Account)
    requires a != row.event.account
    ensures FoldStream(log + [row], a) == FoldStream(log, a)
  {
    EventsConcat(log, [row]);
    var es := EventsOf(log + [row]);
    assert es[..|log|] == EventsOf(log);
  }

  lemma {:induction false} ContiguousCut(log: seq<Row>, k: nat)
    requires k <= |log| && Contiguous(log)
    ensures Contiguous(log[..k])
    decreases |log|
  {
    if k == |log| {
      assert log[..k] == log;
    } else {
      assert log[..|log| - 1][..k] == log[..k];
      ContiguousCut(log[..|log| - 1], k);
    }
  }
}
