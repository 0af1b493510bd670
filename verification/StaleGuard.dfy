/** Exactly when the "open hold exceeds held funds" guard fires in an interleaving: the hold
    that was read did not exist yet when the anchor was folded, and reserves more than was held
    then. */
module StaleGuard {
  import opened Events
  import opened Accounts
  import opened Views
  import opened Commands
  import opened Execution
  import opened Soundness
  import opened Runs
  import opened LedgerTheorems
  import opened Optimistic
  import opened Interleaving
  import opened Serializability
  import opened StaleRefusals
  import opened Races
  import L = Ledger

  // ---------------------------------------------------- one stream and its past

  /** An open hold comes from a placement in the stream. */
  lemma {:induction false} OpenFrom(h: Id, s: seq<Event>)
    ensures StatusOf(h, s).Open? ==>
              exists i :: 0 <= i < |s| && s[i].HoldPlaced? && s[i].holdId == h &&
                          StatusOf(h, s).hold == OpenHold(h, s[i].amount, s[i].counterparty, s[i].expiresAt)
  {
    if s != [] {
      var n := |s| - 1;
      OpenFrom(h, s[..n]);
      if StatusOf(h, s).Open? && StatusOf(h, s) == StatusOf(h, s[..n]) {
        var i :| 0 <= i < n && s[..n][i].HoldPlaced? && s[..n][i].holdId == h &&
                 StatusOf(h, s[..n]).hold == OpenHold(h, s[..n][i].amount, s[..n][i].counterparty, s[..n][i].expiresAt);
        assert s[i] == s[..n][i];
      }
    }
  }

  /** What is held at a command boundary covers each open hold. */
  lemma OpenWithin(s: seq<Event>, h: Id)
    requires L.HeldIsOpen(s) && AllValid(s) && StatusOf(h, s).Open?
    ensures StatusOf(h, s).hold.amount <= HeldSum(s)
  {
    hide StatusOf, HeldSum, L.OpenSum;
    var n0 := HoldBound(s);
    var n := if h < n0 then n0 else h + 1;
    assert L.HoldIdsBelow(s, n);
    forall k | 0 <= k < n ensures L.OpenAmount(k, s) >= 0 { OpenFrom(k, s); }
    OpenSumCovers(s, n, h);
  }

  /** A hold that is open now was, at any earlier length of the stream, unseen or already open
      with the same terms. */
  lemma EarlierStatus(es: seq<Event>, ids: set<Id>, a: Account, h: Id, v: nat)
    requires L.Inv(es, ids) && OpenHoldOf(h, OnAccount(es, a)).Some? && v <= |OnAccount(es, a)|
    ensures var before := StatusOf(h, OnAccount(es, a)[..v]);
            before.Unseen? || before == Open(OpenHoldOf(h, OnAccount(es, a)).value)
  {
    var s := OnAccount(es, a);
    var hold := OpenHoldOf(h, s).value;
    assert OnSet(es, h) == [L.PlacedAs(a, hold)];
    InOnSet(es, h);
    InOnAccount(es, a);
    StatusId(h, s);
    hide StatusOf, OnAccount, OnSet, L.Inv;
    var past := s[..v];
    if StatusOf(h, past).Closed? {
      ClosedForGood(h, s, v);
      StatusOpen(h, s);
      assert false;
    }
    if StatusOf(h, past).Open? {
      OpenFrom(h, past);
      var i :| 0 <= i < |past| && past[i].HoldPlaced? && past[i].holdId == h &&
               StatusOf(h, past).hold == OpenHold(h, past[i].amount, past[i].counterparty, past[i].expiresAt);
      assert s[i] == past[i] && s[i] in es;
      assert past[i] in OnSet(es, h);
    }
  }

  lemma StatusOpen(h: Id, s: seq<Event>)
    requires OpenHoldOf(h, s).Some?
    ensures StatusOf(h, s).Open?
  {}

  // ----------------------------------------------------------- the invariant

  function Past(log: seq<Row>, a: Account, s: AccountState): seq<Event> {
    var st := Stream(log, a);
    if 0 <= s.version <= |st| then st[..s.version] else st
  }

  ghost predicate BoundaryInv(log: seq<Row>, t: Txn) {
    var c := t.request.command;
    match t.phase
    case ReadTarget(s) => L.HeldIsOpen(Past(log, c.account, s))
    case FoldNext(r, _) =>
      c.account in r.states ==>
        && L.HeldIsOpen(Past(log, c.account, r.states[c.account]))
        && (HoldIdOf(c).Some? && r.hold.Some? ==>
              var before := StatusOf(HoldIdOf(c).value, Past(log, c.account, r.states[c.account]));
              before.Unseen? || before == Open(r.hold.value))
    case _ => true
  }

  ghost predicate Boundaries(sys: Sys) {
    forall i :: 0 <= i < |sys.txns| ==> BoundaryInv(sys.db.log, sys.txns[i])
  }

  lemma PastNow(db: Db, a: Account, s: AccountState)
    requires DbInv(db) && FoldStream(db.log, a) == Ok(s)
    ensures L.HeldIsOpen(Past(db.log, a, s))
  {
    var now := StateOf(EventsOf(db.log), db.results.Keys, a);
    assert Stream(db.log, a)[..|Stream(db.log, a)|] == Stream(db.log, a);
    assert L.HeldIsOpen(Stream(db.log, a));
    hide *;
  }

  lemma HoldJustRead(db: Db, c: Command, s: AccountState)
    requires DbInv(db) && HoldIdOf(c).Some? && HoldRead(db.log, c).Some? && FoldedEarlier(db.log, c.account, s)
    ensures var before := StatusOf(HoldIdOf(c).value, Past(db.log, c.account, s));
            before.Unseen? || before == Open(HoldRead(db.log, c).value)
  {
    hide L.Inv, Contiguous, StatusOf, OnAccount, Fold;
    EarlierStatus(EventsOf(db.log), db.results.Keys, c.account, c.holdId, s.version);
  }

  lemma ReadBoundary(db: Db, t: Txn, now: int, first: Id)
    requires DbInv(db) && Shape(t) && TxnInv(db.log, t) && BoundaryInv(db.log, t)
    requires t.phase.Begin? || t.phase.FoldAnchor? || t.phase.ReadTarget? || t.phase.FoldNext?
    ensures BoundaryInv(db.log, Read(db, t, now, first))
  {
    hide DbInv, Decide, FoldStream, OriginalRead, RevertedByRead, HoldRead, Sufficient, StatesInv, HoldStill,
      OriginalStill, ValidCommand, Past, L.HeldIsOpen, StatusOf, FoldedEarlier;
    var c := t.request.command;
    match t.phase
    case FoldAnchor(_) =>
      FoldsNow(db, c.account);
      PastNow(db, c.account, FoldStream(db.log, c.account).value);
    case ReadTarget(s) => if HoldIdOf(c).Some? && HoldRead(db.log, c).Some? { HoldJustRead(db, c, s); }
    case FoldNext(r, k) =>
      if k < |NamedOf(t)| && NamedOf(t)[k] !in r.states {
        FoldsNow(db, NamedOf(t)[k]);
      } else if k == |NamedOf(t)| {
        var all := r.(revertedBy := RevertedByRead(db.log, c));
        AllFolded(t, all);
        ConcludeEnds(t, all, r.states[c.account].version, Decide(c, t.request.id, t.request.now, all));
      }
    case _ =>
  }

  lemma ConcludeEnds(t: Txn, r: Reads, version: int, decision: Result<seq<Numbered>>)
    ensures var u := Conclude(t, r, version, decision); !u.phase.ReadTarget? && !u.phase.FoldNext?
  {
    hide Stamp, AcceptedResult;
  }

  lemma PastStays(log: seq<Row>, rows: seq<Row>, a: Account, s: AccountState)
    requires FoldedEarlier(log, a, s)
    ensures Past(log + rows, a, s) == Past(log, a, s)
  {
    hide Stream, Fold;
    StreamAfter(log, rows, a);
    assert Stream(log + rows, a)[..s.version] == Stream(log, a)[..s.version];
  }

  lemma BoundaryStays(log: seq<Row>, rows: seq<Row>, t: Txn)
    requires TxnInv(log, t) && BoundaryInv(log, t)
    ensures BoundaryInv(log + rows, t)
  {
    hide Past, L.HeldIsOpen, StatusOf, FoldedEarlier, HoldStill, OriginalStill, ValidCommand, WritingInv;
    var a := t.request.command.account;
    match t.phase
    case ReadTarget(s) => PastStays(log, rows, a, s);
    case FoldNext(r, _) => PastStays(log, rows, a, r.states[a]);
    case _ =>
  }

  /** One action, seen from one transaction. */
  lemma DoBoundary(sys: Sys, act: Action, i: nat)
    requires SysInv(sys) && Boundaries(sys) && i < |Do(sys, act).txns|
    ensures BoundaryInv(Do(sys, act).db.log, Do(sys, act).txns[i])
  {
    hide DbInv, KeysInv, TxnInv, BoundaryInv, Read, Committed, Shape, ValidCommand, WaitsFor, NextKey;
    var sys' := Do(sys, act);
    if act.Step? && act.i == i && i < |sys.txns| && !Finished(sys.txns[i]) && !sys.txns[i].phase.Writing? {
      ReadBoundary(sys.db, sys.txns[i], act.now, act.firstEventId);
    } else if i < |sys.txns| && sys'.txns[i] == sys.txns[i] {
      assert TxnInv(sys.db.log, sys.txns[i]);
      if act.Step? && Committing(sys, act.i) {
        BoundaryStays(sys.db.log, sys.txns[act.i].phase.rows, sys.txns[i]);
      }
    } else {
      NoBoundary(sys'.db.log, sys'.txns[i]);
    }
  }

  lemma NoBoundary(log: seq<Row>, t: Txn)
    requires !t.phase.ReadTarget? && !t.phase.FoldNext?
    ensures BoundaryInv(log, t)
  {}

  lemma {:induction false} BoundariesKept(acts: seq<Action>)
    ensures Boundaries(Concurrent(acts))
  {
    if acts != [] {
      hide Do, SysInv, BoundaryInv;
      var n := |acts| - 1;
      BoundariesKept(acts[..n]);
      ConcurrentKeeps(acts[..n]);
      forall i | 0 <= i < |Concurrent(acts).txns| ensures BoundaryInv(Concurrent(acts).db.log, Concurrent(acts).txns[i]) {
        DoBoundary(Concurrent(acts[..n]), acts[n], i);
      }
    }
  }

  // ------------------------------------------------------------- the theorem

  /** The hold that was read would be settled, voided or expired if it were covered. */
  ghost predicate Live(c: Command, now: int, r: Reads)
    requires Sufficient(c, r) && HoldIdOf(c).Some? && r.hold.Some?
  {
    NamedCovers(c, r);
    && HasNextVersion(r.states[c.account])
    && (c.ExpireHold? ==> r.hold.value.ExpiredAt(now))
    && (c.PostHold? ==>
          && !r.hold.value.ExpiredAt(now) && (c.capture.Some? ==> c.capture.value <= r.hold.value.amount)
          && HasNextVersion(r.states[r.hold.value.counterparty]))
  }

  /** In every interleaving the guard fires exactly when a live hold was read that had not been
      placed yet when the anchor was folded and that exceeds what was held then. */
  lemma GuardFiresExactly(acts: seq<Action>, i: nat)
    requires Deciding(Concurrent(acts), i)
    ensures var sys := Concurrent(acts);
            var c, r := sys.txns[i].request.command, LastReads(sys, i);
            && Sufficient(c, r)
            && (Refuses(sys, i, InvalidAccountState) <==>
                  && HoldIdOf(c).Some? && r.hold.Some? && Live(c, sys.txns[i].request.now, r)
                  && StatusOf(c.holdId, Past(sys.db.log, c.account, r.states[c.account])).Unseen?
                  && r.hold.value.amount > r.states[c.account].held)
  {
    hide Concurrent, L.Inv, Contiguous, KeysInv, DecideEvents, Named, HoldStill, OriginalStill, RevertedByRead, Fold,
      StatusOf, OnAccount, L.HeldIsOpen, ValidCommand;
    ConcurrentKeeps(acts);
    BoundariesKept(acts);
    var sys := Concurrent(acts);
    var t := sys.txns[i];
    var c, r := t.request.command, LastReads(sys, i);
    assert Shape(t) && TxnInv(sys.db.log, t) && BoundaryInv(sys.db.log, t);
    AllFolded(t, r);
    GuardCondition(c, t.request.id, t.request.now, r);
    NamedCovers(c, r);
    if HoldIdOf(c).Some? && r.hold.Some? {
      EarlierState(sys.db, c.account, r.states[c.account]);
      if c.PostHold? { EarlierState(sys.db, r.hold.value.counterparty, r.states[r.hold.value.counterparty]); }
      PastHeld(sys.db, c.account, r.states[c.account], c.holdId);
    }
  }

  lemma PastHeld(db: Db, a: Account, s: AccountState, h: Id)
    requires DbInv(db) && FoldedEarlier(db.log, a, s) && L.HeldIsOpen(Past(db.log, a, s))
    ensures StatusOf(h, Past(db.log, a, s)).Open? ==> StatusOf(h, Past(db.log, a, s)).hold.amount <= s.held
  {
    var es := EventsOf(db.log);
    InOnAccount(es, a);
    var st, past := Stream(db.log, a), Past(db.log, a, s);
    forall k | 0 <= k < |past| ensures ValidEvent(past[k]) && past[k].account == a { assert past[k] == st[k] && st[k] in es; }
    FoldIsSums(past, a);
    if StatusOf(h, past).Open? { OpenWithin(past, h); }
    hide *;
  }
}
