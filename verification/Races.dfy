/** What interleaving does to refusals: one that no serial run can produce, and exactly
    which stale read it takes. */
module Races {
  import opened Events
  import opened Accounts
  import opened Views
  import opened Commands
  import opened Execution
  import opened Numbering
  import opened Soundness
  import opened Runs
  import opened LedgerTheorems
  import opened Optimistic
  import opened Interleaving
  import opened Serializability
  import opened Uncontended
  import L = Ledger
  import B = Batches

  // ----------------------------------------------- the guard needs a stale anchor

  lemma {:induction false} CheckLegsError(states: map<Account, AccountState>, legs: seq<Leg>)
    requires Covers(states, legs)
    ensures CheckLegs(states, legs) != Some(InvalidAccountState)
  {
    if legs != [] { CheckLegsError(states, legs[..|legs| - 1]); }
  }

  lemma {:induction false} MirrorError(states: map<Account, AccountState>, legs: seq<Event>, id: Id, t: Id)
    requires AllMovement(legs) && CoversEvents(states, legs)
    ensures MirrorLegs(states, legs, id, t) != Err(Refused(InvalidAccountState))
  {
    if legs != [] { MirrorError(states, legs[..|legs| - 1], id, t); }
  }

  /** The hold that was read is live for the command and reserves more than the folded anchor
      holds. */
  ghost predicate ReadsTooMuch(c: Command, now: int, r: Reads)
    requires Sufficient(c, r)
  {
    NamedCovers(c, r);
    var s := r.states[c.account];
    && HoldIdOf(c).Some? && r.hold.Some? && Matches(s, c.account) && HasNextVersion(s)
    && (c.ExpireHold? ==> r.hold.value.ExpiredAt(now))
    && (c.PostHold? ==>
          var target := r.states[r.hold.value.counterparty];
          && !r.hold.value.ExpiredAt(now) && (c.capture.Some? ==> c.capture.value <= r.hold.value.amount)
          && Matches(target, r.hold.value.counterparty) && HasNextVersion(target))
    && (r.hold.value.amount > s.held || (c.PostHold? && r.hold.value.amount > s.balance))
  }

  /** A command is refused with `invalid_account_state` exactly when it is on a hold, would
      otherwise be live, and read a hold larger than what it folded as held. */
  lemma GuardCondition(c: Command, id: Id, now: int, r: Reads)
    requires Sufficient(c, r)
    ensures DecideEvents(c, id, now, r) == Err(Refused(InvalidAccountState)) <==> ReadsTooMuch(c, now, r)
  {
    hide MirrorLegs, CheckLegs, PostingEvents, LegsOf, MovementLegs;
    NamedCovers(c, r);
    if c.Transfer? || c.Post? {
      CheckLegsError(r.states, LegsOf(c));
      PostingFaults(LegsOf(c), c.account, id, |LegsOf(c)|);
    } else if c.Revert? {
      MovementCovered(r.states, r.original);
      MirrorError(r.states, MovementLegs(r.original), id, c.transferId);
    }
  }

  /** In every interleaving the "open hold exceeds held funds" refusal means that the anchor's
      stream grew between its fold and the decision. */
  lemma GuardNeedsStaleAnchor(sys: Sys, i: nat, r: Reads)
    requires SysInv(sys) && i < |sys.txns| && sys.txns[i].phase.FoldNext? && sys.txns[i].phase.k == |NamedOf(sys.txns[i])|
    requires r == sys.txns[i].phase.seen.(revertedBy := RevertedByRead(sys.db.log, sys.txns[i].request.command))
    requires Sufficient(sys.txns[i].request.command, r)
    requires DecideEvents(sys.txns[i].request.command, sys.txns[i].request.id, sys.txns[i].request.now, r)
             == Err(Refused(InvalidAccountState))
    ensures r.states[sys.txns[i].request.command.account].version < |Stream(sys.db.log, sys.txns[i].request.command.account)|
  {
    hide DecideEvents, L.Inv, Contiguous, KeysInv, Named, OriginalStill, RevertedByRead, Fold, OnAccount, EventsOf;
    var t := sys.txns[i];
    var c := t.request.command;
    assert TxnInv(sys.db.log, t);
    GuardCondition(c, t.request.id, t.request.now, r);
    NamedCovers(c, r);
    var s := r.states[c.account];
    assert FoldedEarlier(sys.db.log, c.account, s);
    if s.version == |Stream(sys.db.log, c.account)| {
      assert Stream(sys.db.log, c.account)[..s.version] == Stream(sys.db.log, c.account);
      FoldCoversOpenHold(EventsOf(sys.db.log), sys.db.results.Keys, c.account, c.holdId, s);
      assert false;
    }
  }

  /** No serial run ever stores a result that calls the log inconsistent. */
  lemma {:induction false} NoSerialRunStores(qs: seq<Request>, id: Id)
    requires ValidRun(qs) && id in Run(qs).results
    ensures Run(qs).results[id].outcome != Rejected(InvalidAccountState)
  {
    if qs != [] {
      var n := |qs| - 1;
      var db := Run(qs[..n]);
      StoresOnlyTheAnswer(db, qs[n], id);
      hide Execute;
      if id in db.results {
        NoSerialRunStores(qs[..n], id);
      } else if Execute(db, qs[n]).1.stored.outcome.Rejected? {
        SerialGuardsNeverFire(qs[..n], qs[n]);
      }
    }
  }

  lemma StoresOnlyTheAnswer(db: Db, q: Request, id: Id)
    ensures id in Execute(db, q).0.results && id !in db.results ==>
              Execute(db, q).1.Decided? && Execute(db, q).0.results[id] == Execute(db, q).1.stored
    ensures id in db.results ==> id in Execute(db, q).0.results && Execute(db, q).0.results[id] == db.results[id]
  {
    hide DecideOn, FoldStream, Stamp, AcceptedResult;
  }

  // ------------------------------------------------------------ the race itself

  const DEPOSIT := Request(1, Deposit(0, 10, 0), 0, 0, 100)
  const HOLD := Request(2, Hold(0, 1, 5, 1, 60), 0, 0, 200)
  const VOID := Request(3, VoidHold(0, 2, 1), 0, 0, 300)

  const DEPOSITED := Deposited(0, 10)
  const PLACED := HoldPlaced(0, 5, 2, 1, 60)

  /** The one-event decision of a command that names no other account. */
  lemma SingleLeg(states: map<Account, AccountState>, e: Event)
    requires e.account in states
    ensures NumberLegs(states, [e]) == [Numbered(e, states[e.account].version + 1)]
  {
    hide OnAccount, InsertLeg;
    var b := [e];
    assert b[..1] == b;
    B.OnAccountSingle(e, e.account);
    var x := LastNumbered(states, b, 1);
    assert InsertLeg([], x) == [x] by { InsertFirst(x); }
  }

  lemma InsertFirst(x: Numbered)
    ensures InsertLeg([], x) == [x]
  {}

  /** Serial execution of an accepted command with one event. */
  lemma ExecutesOne(db: Db, q: Request, s: AccountState, e: Event)
    requires q.id !in db.results && FoldStream(db.log, q.command.account) == Ok(s)
    requires q.command.Deposit? || q.command.Hold?
    requires s.version == q.command.expectedVersion && s.version < MAX_BIGINT
    requires if q.command.Deposit? then DecideCash(s, q.command.account, q.command.amount, true) == Ok(e)
             else DecideHold(s, q.command.account, q.command.target, q.command.amount, q.command.ttlSeconds, q.id, q.now) == Ok(e)
    ensures Execute(db, q).0.log == db.log + [Row(q.firstEventId, s.version + 1, e)]
    ensures Execute(db, q).0.results.Keys == db.results.Keys + {q.id}
  {
    hide FoldStream, DecideCash, DecideHold, NumberLegs, HoldRead, OriginalRead, RevertedByRead;
    var c := q.command;
    var states := map[c.account := s];
    assert FoldOthers(db.log, states, []) == Ok(states);
    SingleEventAccount(q, s, e);
    SingleLeg(states, e);
    var legs := [Numbered(e, s.version + 1)];
    var rows := [Row(q.firstEventId, s.version + 1, e)];
    assert Stamp(legs, q.firstEventId) == rows;
  }

  lemma SingleEventAccount(q: Request, s: AccountState, e: Event)
    requires q.command.Deposit? || q.command.Hold?
    requires if q.command.Deposit? then DecideCash(s, q.command.account, q.command.amount, true) == Ok(e)
             else DecideHold(s, q.command.account, q.command.target, q.command.amount, q.command.ttlSeconds, q.id, q.now) == Ok(e)
    ensures e.account == q.command.account
  {}

  lemma DepositFolds(log: seq<Row>)
    requires EventsOf(log) == [DEPOSITED]
    ensures FoldStream(log, 0) == Ok(ANCHOR)
  {
    hide OnAccount, Fold, EventsOf;
    OneDeposit(DEPOSITED);
  }

  lemma OneDeposit(e: Event)
    requires e.Deposited? && e.account == 0 && e.amount == 10
    ensures Fold(OnAccount([e], 0)) == Ok(ANCHOR)
  {
    var b := OnAccount([e], 0);
    assert b == [e] by { B.OnAccountSingle(e, 0); }
    assert Fold([e]) == Ok(ANCHOR) by {
      hide Fold, OnAccount;
      FoldsAlone(e);
      DepositApplies(e);
    }
    hide *;
  }

  lemma DepositApplies(e: Event)
    requires e.Deposited? && e.account == 0 && e.amount == 10
    ensures Apply(EMPTY, e) == Ok(ANCHOR)
  {
    var s := EMPTY;
    assert s.version == 0 && s.held == 0 && s.balance == 0 && s.accountId.None?;
    assert BalanceDelta(e) == 10 && HeldDelta(e) == 0;
    hide BalanceDelta, HeldDelta;
    assert Matches(s, 0);
    assert CreditFits(s, e.amount);
    hide CreditFits, Matches;
  }

  lemma FoldsAlone(e: Event)
    ensures Fold([e]) == Apply(EMPTY, e)
  {
    FoldsOnto(EMPTY, e);
  }

  lemma FoldsOnto(s: AccountState, e: Event)
    ensures FoldFrom(s, [e]) == Apply(s, e)
  {
    var b := [e];
    assert FoldFrom(s, b[..0]) == Ok(s);
  }

  lemma HoldIsOpen(log: seq<Row>, row: Row)
    requires EventsOf(log) == [DEPOSITED] && row.event == PLACED
    ensures OpenHoldOf(2, Stream(log + [row], 0)) == Some(OpenHold(2, 5, 1, 60))
  {
    hide OnAccount;
    EventsConcat(log, [row]);
    assert EventsOf([row]) == [PLACED];
    B.OnAccountSingle(DEPOSITED, 0);
    B.StreamPlus([DEPOSITED], PLACED, 0);
    B.StatusAfter(2, [DEPOSITED], PLACED);
    assert StatusOf(2, [DEPOSITED]) == Unseen by {
      assert [DEPOSITED][..0] == [];
      assert StatusOf(2, []) == Unseen;
    }
  }

  lemma StepAt(acts: seq<Action>, i: nat) returns (acts': seq<Action>)
    requires i < |Concurrent(acts).txns|
    requires var p := Concurrent(acts).txns[i].phase; p.Begin? || p.FoldAnchor? || p.ReadTarget? || p.FoldNext?
    ensures var sys := Concurrent(acts);
            Shape(sys.txns[i]) && Concurrent(acts') == Sys(sys.db, sys.txns[i := Read(sys.db, sys.txns[i], 0, 300)])
  {
    hide Read, Shape, Concurrent;
    Extend(acts, Step(i, 0, 300));
    acts' := acts + [Step(i, 0, 300)];
  }

  /** Storing a refusal while nobody else writes. */
  lemma RefuseAt(acts: seq<Action>, i: nat) returns (acts': seq<Action>)
    requires i < |Concurrent(acts).txns| && Concurrent(acts).txns[i].phase.Writing?
    requires Concurrent(acts).txns[i].phase.rows == [] && Concurrent(acts).txns[i].phase.taken == 0
    requires Concurrent(acts).txns[i].request.id !in Concurrent(acts).db.results
    requires forall j :: 0 <= j < |Concurrent(acts).txns| && j != i ==> !Concurrent(acts).txns[j].phase.Writing?
    ensures var t := Concurrent(acts).txns[i];
            Concurrent(acts').db.results == Concurrent(acts).db.results[t.request.id := t.phase.stored]
  {
    hide Read, Shape, Concurrent;
    var sys := Concurrent(acts);
    Extend(acts, Step(i, 0, 0));
    var mid := acts + [Step(i, 0, 0)];
    assert Concurrent(mid).txns[i].phase.taken == 1;
    Extend(mid, Step(i, 0, 0));
    acts' := mid + [Step(i, 0, 0)];
  }

  const ANCHOR := AccountState(Some(0), 10, 1, 0)
  const STALE := Reads(map[0 := ANCHOR], Some(OpenHold(2, 5, 1, 60)), [], None)

  /** The four reads of the release, each on the log of its own moment. */
  lemma VoidReads(db: Db)
    requires 3 !in db.results
    ensures Read(db, Txn(VOID, 1, Begin), 0, 300) == Txn(VOID, 1, FoldAnchor(false))
    ensures FoldStream(db.log, 0) == Ok(ANCHOR) ==>
              Read(db, Txn(VOID, 1, FoldAnchor(false)), 0, 300) == Txn(VOID, 1, ReadTarget(ANCHOR))
    ensures OpenHoldOf(2, Stream(db.log, 0)) == Some(OpenHold(2, 5, 1, 60)) ==>
              Read(db, Txn(VOID, 1, ReadTarget(ANCHOR)), 0, 300) == Txn(VOID, 1, FoldNext(STALE, 0))
  {
    hide FoldStream, Decide, OpenHoldOf, Stream;
  }

  lemma VoidRefused(db: Db)
    ensures Read(db, Txn(VOID, 1, FoldNext(STALE, 0)), 0, 300)
            == Txn(VOID, 1, Writing(STALE, [], Refusal(VOID, 1, Rejected(InvalidAccountState)), 0))
  {
    hide FoldStream, NumberLegs, Stamp;
    assert DecideReleaseHold(ANCHOR, STALE.hold, 0, 2, false, 0) == Err(Refused(InvalidAccountState));
    assert DecideEvents(VOID.command, 3, 0, STALE) == Err(Refused(InvalidAccountState));
  }

  /** The deposit is committed. */
  lemma Opened() returns (acts: seq<Action>, t: Txn)
    ensures At(acts, Execute(EMPTY_DB, DEPOSIT).0, [], t) && t.phase.Answered?
    ensures var db := Execute(EMPTY_DB, DEPOSIT).0;
            DbInv(db) && EventsOf(db.log) == [DEPOSITED] && db.results.Keys == {1}
  {
    hide Execute, DbInv, Concurrent, FoldStream, EventsOf;
    EmptyInv();
    NothingYet();
    acts, t := RunAlone([], DEPOSIT);
    EmptyFolds();
    ExecutesOne(EMPTY_DB, DEPOSIT, EMPTY, DEPOSITED);
    ExecuteKeeps(EMPTY_DB, DEPOSIT);
    assert [] + [Row(100, 1, DEPOSITED)] == [Row(100, 1, DEPOSITED)];
    OneRow(Row(100, 1, DEPOSITED));
  }

  lemma NothingYet()
    ensures Concurrent([]) == Sys(EMPTY_DB, [])
  {}

  lemma OneRow(row: Row)
    ensures EventsOf([row]) == [row.event]
  {}

  /** The deposit is committed and the release has folded its anchor at version 1. */
  lemma VoidFolded() returns (acts: seq<Action>, txns: seq<Txn>, log: seq<Row>)
    ensures DbInv(Concurrent(acts).db) && Idle(Concurrent(acts).txns)
    ensures EventsOf(log) == [DEPOSITED] && Concurrent(acts).db.log == log
    ensures Concurrent(acts).db.results.Keys == {1}
    ensures Concurrent(acts).txns == txns + [Txn(VOID, 1, ReadTarget(ANCHOR))]
  {
    hide Execute, DbInv, Concurrent, FoldStream, Read;
    var t;
    acts, t := Opened();
    var db := Execute(EMPTY_DB, DEPOSIT).0;
    log := db.log;
    txns := [t];
    assert [] + [t] == txns;
    Extend(acts, Submit(VOID));
    acts := acts + [Submit(VOID)];
    VoidReads(db);
    DepositFolds(log);
    acts := ReadStep(acts, db, txns, Txn(VOID, 1, Begin), 0, 300);
    acts := ReadStep(acts, db, txns, Txn(VOID, 1, FoldAnchor(false)), 0, 300);
  }

  lemma EmptyFolds()
    ensures FoldStream([], 0) == Ok(EMPTY)
  {
    assert EventsOf([]) == [];
  }

  /** A refusal that is not serializable. The release folds its anchor, then the hold it
      names is placed, then the release reads that hold as open and finds less held than it
      reserves. No serial run of any requests stores that answer. */
  lemma RefusalsAreNotSerializable() returns (acts: seq<Action>)
    ensures 3 in Concurrent(acts).db.results
    ensures Concurrent(acts).db.results[3] == Refusal(VOID, 1, Rejected(InvalidAccountState))
    ensures forall qs :: ValidRun(qs) && 3 in Run(qs).results ==> Run(qs).results[3] != Concurrent(acts).db.results[3]
  {
    var txns, log, t;
    acts, txns, log := VoidFolded();
    hide Execute, DbInv, Concurrent, FoldStream, Stream, Read, OpenHoldOf;
    var db := Concurrent(acts).db;
    DepositFolds(log);
    ExecutesOne(db, HOLD, ANCHOR, PLACED);
    acts, t := RunAlone(acts, HOLD);
    HoldIsOpen(log, Row(200, 2, PLACED));
    var db' := Concurrent(acts).db;
    VoidReads(db');
    VoidRefused(db');
    var i := |txns|;
    assert Concurrent(acts).txns[i] == Txn(VOID, 1, ReadTarget(ANCHOR));
    acts := StepAt(acts, i);
    assert Concurrent(acts).txns[i] == Txn(VOID, 1, FoldNext(STALE, 0));
    acts := StepAt(acts, i);
    acts := RefuseAt(acts, i);
    forall qs | ValidRun(qs) && 3 in Run(qs).results ensures Run(qs).results[3].outcome != Rejected(InvalidAccountState) {
      NoSerialRunStores(qs, 3);
    }
  }
}
