/** The two rollbacks without a stored result are reachable: a run of the service leads to each. */
module Reachability {
  import opened Events
  import opened Accounts
  import opened Views
  import opened Commands
  import opened Execution
  import opened Soundness
  import opened Runs
  import opened Aborts
  import opened Effects
  import opened HoldLife
  import opened Races
  import B = Batches

  /** `n` deposits of 1 to account 0. */
  function Deposits(n: nat): (qs: seq<Request>)
    ensures |qs| == n && forall i :: 0 <= i < n ==> qs[i] == Request(i, Deposit(0, 1, i), 0, 0, i)
  {
    seq(n, i requires 0 <= i < n => Request(i, Deposit(0, 1, i), 0, 0, i))
  }

  function Saved(n: nat): AccountState { AccountState(if n == 0 then None else Some(0), n, n, 0) }

  /** Account 0 has `n`, nobody else has anything, and only ids below `n` are used. */
  ghost predicate Savings(db: Db, n: nat) {
    && FoldStream(db.log, 0) == Ok(Saved(n)) && |Stream(db.log, 0)| == n && Stream(db.log, 1) == []
    && forall id :: id in db.results ==> id < n
  }

  lemma FoldStreamPlus(log: seq<Row>, row: Row, s: AccountState)
    requires FoldStream(log, row.event.account) == Ok(s)
    ensures FoldStream(log + [row], row.event.account) == Apply(s, row.event)
    ensures |Stream(log + [row], row.event.account)| == |Stream(log, row.event.account)| + 1
    ensures forall a :: a != row.event.account ==> Stream(log + [row], a) == Stream(log, a)
  {
    hide Apply, OnAccount, FoldFrom;
    var es, e := EventsOf(log), row.event;
    assert EventsOf(log + [row]) == es + [e];
    forall a { B.StreamPlus(es, e, a); }
    FoldOneMore(OnAccount(es, e.account), e, s);
  }

  lemma FoldOneMore(st: seq<Event>, e: Event, s: AccountState)
    requires Fold(st) == Ok(s)
    ensures Fold(st + [e]) == Apply(s, e)
  {
    hide Apply;
    assert (st + [e])[..|st|] == st;
  }

  lemma OneMoreDeposit(n: nat)
    requires n < MAX_BIGINT
    ensures DecideCash(Saved(n), 0, 1, true) == Ok(Deposited(0, 1))
    ensures Apply(Saved(n), Deposited(0, 1)) == Ok(Saved(n + 1))
  {
    var e := Deposited(0, 1);
    assert BalanceDelta(e) == 1 && HeldDelta(e) == 0;
    hide BalanceDelta, HeldDelta;
  }

  lemma {:induction false} DepositsReach(n: nat)
    requires n <= MAX_BIGINT
    ensures ValidRun(Deposits(n)) && Savings(Run(Deposits(n)), n)
  {
    hide Execute, FoldStream, Stream, DecideCash, Apply;
    var qs := Deposits(n);
    if n == 0 {
      NothingSaved();
    } else {
      DepositsReach(n - 1);
      assert qs[..n - 1] == Deposits(n - 1);
      var db, q := Run(Deposits(n - 1)), qs[n - 1];
      OneMoreDeposit(n - 1);
      ExecutesOne(db, q, Saved(n - 1), Deposited(0, 1));
      FoldStreamPlus(db.log, Row(q.firstEventId, n, Deposited(0, 1)), Saved(n - 1));
    }
  }

  lemma NothingSaved()
    ensures Run([]) == EMPTY_DB && Savings(EMPTY_DB, 0)
  {
    assert EventsOf([]) == [];
  }

  /** The largest balance, 2^63 - 1, is reached by a run. */
  lemma FullBalanceIsReachable() returns (qs: seq<Request>)
    ensures ValidRun(qs) && FoldStream(Run(qs).log, 0).Ok?
    ensures FoldStream(Run(qs).log, 0).value.balance == 9223372036854775807
  {
    hide FoldStream, Run;
    qs := Deposits(9223372036854775807);
    DepositsReach(9223372036854775807);
  }

  // ---------------------------------------------------------- a capture too many

  const N: nat := MAX_BIGINT - 2

  const LAST_HOLD := Request(N, Hold(0, 1, 2, N, 60), 0, 0, N)

  const CAPTURE := Request(N + 1, PostHold(0, N, N + 1, Some(1)), 0, 0, N + 1)

  lemma LastHoldPlaced(db: Db)
    requires DbInv(db) && Savings(db, N)
    ensures Execute(db, LAST_HOLD).1.Decided? && Execute(db, LAST_HOLD).1.stored.outcome.Accepted?
    ensures var db' := Execute(db, LAST_HOLD).0;
            && |Stream(db'.log, 0)| == N + 1 && Stream(db'.log, 1) == [] && N + 1 !in db'.results
  {
    hide Execute, FoldStream, Stream, DbInv, Apply, DecideHold;
    AcceptedExactly(db, LAST_HOLD);
    var s, e := Saved(N), HoldPlaced(0, 2, N, 1, 60);
    assert DecideHold(s, 0, 1, 2, 60, N, 0) == Ok(e) by { HoldDecided(s, e); }
    ExecutesOne(db, LAST_HOLD, s, e);
    FoldStreamPlus(db.log, Row(N, N + 1, e), s);
  }

  lemma HoldDecided(s: AccountState, e: Event)
    requires s == Saved(N) && e == HoldPlaced(0, 2, N, 1, 60)
    ensures DecideHold(s, 0, 1, 2, 60, N, 0) == Ok(e)
  {}

  /** A reachable database on which a partial capture rolls back: all versions of account 0 but one
      are used up by deposits and a hold. */
  lemma CaptureIsReachable() returns (qs: seq<Request>)
    ensures ValidRun(qs) && ValidCommand(CAPTURE.command) && CapturesPastTheEnd(Run(qs), CAPTURE)
    ensures Execute(Run(qs), CAPTURE).1 == RolledBack
  {
    hide Execute, FoldStream, Stream, DbInv, Savings;
    DepositsReach(N);
    var before := Deposits(N);
    RunKeeps(before);
    var db := Run(before);
    LastHoldPlaced(db);
    HoldOpens(db, LAST_HOLD);
    qs := before + [LAST_HOLD];
    assert qs[..|before|] == before;
    RunKeeps(qs);
    EmptyFold(Run(qs).log, 1);
    RollsBackExactly(Run(qs), CAPTURE);
  }

  lemma EmptyFold(log: seq<Row>, a: Account)
    requires Stream(log, a) == []
    ensures FoldStream(log, a) == Ok(EMPTY)
  {}

  // ------------------------------------------------------------ an expiry too far

  const FAR_HOLD := Request(1, Hold(0, 1, 1, 1, 253402300800), 0, 0, 1)

  /** One deposit suffices for a hold whose expiry overflows. */
  lemma OverflowIsReachable() returns (qs: seq<Request>)
    ensures ValidRun(qs) && ValidCommand(FAR_HOLD.command) && ExpiresPastTheEnd(Run(qs), FAR_HOLD)
    ensures Execute(Run(qs), FAR_HOLD).1 == RolledBack
  {
    hide Execute, FoldStream, Stream, DbInv, Run;
    qs := Deposits(1);
    DepositsReach(1);
    RunKeeps(qs);
    RollsBackExactly(Run(qs), FAR_HOLD);
  }

  const LONGEST_HOLD := Request(1, Hold(0, 1, 1, 1, 253402300799), 0, 0, 1)

  /** One second less and the hold is accepted: 9999-12-31T23:59:59 can still be named. */
  lemma LastSecondIsAccepted()
    ensures ValidRun(Deposits(1)) && ValidCommand(LONGEST_HOLD.command)
    ensures var answer := Execute(Run(Deposits(1)), LONGEST_HOLD).1; answer.Decided? && answer.stored.outcome.Accepted?
  {
    hide Execute, FoldStream, Stream, DbInv, Run;
    DepositsReach(1);
    RunKeeps(Deposits(1));
    AcceptedExactly(Run(Deposits(1)), LONGEST_HOLD);
  }
}
