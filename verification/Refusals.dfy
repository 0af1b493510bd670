/** Why a command is refused, read off the log alone: the stored error is the first thing that
    is wrong, and a command is refused exactly when something is. */
module Refusals {
  import opened Events
  import opened Accounts
  import opened Views
  import opened Commands
  import opened Execution
  import opened Soundness
  import opened Runs
  import opened LedgerTheorems
  import opened Aborts
  import opened Effects
  import L = Ledger

  predicate Overdraws(log: seq<Row>, a: Account, amount: int) {
    var s := FoldStream(log, a);
    s.Ok? && amount > s.value.balance - s.value.held
  }

  predicate Overflows(log: seq<Row>, a: Account, amount: int) {
    var s := FoldStream(log, a);
    s.Ok? && s.value.balance + amount > MAX_BIGINT
  }

  predicate Full(log: seq<Row>, a: Account) { |Stream(log, a)| >= MAX_BIGINT }

  /** What is wrong with one leg. */
  function LegReason(log: seq<Row>, a: Account, amount: int, debit: bool): Option<DomainError> {
    if Full(log, a) then Some(VersionOutOfRange)
    else if debit && Overdraws(log, a, amount) then Some(InsufficientFunds)
    else if !debit && Overflows(log, a, amount) then Some(AmountOutOfRange)
    else None
  }

  /** What is wrong with the first failing leg, in the command's order. */
  function FirstReason(log: seq<Row>, legs: seq<Leg>): Option<DomainError> {
    if legs == [] then None
    else
      var n := |legs| - 1;
      var before := FirstReason(log, legs[..n]);
      if before.Some? then before else LegReason(log, legs[n].account, legs[n].amount, legs[n].direction == Debit)
  }

  /** What is wrong with the first leg that cannot be turned around. */
  function FirstMirrorReason(log: seq<Row>, legs: seq<Event>): Option<DomainError> {
    if legs == [] then None
    else
      var n := |legs| - 1;
      var before := FirstMirrorReason(log, legs[..n]);
      if before.Some? then before else LegReason(log, legs[n].account, legs[n].amount, BalanceSign(legs[n]) > 0)
  }

  /** The reason the ledger has for refusing a command at `now`, if it has one. */
  function Reason(log: seq<Row>, c: Command, now: int): Option<DomainError> {
    match c
    case Deposit(a, amount, _) => LegReason(log, a, amount, false)
    case Withdraw(a, amount, _) => LegReason(log, a, amount, true)
    case Hold(a, _, amount, _, _) => LegReason(log, a, amount, true)
    case Transfer(_, _, _, _) => FirstReason(log, LegsOf(c))
    case Post(_, _, _) => FirstReason(log, LegsOf(c))
    case PostHold(a, h, _, _) =>
      var hold := OpenHoldOf(h, Stream(log, a));
      if hold.None? then Some(HoldNotOpen)
      else if now >= hold.value.expiresAt then Some(HoldExpired)
      else if Captured(c, hold.value) > hold.value.amount then Some(CaptureExceedsHold)
      else if Full(log, a) then Some(VersionOutOfRange)
      else LegReason(log, hold.value.counterparty, Captured(c, hold.value), false)
    case VoidHold(a, h, _) =>
      if OpenHoldOf(h, Stream(log, a)).None? then Some(HoldNotOpen)
      else if Full(log, a) then Some(VersionOutOfRange) else None
    case ExpireHold(a, h, _) =>
      var hold := OpenHoldOf(h, Stream(log, a));
      if hold.None? then Some(HoldNotOpen)
      else if now < hold.value.expiresAt then Some(HoldNotExpired)
      else if Full(log, a) then Some(VersionOutOfRange) else None
    case Revert(a, t, _) =>
      var legs := Movements(EventsOf(log), t);
      if legs == [] then Some(NotRevertible)
      else if RevertedBy(EventsOf(log), t).Some? then Some(AlreadyReverted)
      else if !exists i :: 0 <= i < |legs| && legs[i].account == a && BalanceSign(legs[i]) < 0 then Some(AnchorNotCredited)
      else FirstMirrorReason(log, legs)
  }

  // --------------------------------------------------- the decision's reasons

  lemma CheckReason(log: seq<Row>, states: map<Account, AccountState>, a: Account, amount: int, debit: bool)
    requires Shown(log, states) && a in states
    ensures CheckLeg(states[a], a, amount, debit) == LegReason(log, a, amount, debit)
  {
    hide FoldStream, Stream;
  }

  lemma {:induction false} ChecksReason(log: seq<Row>, states: map<Account, AccountState>, legs: seq<Leg>)
    requires Shown(log, states) && Covers(states, legs)
    ensures CheckLegs(states, legs) == FirstReason(log, legs)
  {
    hide Shown, CheckLeg, LegReason;
    if legs != [] {
      var n := |legs| - 1;
      ChecksReason(log, states, legs[..n]);
      CheckReason(log, states, legs[n].account, legs[n].amount, legs[n].direction == Debit);
    }
  }

  lemma {:induction false} MirrorsReason(log: seq<Row>, states: map<Account, AccountState>, legs: seq<Event>, id: Id, t: Id)
    requires Shown(log, states) && AllMovement(legs) && CoversEvents(states, legs) && AllValid(legs) && id != t
    ensures var mirrored := MirrorLegs(states, legs, id, t);
            var reason := FirstMirrorReason(log, legs);
            if reason.None? then mirrored.Ok? else mirrored == Err(Refused(reason.value))
  {
    hide Shown, CheckLeg, LegReason;
    if legs != [] {
      var n := |legs| - 1;
      MirrorsReason(log, states, legs[..n], id, t);
      CheckReason(log, states, legs[n].account, legs[n].amount, BalanceSign(legs[n]) > 0);
    }
  }

  /** The decision's answer, up to a crash. */
  ghost predicate Answers(decision: Result<seq<Event>>, reason: Option<DomainError>) {
    if reason.Some? then decision == Err(Refused(reason.value)) else decision.Ok? || decision == Err(Crashed)
  }

  lemma PostingReason(log: seq<Row>, c: Command, id: Id, now: int, states: map<Account, AccountState>)
    requires (c.Transfer? || c.Post?) && Shown(log, states) && Covers(states, LegsOf(c))
    ensures Answers(DecidePostings(states, c.account, LegsOf(c), id), Reason(log, c, now))
  {
    hide Shown, CheckLegs, PostingEvents, FirstReason, LegsOf;
    PostingFaults(LegsOf(c), c.account, id, |LegsOf(c)|);
    ChecksReason(log, states, LegsOf(c));
  }

  lemma RevertReason(log: seq<Row>, ids: set<Id>, c: Command, id: Id, now: int, r: Reads)
    requires c.Revert? && L.Inv(EventsOf(log), ids) && id !in ids && Shown(log, r.states) && ExactReads(EventsOf(log), c, r)
    ensures Answers(DecideEvents(c, id, now, r), Reason(log, c, now))
  {
    hide L.Inv, Shown, MirrorLegs, FirstMirrorReason, OnSet, MovementLegs, RevertedBy, OnAccount, Fold, Named;
    NamedCovers(c, r);
    MovementCovered(r.states, r.original);
    var legs := MovementLegs(r.original);
    if legs != [] {
      RevertOfAnother(EventsOf(log), ids, c.transferId, id);
      MirrorsReason(log, r.states, legs, id, c.transferId);
    }
  }

  lemma HoldReason(log: seq<Row>, ids: set<Id>, c: Command, id: Id, now: int, r: Reads)
    requires HoldIdOf(c).Some? && L.Inv(EventsOf(log), ids) && Shown(log, r.states) && ExactReads(EventsOf(log), c, r)
    ensures Answers(DecideEvents(c, id, now, r), Reason(log, c, now))
  {
    hide L.Inv, Fold, OnAccount, OpenHoldOf, OnSet, RevertedBy, MovementLegs, LegsOf;
    NamedCovers(c, r);
    assert r.hold == OpenHoldOf(c.holdId, Stream(log, c.account));
    if r.hold.Some? {
      FoldCoversOpenHold(EventsOf(log), ids, c.account, c.holdId, r.states[c.account]);
    }
  }

  lemma DecisionReason(log: seq<Row>, ids: set<Id>, c: Command, id: Id, now: int, r: Reads)
    requires L.Inv(EventsOf(log), ids) && id !in ids && Shown(log, r.states) && ExactReads(EventsOf(log), c, r)
    ensures Answers(DecideEvents(c, id, now, r), Reason(log, c, now))
  {
    hide L.Inv, OnAccount, OnSet, MirrorLegs, DecidePostings, LegsOf, Fold, RevertedBy, MovementLegs, DecideRevert,
      OpenHoldOf, FirstReason, FirstMirrorReason;
    NamedCovers(c, r);
    if c.Transfer? || c.Post? {
      PostingReason(log, c, id, now, r.states);
    } else if c.Revert? {
      RevertReason(log, ids, c, id, now, r);
    } else if HoldIdOf(c).Some? {
      HoldReason(log, ids, c, id, now, r);
    } else {
      CheckReason(log, r.states, c.account, c.amount, !c.Deposit?);
    }
  }

  // -------------------------------------------------------------- the theorem

  /** A request is answered with a stored refusal exactly when its id is new, its version is
      current and the ledger has that very reason. A version conflict is stored exactly when the
      id is new and the version is not current. Every stored result carries the version it was
      decided at. */
  lemma RefusalsTellTheTruth(db: Db, q: Request)
    requires DbInv(db) && ValidCommand(q.command)
    ensures var length := |Stream(db.log, q.command.account)|;
            var answer := Execute(db, q).1;
            && (answer.Decided? ==> q.id !in db.results && answer.stored.currentVersion == length)
            && (answer.Decided? && answer.stored.outcome.VersionConflict? <==>
                  q.id !in db.results && q.command.expectedVersion != length)
            && (forall error :: answer == Decided(Refusal(q, length, Rejected(error))) <==>
                  q.id !in db.results && q.command.expectedVersion == length && Reason(db.log, q.command, q.now) == Some(error))
  {
    hide Execute, Reason, L.Inv, Contiguous, ExactReads, DecideEvents, ReadAll, FoldStream, Stream, Shown, Sufficient;
    var r := ReadExactly(db, q.command);
    ExactIsSufficient(EventsOf(db.log), q.command, r);
    AnswerCases(db, q, r);
    if q.id !in db.results {
      StatesShown(db, r.states);
      DecisionReason(db.log, db.results.Keys, q.command, q.id, q.now, r);
    }
  }

  /** The stored answers of a request, by the decision on its exact reads. */
  lemma AnswerCases(db: Db, q: Request, r: Reads)
    requires Sufficient(q.command, r)
    requires FoldStream(db.log, q.command.account) == Ok(r.states[q.command.account])
    requires ReadAll(db.log, q.command, r.states[q.command.account]) == Ok(r)
    ensures var version := r.states[q.command.account].version;
            var answer := Execute(db, q).1;
            && (answer.Decided? ==> q.id !in db.results && answer.stored.currentVersion == version)
            && (answer.Decided? && answer.stored.outcome.VersionConflict? <==>
                  q.id !in db.results && q.command.expectedVersion != version)
            && (forall error :: answer == Decided(Refusal(q, version, Rejected(error))) <==>
                  && q.id !in db.results && q.command.expectedVersion == version
                  && DecideEvents(q.command, q.id, q.now, r) == Err(Refused(error)))
  {
    hide FoldStream, ReadAll, DecideEvents, NumberLegs, Stamp, Addressed, PostingsOf, Sufficient;
  }
}
