/** What each command does, said without its decision: exactly when it is accepted, and what
    every account's balance, held amount and version are afterwards. */
module Effects {
  import opened Events
  import opened Accounts
  import opened Views
  import opened Commands
  import opened Execution
  import opened Numbering
  import opened Soundness
  import opened Runs
  import opened LedgerTheorems
  import opened Aborts
  import Projection
  import L = Ledger
  import B = Batches

  // -------------------------------------------------------------- the effects

  /** Net amount the legs move on one account. */
  function LegEffect(legs: seq<Leg>, a: Account): int {
    if legs == [] then 0
    else
      var n := |legs| - 1;
      LegEffect(legs[..n], a) +
      (if legs[n].account != a then 0 else if legs[n].direction == Credit then legs[n].amount else -legs[n].amount)
  }

  function Captured(c: Command, hold: OpenHold): int
    requires c.PostHold?
  {
    if c.capture.Some? then c.capture.value else hold.amount
  }

  /** What an accepted command does to the balance of `a`. */
  function BalanceEffect(c: Command, hold: Option<OpenHold>, original: seq<Event>, a: Account): int {
    match c
    case Deposit(x, amount, _) => if a == x then amount else 0
    case Withdraw(x, amount, _) => if a == x then -amount else 0
    case Transfer(x, y, amount, _) => if a == x then -amount else if a == y then amount else 0
    case Post(_, legs, _) => LegEffect(legs, a)
    case PostHold(x, _, _, _) =>
      if hold.None? then 0
      else if a == x then -Captured(c, hold.value) else if a == hold.value.counterparty then Captured(c, hold.value) else 0
    case Revert(_, _, _) => -BalanceSum(OnAccount(MovementLegs(original), a))
    case _ => 0
  }

  /** What an accepted command does to the held amount of `a`. */
  function HeldEffect(c: Command, hold: Option<OpenHold>, a: Account): int {
    if a != c.account then 0
    else if c.Hold? then c.amount
    else if (c.PostHold? || c.VoidHold? || c.ExpireHold?) && hold.Some? then -hold.value.amount
    else 0
  }

  ghost predicate Does(c: Command, hold: Option<OpenHold>, original: seq<Event>, events: seq<Event>, a: Account) {
    && BalanceSum(OnAccount(events, a)) == BalanceEffect(c, hold, original, a)
    && HeldSum(OnAccount(events, a)) == HeldEffect(c, hold, a)
  }

  lemma SingleSums(e: Event, a: Account)
    ensures BalanceSum(OnAccount([e], a)) == if e.account == a then BalanceDelta(e) else 0
    ensures HeldSum(OnAccount([e], a)) == if e.account == a then HeldDelta(e) else 0
  {
    hide OnAccount;
    B.OnAccountSingle(e, a);
    B.Singles(e);
  }

  lemma PlusOnAccount(s: seq<Event>, e: Event, a: Account)
    ensures BalanceSum(OnAccount(s + [e], a)) == BalanceSum(OnAccount(s, a)) + (if e.account == a then BalanceDelta(e) else 0)
    ensures HeldSum(OnAccount(s + [e], a)) == HeldSum(OnAccount(s, a)) + (if e.account == a then HeldDelta(e) else 0)
  {
    hide OnAccount;
    B.StreamPlus(s, e, a);
    Projection.SumsPlus(OnAccount(s, a), e);
  }

  /** The events of a posting set move what its legs say. */
  lemma {:induction false} PostingSums(legs: seq<Leg>, events: seq<Event>, a: Account)
    requires |events| == |legs|
    requires forall i :: 0 <= i < |legs| ==>
               && !IsHoldEvent(events[i]) && events[i].account == legs[i].account
               && BalanceDelta(events[i]) == if legs[i].direction == Debit then -legs[i].amount else legs[i].amount
    ensures BalanceSum(OnAccount(events, a)) == LegEffect(legs, a) && HeldSum(OnAccount(events, a)) == 0
  {
    if legs != [] {
      var n := |legs| - 1;
      PostingSums(legs[..n], events[..n], a);
      assert events == events[..n] + [events[n]];
      PlusOnAccount(events[..n], events[n], a);
      hide OnAccount;
    }
  }

  lemma TransferEffect(c: Command, a: Account)
    requires c.Transfer? && c.account != c.target
    ensures LegEffect(LegsOf(c), a) == if a == c.account then -c.amount else if a == c.target then c.amount else 0
  {
    var legs := LegsOf(c);
    assert legs[..1] == [legs[0]] && legs[..1][..0] == [];
    assert LegEffect(legs[..1], a) == if a == c.account then -c.amount else 0;
  }

  lemma PostingDoes(c: Command, id: Id, states: map<Account, AccountState>, a: Account)
    requires (c.Transfer? || c.Post?) && ValidCommand(c) && Covers(states, LegsOf(c))
    requires DecidePostings(states, c.account, LegsOf(c), id).Ok?
    ensures Does(c, None, [], DecidePostings(states, c.account, LegsOf(c), id).value, a)
  {
    hide LegEffect, OnAccount, LegsOf, PostingEvents, CheckLegs;
    var events := DecidePostings(states, c.account, LegsOf(c), id).value;
    PostingEventsShape(LegsOf(c), c.account, id, |LegsOf(c)|);
    PostingSums(LegsOf(c), events, a);
    if c.Transfer? { TransferEffect(c, a); } else { PostLegs(c); }
  }

  lemma PostLegs(c: Command)
    requires c.Post?
    ensures LegsOf(c) == c.postings
  {}

  lemma CaptureDoes(x: Account, hold: OpenHold, amount: int, a: Account)
    requires hold.counterparty != x && amount <= hold.amount
    ensures var events := CaptureEvents(x, hold, amount);
            && BalanceSum(OnAccount(events, a)) == (if a == x then -amount else if a == hold.counterparty then amount else 0)
            && HeldSum(OnAccount(events, a)) == (if a == x then -hold.amount else 0)
  {
    hide OnAccount;
    var y := hold.counterparty;
    var posted := HoldPosted(x, amount, hold.holdId, y);
    var credited := TransferCredited(y, amount, hold.holdId, x);
    var released := HoldReleased(x, hold.amount - amount, hold.holdId, Partial);
    SingleSums(posted, a);
    PlusOnAccount([posted], credited, a);
    PlusOnAccount([posted] + [credited], released, a);
    assert [posted] + [credited] == [posted, credited];
    assert [posted, credited] + [released] == [posted, credited, released];
  }

  lemma {:induction false} MirrorHolds(legs: seq<Event>, r: Id, t: Id, a: Account)
    requires AllMovement(legs)
    ensures HeldSum(OnAccount(L.Mirrored(legs, r, t), a)) == 0
  {
    if legs != [] {
      var n := |legs| - 1;
      MirrorHolds(legs[..n], r, t, a);
      B.MirroredPrefix(legs, r, t);
      var m := L.Mirrored(legs, r, t);
      assert m == m[..n] + [m[n]];
      PlusOnAccount(m[..n], m[n], a);
      hide OnAccount;
    }
  }

  lemma RevertDoes(states: map<Account, AccountState>, legs: seq<Event>, id: Id, t: Id, a: Account)
    requires AllMovement(legs) && CoversEvents(states, legs) && MirrorLegs(states, legs, id, t).Ok?
    ensures var events := MirrorLegs(states, legs, id, t).value;
            BalanceSum(OnAccount(events, a)) == -BalanceSum(OnAccount(legs, a)) && HeldSum(OnAccount(events, a)) == 0
  {
    hide OnAccount;
    MirrorShape(states, legs, id, t);
    assert MirrorLegs(states, legs, id, t).value == L.Mirrored(legs, id, t);
    MirroredEffect(legs, id, t, a);
    MirrorHolds(legs, id, t, a);
  }

  /** The decided events do exactly what the command means. */
  lemma DecisionDoes(es: seq<Event>, ids: set<Id>, c: Command, id: Id, now: int, r: Reads, a: Account)
    requires L.Inv(es, ids) && ValidCommand(c) && ExactReads(es, c, r) && DecideEvents(c, id, now, r).Ok?
    ensures Does(c, r.hold, r.original, DecideEvents(c, id, now, r).value, a)
  {
    hide L.Inv, OnAccount, LegEffect, LegsOf, DecidePostings, MirrorLegs, MovementLegs, OnSet, RevertedBy,
      OpenHoldOf, Fold, CaptureEvents, ValidPostings, BalanceSum, HeldSum;
    NamedCovers(c, r);
    if c.Transfer? || c.Post? {
      PostingDoes(c, id, r.states, a);
    } else if c.Revert? {
      MovementCovered(r.states, r.original);
      RevertDoes(r.states, MovementLegs(r.original), id, c.transferId, a);
    } else if c.PostHold? {
      OpenHoldPlaced(es, ids, c.account, c.holdId);
      var amount := CaptureAccepted(c, id, now, r);
      CaptureDoes(c.account, r.hold.value, amount, a);
    } else {
      var e := SingleEvent(c, id, now, r);
      SingleSums(e, a);
    }
  }

  /** The one event of a command on a single stream, by kind. */
  lemma SingleEvent(c: Command, id: Id, now: int, r: Reads) returns (e: Event)
    requires Sufficient(c, r) && DecideEvents(c, id, now, r).Ok?
    requires c.Deposit? || c.Withdraw? || c.Hold? || c.VoidHold? || c.ExpireHold?
    ensures DecideEvents(c, id, now, r).value == [e] && e.account == c.account
    ensures BalanceDelta(e) == (if c.Deposit? then c.amount else if c.Withdraw? then -c.amount else 0)
    ensures HeldDelta(e) == HeldEffect(c, r.hold, c.account)
  {
    e := DecideEvents(c, id, now, r).value[0];
  }

  /** What an accepted command appended, and the decision it came from. */
  lemma AcceptedBatch(db: Db, q: Request) returns (r: Reads, legs: seq<Numbered>)
    requires DbInv(db) && ValidCommand(q.command)
    requires Execute(db, q).1.Decided? && Execute(db, q).1.stored.outcome.Accepted?
    ensures q.id !in db.results && ExactReads(EventsOf(db.log), q.command, r)
    ensures Decide(q.command, q.id, q.now, r) == Ok(legs) && Execute(db, q).0.log == db.log + Stamp(legs, q.firstEventId)
  {
    hide Decide, DecideEvents, ExactReads, ReadAll, FoldStream, Stamp, Addressed, PostingsOf, DbInv;
    r := ReadExactly(db, q.command);
    ExactIsSufficient(EventsOf(db.log), q.command, r);
    AcceptedDecision(db, q, r);
    legs := Decide(q.command, q.id, q.now, r).value;
  }

  lemma ExactIsSufficient(es: seq<Event>, c: Command, r: Reads)
    requires ExactReads(es, c, r)
    ensures Sufficient(c, r) && Exact(es, r.states)
  {}

  lemma AcceptedDecision(db: Db, q: Request, r: Reads)
    requires Sufficient(q.command, r)
    requires FoldStream(db.log, q.command.account) == Ok(r.states[q.command.account])
    requires ReadAll(db.log, q.command, r.states[q.command.account]) == Ok(r)
    ensures Execute(db, q).1.Decided? && Execute(db, q).1.stored.outcome.Accepted? ==>
              && q.id !in db.results && q.command.expectedVersion == r.states[q.command.account].version
              && Decide(q.command, q.id, q.now, r).Ok?
              && Execute(db, q).0.log == db.log + Stamp(Decide(q.command, q.id, q.now, r).value, q.firstEventId)
  {
    hide Decide, ReadAll, FoldStream, Stamp, Addressed, PostingsOf, Sufficient;
  }

  /** After an accepted command every account has changed by exactly the command's effect. */
  lemma AcceptedDoes(db: Db, q: Request, a: Account)
    requires DbInv(db) && ValidCommand(q.command)
    requires Execute(db, q).1.Decided? && Execute(db, q).1.stored.outcome.Accepted?
    ensures FoldStream(db.log, a).Ok? && FoldStream(Execute(db, q).0.log, a).Ok?
    ensures var before, after := FoldStream(db.log, a).value, FoldStream(Execute(db, q).0.log, a).value;
            && after.balance == before.balance +
                 BalanceEffect(q.command, HoldRead(db.log, q.command), OriginalRead(db.log, q.command), a)
            && after.held == before.held + HeldEffect(q.command, HoldRead(db.log, q.command), a)
  {
    hide Execute, Decide, DecideEvents, L.Inv, Contiguous, OnAccount, BalanceEffect, HeldEffect, Fold, OnSet,
      RevertedBy, OpenHoldOf, IsNumbering, KeysAscend, Stamp;
    var r, legs := AcceptedBatch(db, q);
    ExecuteKeeps(db, q);
    DecideNumbers(q.command, q.id, q.now, r, legs);
    var es, ids := EventsOf(db.log), db.results.Keys;
    var events := DecideEvents(q.command, q.id, q.now, r).value;
    DecisionDoes(es, ids, q.command, q.id, q.now, r, a);
    NumberedStream(r.states, events, legs, a);
    StreamAfter(db.log, Stamp(legs, q.firstEventId), a);
    SumsConcat(Stream(db.log, a), OnAccount(events, a));
    var before := StateOf(es, ids, a);
    var db' := Execute(db, q).0;
    var after := StateOf(EventsOf(db'.log), db'.results.Keys, a);
  }

  lemma NumberedStream(states: map<Account, AccountState>, events: seq<Event>, legs: seq<Numbered>, a: Account)
    requires IsNumbering(states, events, legs)
    ensures OnAccount(EventsOfLegs(legs), a) == OnAccount(events, a)
  {}

  // ------------------------------------------------------- when it is accepted

  /** Room for one more event and enough unheld funds. */
  predicate CanDebit(log: seq<Row>, a: Account, amount: int) {
    var s := FoldStream(log, a);
    s.Ok? && |Stream(log, a)| < MAX_BIGINT && amount <= s.value.balance - s.value.held
  }

  /** Room for one more event and for the amount. */
  predicate CanCredit(log: seq<Row>, a: Account, amount: int) {
    var s := FoldStream(log, a);
    s.Ok? && |Stream(log, a)| < MAX_BIGINT && s.value.balance + amount <= MAX_BIGINT
  }

  predicate LegFits(log: seq<Row>, leg: Leg) {
    if leg.direction == Debit then CanDebit(log, leg.account, leg.amount) else CanCredit(log, leg.account, leg.amount)
  }

  /** Mirroring takes back what the leg gave. */
  predicate MirrorFits(log: seq<Row>, leg: Event) {
    if BalanceSign(leg) > 0 then CanDebit(log, leg.account, leg.amount) else CanCredit(log, leg.account, leg.amount)
  }

  /** What the ledger has to look like for a command to be accepted. */
  predicate Admissible(log: seq<Row>, c: Command, now: int) {
    match c
    case Deposit(a, amount, _) => CanCredit(log, a, amount)
    case Withdraw(a, amount, _) => CanDebit(log, a, amount)
    case Transfer(a, b, amount, _) => CanDebit(log, a, amount) && CanCredit(log, b, amount)
    case Post(_, legs, _) => forall i :: 0 <= i < |legs| ==> LegFits(log, legs[i])
    case Hold(a, _, amount, _, ttl) => CanDebit(log, a, amount) && now + ttl <= MAX_TIME
    case PostHold(a, h, _, _) =>
      var hold := OpenHoldOf(h, Stream(log, a));
      && hold.Some? && now < hold.value.expiresAt && Captured(c, hold.value) <= hold.value.amount
      && |Stream(log, a)| + (if Captured(c, hold.value) < hold.value.amount then 2 else 1) <= MAX_BIGINT
      && CanCredit(log, hold.value.counterparty, Captured(c, hold.value))
    case VoidHold(a, h, _) => OpenHoldOf(h, Stream(log, a)).Some? && |Stream(log, a)| < MAX_BIGINT
    case ExpireHold(a, h, _) =>
      var hold := OpenHoldOf(h, Stream(log, a));
      hold.Some? && now >= hold.value.expiresAt && |Stream(log, a)| < MAX_BIGINT
    case Revert(a, t, _) =>
      var legs := Movements(EventsOf(log), t);
      && legs != [] && RevertedBy(EventsOf(log), t).None?
      && (exists i :: 0 <= i < |legs| && legs[i].account == a && BalanceSign(legs[i]) < 0)
      && (forall i :: 0 <= i < |legs| ==> MirrorFits(log, legs[i]))
  }

  /** The folded states a decision used, as the log shows them. */
  ghost predicate Shown(log: seq<Row>, states: map<Account, AccountState>) {
    forall a :: a in states ==>
      && FoldStream(log, a) == Ok(states[a]) && states[a].version == |Stream(log, a)|
      && Matches(states[a], a) && states[a].version <= MAX_BIGINT
  }

  lemma StatesShown(db: Db, states: map<Account, AccountState>)
    requires DbInv(db) && Exact(EventsOf(db.log), states)
    ensures Shown(db.log, states)
  {
    hide L.Inv, Contiguous;
    forall a | a in states
      ensures FoldStream(db.log, a) == Ok(states[a]) && states[a].version == |Stream(db.log, a)|
      ensures Matches(states[a], a) && states[a].version <= MAX_BIGINT
    {
      var s := StateOf(EventsOf(db.log), db.results.Keys, a);
    }
  }

  lemma CheckShown(log: seq<Row>, states: map<Account, AccountState>, a: Account, amount: int, debit: bool)
    requires Shown(log, states) && a in states
    ensures CheckLeg(states[a], a, amount, debit).None? <==> if debit then CanDebit(log, a, amount) else CanCredit(log, a, amount)
  {
    hide FoldStream, Stream;
  }

  lemma {:induction false} ChecksShown(log: seq<Row>, states: map<Account, AccountState>, legs: seq<Leg>)
    requires Shown(log, states) && Covers(states, legs)
    ensures CheckLegs(states, legs).None? <==> forall i :: 0 <= i < |legs| ==> LegFits(log, legs[i])
  {
    hide Shown, CheckLeg, CanDebit, CanCredit;
    if legs != [] {
      var n := |legs| - 1;
      ChecksShown(log, states, legs[..n]);
      CheckShown(log, states, legs[n].account, legs[n].amount, legs[n].direction == Debit);
      assert forall i :: 0 <= i < n ==> legs[..n][i] == legs[i];
    }
  }

  lemma {:induction false} MirrorsShown(log: seq<Row>, states: map<Account, AccountState>, legs: seq<Event>, id: Id, t: Id)
    requires Shown(log, states) && AllMovement(legs) && CoversEvents(states, legs) && AllValid(legs) && id != t
    ensures MirrorLegs(states, legs, id, t).Ok? <==> forall i :: 0 <= i < |legs| ==> MirrorFits(log, legs[i])
  {
    hide Shown, CheckLeg, CanDebit, CanCredit;
    if legs != [] {
      var n := |legs| - 1;
      MirrorsShown(log, states, legs[..n], id, t);
      CheckShown(log, states, legs[n].account, legs[n].amount, BalanceSign(legs[n]) > 0);
      assert forall i :: 0 <= i < n ==> legs[..n][i] == legs[i];
    }
  }

  lemma PostingsAdmitted(log: seq<Row>, c: Command, id: Id, states: map<Account, AccountState>)
    requires (c.Transfer? || c.Post?) && ValidCommand(c) && Shown(log, states) && Covers(states, LegsOf(c))
    ensures DecidePostings(states, c.account, LegsOf(c), id).Ok? <==> Admissible(log, c, 0)
  {
    hide Shown, CheckLegs, PostingEvents, CanDebit, CanCredit, ValidPostings;
    PostingSetOf(c);
    PostingsExist(LegsOf(c), c.account, id, |LegsOf(c)|);
    ChecksShown(log, states, LegsOf(c));
    if c.Transfer? { TransferLegs(log, c); }
  }

  lemma TransferLegs(log: seq<Row>, c: Command)
    requires c.Transfer?
    ensures (forall i :: 0 <= i < |LegsOf(c)| ==> LegFits(log, LegsOf(c)[i])) <==>
              CanDebit(log, c.account, c.amount) && CanCredit(log, c.target, c.amount)
  {
    hide CanDebit, CanCredit;
    var legs := LegsOf(c);
    assert LegFits(log, legs[0]) == CanDebit(log, c.account, c.amount) && LegFits(log, legs[1]) == CanCredit(log, c.target, c.amount);
  }

  lemma RevertAdmitted(log: seq<Row>, ids: set<Id>, c: Command, id: Id, r: Reads)
    requires c.Revert? && L.Inv(EventsOf(log), ids) && id !in ids && Shown(log, r.states) && ExactReads(EventsOf(log), c, r)
    ensures DecideEvents(c, id, 0, r).Ok? <==> Admissible(log, c, 0)
  {
    hide L.Inv, Shown, MirrorLegs, CanDebit, CanCredit, OnSet, MovementLegs, RevertedBy, OnAccount, Fold, Named;
    NamedCovers(c, r);
    MovementCovered(r.states, r.original);
    var legs := MovementLegs(r.original);
    if legs != [] {
      RevertOfAnother(EventsOf(log), ids, c.transferId, id);
      MirrorsShown(log, r.states, legs, id, c.transferId);
    }
  }

  /** Settling, voiding and expiring, up to the room for a second event. */
  lemma HoldsAdmitted(log: seq<Row>, ids: set<Id>, c: Command, id: Id, now: int, r: Reads)
    requires HoldIdOf(c).Some? && L.Inv(EventsOf(log), ids) && Shown(log, r.states) && ExactReads(EventsOf(log), c, r)
    ensures var partial := c.PostHold? && r.hold.Some? && Captured(c, r.hold.value) < r.hold.value.amount;
            var last := r.states[c.account].version == MAX_BIGINT - 1;
            DecideEvents(c, id, now, r).Ok? && !(partial && last) <==> Admissible(log, c, now)
  {
    hide L.Inv, Fold, OnAccount, OpenHoldOf, OnSet, RevertedBy, MovementLegs, LegsOf;
    NamedCovers(c, r);
    assert r.hold == OpenHoldOf(c.holdId, Stream(log, c.account));
    if r.hold.Some? {
      OpenHoldPlaced(EventsOf(log), ids, c.account, c.holdId);
      FoldCoversOpenHold(EventsOf(log), ids, c.account, c.holdId, r.states[c.account]);
    }
  }

  lemma EventsAdmitted(log: seq<Row>, ids: set<Id>, c: Command, id: Id, now: int, r: Reads)
    requires L.Inv(EventsOf(log), ids) && id !in ids && ValidCommand(c) && Shown(log, r.states) && ExactReads(EventsOf(log), c, r)
    requires HoldIdOf(c).None?
    ensures DecideEvents(c, id, now, r).Ok? <==> Admissible(log, c, now)
  {
    hide L.Inv, OnAccount, OnSet, MirrorLegs, DecidePostings, LegsOf, Fold, RevertedBy, MovementLegs, DecideRevert,
      OpenHoldOf, ValidPostings, LegFits, MirrorFits;
    NamedCovers(c, r);
    if c.Transfer? || c.Post? {
      PostingsAdmitted(log, c, id, r.states);
    } else if c.Revert? {
      RevertAdmitted(log, ids, c, id, r);
    } else {
      CheckShown(log, r.states, c.account, c.amount, !c.Deposit?);
    }
  }

  /** A command is accepted exactly when its id is new, the caller's version is current and the
      ledger admits it: no acceptable command is refused and no other is accepted. */
  lemma AcceptedExactly(db: Db, q: Request)
    requires DbInv(db) && ValidCommand(q.command)
    ensures Execute(db, q).1.Decided? && Execute(db, q).1.stored.outcome.Accepted? <==>
              && q.id !in db.results
              && q.command.expectedVersion == |Stream(db.log, q.command.account)|
              && Admissible(db.log, q.command, q.now)
  {
    hide Execute, Admissible, Decide, DecideEvents, DbInv, ReadAll, ExactReads, FoldStream, Stream;
    var r := ReadExactly(db, q.command);
    ExactIsSufficient(EventsOf(db.log), q.command, r);
    AcceptedDecision(db, q, r);
    if q.id !in db.results {
      DecideAdmitted(db, q, r);
      if q.command.expectedVersion == r.states[q.command.account].version && Decide(q.command, q.id, q.now, r).Ok? {
        DecidedIsAccepted(db, q, r);
      }
    }
  }

  lemma DecideAdmitted(db: Db, q: Request, r: Reads)
    requires DbInv(db) && ValidCommand(q.command) && q.id !in db.results && ExactReads(EventsOf(db.log), q.command, r)
    ensures Sufficient(q.command, r) && (Decide(q.command, q.id, q.now, r).Ok? <==> Admissible(db.log, q.command, q.now))
  {
    hide Admissible, DecideEvents, L.Inv, Contiguous, NumberLegs, ExactReads, Shown, Sufficient;
    var es, ids, c := EventsOf(db.log), db.results.Keys, q.command;
    ExactIsSufficient(es, c, r);
    StatesShown(db, r.states);
    DecideCrashes(es, ids, c, q.id, q.now, r);
    DecisionCrashes(es, ids, c, q.id, q.now, r);
    if HoldIdOf(c).Some? {
      HoldsAdmitted(db.log, ids, c, q.id, q.now, r);
    } else {
      EventsAdmitted(db.log, ids, c, q.id, q.now, r);
    }
  }

  lemma DecidedIsAccepted(db: Db, q: Request, r: Reads)
    requires DbInv(db) && ValidCommand(q.command) && q.id !in db.results && ExactReads(EventsOf(db.log), q.command, r)
    requires FoldStream(db.log, q.command.account) == Ok(r.states[q.command.account])
    requires ReadAll(db.log, q.command, r.states[q.command.account]) == Ok(r)
    requires Sufficient(q.command, r)
    requires q.command.expectedVersion == r.states[q.command.account].version && Decide(q.command, q.id, q.now, r).Ok?
    ensures Execute(db, q).1.Decided? && Execute(db, q).1.stored.outcome.Accepted?
  {
    hide L.Inv, Contiguous, Decide, ReadAll, FoldStream, ExactReads, Stamp, Addressed, PostingsOf;
    AddressedWritten(EventsOf(db.log), db.results.Keys, q, r, Decide(q.command, q.id, q.now, r).value);
  }
}
