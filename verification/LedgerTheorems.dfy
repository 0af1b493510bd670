/** What the invariant says about every serial run: bounds, holds, conservation, posting
    sets, reverts and chains of reverts, idempotence. */
module LedgerTheorems {
  import opened Events
  import opened Accounts
  import opened Views
  import opened Commands
  import opened Execution
  import opened Numbering
  import opened Soundness
  import opened Runs
  import L = Ledger
  import B = Batches

  // ------------------------------------------------------------------ bounds

  /** On every reachable log every stream folds, within bounds, to a version equal to its
      length, and the rows of each stream are numbered 1..n. */
  lemma EveryAccountIsSound(qs: seq<Request>, a: Account)
    requires ValidRun(qs)
    ensures FoldStream(Run(qs).log, a).Ok?
    ensures var s := FoldStream(Run(qs).log, a).value;
            && 0 <= s.held <= s.balance <= 9223372036854775807
            && s.version == |Stream(Run(qs).log, a)|
            && s.balance == BalanceSum(Stream(Run(qs).log, a))
    ensures Contiguous(Run(qs).log)
  {
    RunKeeps(qs);
    var s := StateOf(EventsOf(Run(qs).log), Run(qs).results.Keys, a);
  }

  // ------------------------------------------------------------------- holds

  lemma {:induction false} OpenSumCovers(s: seq<Event>, n: nat, h: Id)
    requires h < n && forall k :: 0 <= k < n ==> L.OpenAmount(k, s) >= 0
    ensures L.OpenAmount(h, s) <= L.OpenSum(s, n)
  {
    if h == n - 1 {
      OpenSumNonNegative(s, n - 1);
    } else {
      OpenSumCovers(s, n - 1, h);
    }
  }

  lemma {:induction false} OpenSumNonNegative(s: seq<Event>, n: nat)
    requires forall k :: 0 <= k < n ==> L.OpenAmount(k, s) >= 0
    ensures L.OpenSum(s, n) >= 0
  {
    if n > 0 { OpenSumNonNegative(s, n - 1); }
  }

  lemma {:induction false} HoldBound(s: seq<Event>) returns (n: nat)
    ensures L.HoldIdsBelow(s, n)
  {
    if s == [] {
      n := 0;
    } else {
      n := HoldBound(s[..|s| - 1]);
      var e := s[|s| - 1];
      if IsHoldEvent(e) && e.holdId >= n { n := e.holdId + 1; }
    }
  }

  /** A stream's held amount covers each of its open holds. */
  lemma HeldCoversOpenHold(es: seq<Event>, ids: set<Id>, a: Account, h: Id)
    requires L.Inv(es, ids) && OpenHoldOf(h, OnAccount(es, a)).Some?
    ensures OpenHoldOf(h, OnAccount(es, a)).value.amount <= HeldSum(OnAccount(es, a))
  {
    var s := OnAccount(es, a);
    var n0 := HoldBound(s);
    var n := if h < n0 then n0 else h + 1;
    assert L.HoldIdsBelow(s, n);
    assert L.HeldIsOpen(s);
    forall k | 0 <= k < n ensures L.OpenAmount(k, s) >= 0 {
      if OpenHoldOf(k, s).Some? { OpenHoldPlaced(es, ids, a, k); }
    }
    OpenSumCovers(s, n, h);
  }

  /** After every command of every run the held amount of an account is the sum of its open
      holds, derived one by one from the stream. */
  lemma HeldIsTheSumOfOpenHolds(qs: seq<Request>, a: Account, n: nat)
    requires ValidRun(qs) && L.HoldIdsBelow(Stream(Run(qs).log, a), n)
    ensures FoldStream(Run(qs).log, a).Ok?
    ensures FoldStream(Run(qs).log, a).value.held == L.OpenSum(Stream(Run(qs).log, a), n)
  {
    RunKeeps(qs);
    var s := StateOf(EventsOf(Run(qs).log), Run(qs).results.Keys, a);
    assert L.HeldIsOpen(Stream(Run(qs).log, a));
  }

  // ---------------------------------------------- which refusals can happen

  lemma {:induction false} FoldOthersFolds(log: seq<Row>, states: map<Account, AccountState>, accounts: seq<Account>)
    requires L.StreamsFold(EventsOf(log))
    ensures FoldOthers(log, states, accounts).Ok?
  {
    if accounts != [] {
      FoldOthersFolds(log, states, accounts[..|accounts| - 1]);
      assert FoldStream(log, accounts[|accounts| - 1]).Ok?;
    }
  }

  /** A refusal that means the log itself is inconsistent. */
  predicate Inconsistent(f: Fault) {
    f == Refused(InvalidAccountState) || f == Refused(AccountIdentityMismatch)
  }

  lemma {:induction false} CheckLegsConsistent(states: map<Account, AccountState>, legs: seq<Leg>)
    requires Covers(states, legs) && forall i :: 0 <= i < |legs| ==> Matches(states[legs[i].account], legs[i].account)
    ensures CheckLegs(states, legs).Some? ==> !Inconsistent(Refused(CheckLegs(states, legs).value))
  {
    if legs != [] { CheckLegsConsistent(states, legs[..|legs| - 1]); }
  }

  lemma {:induction false} PostingFaults(legs: seq<Leg>, anchor: Account, id: Id, k: nat)
    requires k <= |legs|
    ensures PostingEvents(legs, anchor, id, k).Err? ==> PostingEvents(legs, anchor, id, k).fault == Crashed
  {
    if k > 0 { PostingFaults(legs, anchor, id, k - 1); }
  }

  lemma {:induction false} MirrorConsistent(states: map<Account, AccountState>, legs: seq<Event>, id: Id, t: Id)
    requires AllMovement(legs) && CoversEvents(states, legs)
    requires forall i :: 0 <= i < |legs| ==> Matches(states[legs[i].account], legs[i].account)
    ensures MirrorLegs(states, legs, id, t).Err? ==> !Inconsistent(MirrorLegs(states, legs, id, t).fault)
  {
    if legs != [] { MirrorConsistent(states, legs[..|legs| - 1], id, t); }
  }

  lemma StatesMatch(es: seq<Event>, ids: set<Id>, states: map<Account, AccountState>)
    requires L.Inv(es, ids) && Exact(es, states)
    ensures forall a :: a in states ==> Matches(states[a], a)
  {
    forall a | a in states ensures Matches(states[a], a) { var s := StateOf(es, ids, a); }
  }

  lemma PostingsConsistent(states: map<Account, AccountState>, anchor: Account, legs: seq<Leg>, id: Id)
    requires Covers(states, legs) && forall i :: 0 <= i < |legs| ==> Matches(states[legs[i].account], legs[i].account)
    ensures DecidePostings(states, anchor, legs, id).Err? ==> !Inconsistent(DecidePostings(states, anchor, legs, id).fault)
  {
    CheckLegsConsistent(states, legs);
    PostingFaults(legs, anchor, id, |legs|);
  }

  lemma RevertConsistent(states: map<Account, AccountState>, original: seq<Event>, anchor: Account, id: Id, t: Id, other: Option<Id>)
    requires CoversEvents(states, original) && forall a :: a in states ==> Matches(states[a], a)
    ensures DecideRevert(states, original, anchor, id, t, other).Err? ==>
              !Inconsistent(DecideRevert(states, original, anchor, id, t, other).fault)
  {
    MovementCovered(states, original);
    MirrorConsistent(states, MovementLegs(original), id, t);
  }

  /** The amount of an open hold is covered by the folded held amount of its account. */
  lemma FoldCoversOpenHold(es: seq<Event>, ids: set<Id>, a: Account, h: Id, s: AccountState)
    requires L.Inv(es, ids) && Fold(OnAccount(es, a)) == Ok(s) && OpenHoldOf(h, OnAccount(es, a)).Some?
    ensures OpenHoldOf(h, OnAccount(es, a)).value.amount <= s.held <= s.balance
  {
    HeldCoversOpenHold(es, ids, a, h);
    var s' := StateOf(es, ids, a);
  }

  /** Decided on the log it read, no command is refused because the log is inconsistent: the
      two "open hold exceeds held funds" guards and the identity checks never fire. */
  lemma GuardsNeverFire(es: seq<Event>, ids: set<Id>, c: Command, id: Id, now: int, r: Reads)
    requires L.Inv(es, ids) && ExactReads(es, c, r)
    ensures DecideEvents(c, id, now, r).Err? ==> !Inconsistent(DecideEvents(c, id, now, r).fault)
  {
    hide L.Inv, DecidePostings, DecideRevert, OpenHoldOf, OnAccount, Fold, LegsOf, OnSet, RevertedBy;
    NamedCovers(c, r);
    StatesMatch(es, ids, r.states);
    if c.Transfer? || c.Post? {
      PostingsConsistent(r.states, c.account, LegsOf(c), id);
    } else if c.Revert? {
      RevertConsistent(r.states, r.original, c.account, id, c.transferId, r.revertedBy);
    } else if HoldIdOf(c).Some? && r.hold.Some? {
      FoldCoversOpenHold(es, ids, c.account, c.holdId, r.states[c.account]);
    }
  }

  /** A recorded refusal is the decision's own error. */
  lemma RefusalComesFromDecision(db: Db, q: Request, anchor: AccountState)
    requires FoldStream(db.log, q.command.account) == Ok(anchor) && ReadAll(db.log, q.command, anchor).Ok?
    requires Execute(db, q).1.Decided? && Execute(db, q).1.stored.outcome.Rejected?
    ensures Sufficient(q.command, ReadAll(db.log, q.command, anchor).value)
    ensures DecideEvents(q.command, q.id, q.now, ReadAll(db.log, q.command, anchor).value)
            == Err(Refused(Execute(db, q).1.stored.outcome.error))
  {
    hide DecideEvents, ReadAll, NumberLegs, Stamp, Addressed, PostingsOf, FoldStream;
    ReadAllSufficient(db.log, q.command, anchor);
  }

  /** The same for whole serial runs: no stored result ever says `invalid_account_state`. */
  lemma SerialGuardsNeverFire(qs: seq<Request>, q: Request)
    requires ValidRun(qs)
    requires Execute(Run(qs), q).1.Decided? && Execute(Run(qs), q).1.stored.outcome.Rejected?
    ensures !Inconsistent(Refused(Execute(Run(qs), q).1.stored.outcome.error))
  {
    hide Execute, DecideEvents, ExactReads, L.Inv;
    RunKeeps(qs);
    var db := Run(qs);
    var es, ids := EventsOf(db.log), db.results.Keys;
    var anchor := StateOf(es, ids, q.command.account);
    InvFolds(es, ids);
    FoldOthersFolds(db.log, map[q.command.account := anchor],
                    Named(q.command, HoldRead(db.log, q.command), OriginalRead(db.log, q.command)));
    ReadsExact(db.log, q.command, anchor);
    RefusalComesFromDecision(db, q, anchor);
    GuardsNeverFire(es, ids, q.command, q.id, q.now, ReadAll(db.log, q.command, anchor).value);
  }

  lemma InvFolds(es: seq<Event>, ids: set<Id>)
    requires L.Inv(es, ids)
    ensures L.StreamsFold(es)
  {}

  // ------------------------------------------------------------ conservation

  /** Sum of the balances of the accounts below `n`. */
  function TotalBalance(es: seq<Event>, n: nat): int {
    if n == 0 then 0 else TotalBalance(es, n - 1) + BalanceSum(OnAccount(es, n - 1))
  }

  lemma {:induction false} TotalAfter(es: seq<Event>, e: Event, n: nat)
    ensures TotalBalance(es + [e], n) == TotalBalance(es, n) + (if e.account < n then BalanceDelta(e) else 0)
  {
    if n > 0 {
      TotalAfter(es, e, n - 1);
      B.StreamPlus(es, e, n - 1);
      if e.account == n - 1 {
        SumsConcat(OnAccount(es, n - 1), [e]);
        B.Singles(e);
      }
    }
  }

  lemma {:induction false} TotalIsSum(es: seq<Event>, n: nat)
    requires forall i :: 0 <= i < |es| ==> es[i].account < n
    ensures TotalBalance(es, n) == BalanceSum(es)
  {
    if es == [] {
      TotalOfNothing(n);
    } else {
      var k := |es| - 1;
      TotalIsSum(es[..k], n);
      TotalAfter(es[..k], es[k], n);
      assert es == es[..k] + [es[k]];
    }
  }

  lemma {:induction false} TotalOfNothing(n: nat)
    ensures TotalBalance([], n) == 0
  {
    if n > 0 { TotalOfNothing(n - 1); }
  }

  /** Conservation: over every run the balances add up to deposits minus withdrawals. */
  lemma MoneyIsConserved(qs: seq<Request>, n: nat)
    requires ValidRun(qs)
    requires forall i :: 0 <= i < |Run(qs).log| ==> Run(qs).log[i].event.account < n
    ensures TotalBalance(EventsOf(Run(qs).log), n) == L.CashTotal(EventsOf(Run(qs).log))
  {
    RunKeeps(qs);
    TotalIsSum(EventsOf(Run(qs).log), n);
  }

  // ------------------------------------------------------------ posting sets

  /** A batch never touches a set that has already moved money. */
  lemma SetsNeverChange(es: seq<Event>, b: seq<Event>, ids: set<Id>, t: Id)
    requires L.Inv(es, ids) && L.GoodBatch(es, b) && Movements(es, t) != []
    ensures OnSet(es + b, t) == OnSet(es, t) && Movements(es + b, t) == Movements(es, t)
  {
    if e :| L.IsCash(b, e) {
      B.SetsAfterCash(es, b);
    } else {
      var u := NewSet(es, b, ids);
      B.SetsAfter(es, b, u);
    }
  }

  /** The set a batch writes: it had no movement legs before. */
  lemma NewSet(es: seq<Event>, b: seq<Event>, ids: set<Id>) returns (u: Id)
    requires L.Inv(es, ids) && L.GoodBatch(es, b) && !exists e :: L.IsCash(b, e)
    ensures L.OneSet(b, u) && Movements(es, u) == []
  {
    if t :| L.IsPosting(es, b, t) {
      B.UnusedHasNoRows(es, t);
      u := t;
    } else if r, t :| L.IsReversal(es, b, r, t) {
      B.UnusedHasNoRows(es, r);
      B.MirroredRows(Movements(es, t), r, t);
      u := r;
    } else if e :| L.IsPlacement(es, b, e) {
      B.UnusedHasNoRows(es, e.holdId);
      u := e.holdId;
    } else if a, hold, amount :| L.IsCapture(es, b, a, hold, amount) {
      B.OpenHasNoMovements(es, a, hold);
      B.CaptureRows(es, b, a, hold, amount);
      u := hold.holdId;
    } else {
      var a, hold, reason :| L.IsRelease(es, b, a, hold, reason);
      B.OpenHasNoMovements(es, a, hold);
      u := hold.holdId;
    }
  }

  /** In every run the legs of a set name distinct accounts and sum to zero. */
  lemma SetsAreBalanced(qs: seq<Request>, t: Id)
    requires ValidRun(qs)
    ensures var legs := Movements(EventsOf(Run(qs).log), t);
            && BalanceSum(legs) == 0
            && forall i, j :: 0 <= i < j < |legs| ==> legs[i].account != legs[j].account
  {
    RunKeeps(qs);
    assert L.Balanced(Movements(EventsOf(Run(qs).log), t));
  }

  /** A command either leaves the log alone or appends the batch of a decision it could make
      on that log. */
  lemma StepAppends(db: Db, q: Request) returns (r: Reads, legs: seq<Numbered>)
    requires DbInv(db) && ValidCommand(q.command) && Execute(db, q).0.log != db.log
    ensures q.id !in db.results && ExactReads(EventsOf(db.log), q.command, r) && Decide(q.command, q.id, q.now, r) == Ok(legs)
    ensures Execute(db, q).0.log == db.log + Stamp(legs, q.firstEventId)
  {
    hide Decide, ExactReads, FoldStream, ReadAll, DbInv, Stamp, AcceptedResult;
    var anchor := FoldStream(db.log, q.command.account);
    ReadsExact(db.log, q.command, anchor.value);
    r := ReadAll(db.log, q.command, anchor.value).value;
    legs := DecideOn(db.log, q.command, q.id, q.now, anchor.value).value;
  }

  lemma StepKeepsSet(db: Db, q: Request, t: Id)
    requires DbInv(db) && ValidCommand(q.command) && Movements(EventsOf(db.log), t) != []
    ensures OnSet(EventsOf(Execute(db, q).0.log), t) == OnSet(EventsOf(db.log), t)
  {
    hide Execute, Decide, ExactReads, L.Inv, Contiguous, L.GoodBatch, OnSet, Movements;
    if Execute(db, q).0.log != db.log {
      var r, legs := StepAppends(db, q);
      DecisionSound(EventsOf(db.log), db.results.Keys, q.command, q.id, q.now, r, legs);
      SetsNeverChange(EventsOf(db.log), EventsOfLegs(legs), db.results.Keys, t);
      EventsConcat(db.log, Stamp(legs, q.firstEventId));
    }
  }

  /** Once a set has committed legs, no later command changes its rows. */
  lemma {:induction false} CommittedSetsAreFinal(qs: seq<Request>, k: nat, t: Id)
    requires ValidRun(qs) && k <= |qs| && Movements(EventsOf(Run(qs[..k]).log), t) != []
    ensures OnSet(EventsOf(Run(qs).log), t) == OnSet(EventsOf(Run(qs[..k]).log), t)
    decreases |qs|
  {
    hide Execute, OnSet, DbInv, MovementLegs;
    if k == |qs| {
      assert qs[..k] == qs;
    } else {
      var n := |qs| - 1;
      assert qs[..n][..k] == qs[..k];
      CommittedSetsAreFinal(qs[..n], k, t);
      RunKeeps(qs[..n]);
      StepKeepsSet(Run(qs[..n]), qs[n], t);
    }
  }

  // ----------------------------------------------------------------- reverts

  /** What a set did to one account. */
  function Effect(es: seq<Event>, t: Id, a: Account): int {
    BalanceSum(OnAccount(Movements(es, t), a))
  }

  lemma {:induction false} MirroredEffect(legs: seq<Event>, r: Id, t: Id, a: Account)
    requires AllMovement(legs)
    ensures BalanceSum(OnAccount(L.Mirrored(legs, r, t), a)) == -BalanceSum(OnAccount(legs, a))
  {
    if legs != [] {
      var n := |legs| - 1;
      MirroredEffect(legs[..n], r, t, a);
      B.MirroredPrefix(legs, r, t);
      B.MirrorNegates(legs[n], r, t);
      var m := L.Mirrored(legs, r, t);
      assert m[n] == MirrorEvent(legs[n], r, t);
      StreamSumLast(m, a);
      StreamSumLast(legs, a);
    }
  }

  lemma StreamSumLast(s: seq<Event>, a: Account)
    requires s != []
    ensures var n := |s| - 1;
            BalanceSum(OnAccount(s, a)) ==
            BalanceSum(OnAccount(s[..n], a)) + (if s[n].account == a then BalanceDelta(s[n]) else 0)
  {
    var n := |s| - 1;
    if s[n].account == a {
      SumsConcat(OnAccount(s[..n], a), [s[n]]);
      B.Singles(s[n]);
    }
  }

  /** Some row of set `r` names `t` as the set it reverts. */
  ghost predicate Reverts(es: seq<Event>, r: Id, t: Id) {
    exists i :: 0 <= i < |es| && SetId(es[i]) == Some(r) && RevertsColumn(es[i]) == Some(t)
  }

  /** A reversal cancels its original on every account, and it is the only one. */
  lemma ReversalCancels(es: seq<Event>, ids: set<Id>, r: Id, t: Id, a: Account)
    requires L.Inv(es, ids) && Reverts(es, r, t)
    ensures Effect(es, r, a) == -Effect(es, t, a)
    ensures forall r' :: Reverts(es, r', t) ==> r' == r
  {
    var i :| 0 <= i < |es| && SetId(es[i]) == Some(r) && RevertsColumn(es[i]) == Some(t);
    assert L.Mirrors(es, r, t);
    MirroredEffect(Movements(es, t), r, t, a);
    forall r' | Reverts(es, r', t) ensures r' == r {
      var j :| 0 <= j < |es| && SetId(es[j]) == Some(r') && RevertsColumn(es[j]) == Some(t);
      assert SetId(es[i]) == SetId(es[j]);
    }
  }

  /** Each set reverts the one before it. */
  ghost predicate Chain(es: seq<Event>, ts: seq<Id>) {
    forall i {:trigger ts[i]} :: 0 < i < |ts| ==> Reverts(es, ts[i], ts[i - 1])
  }

  /** Net effect of the first `k` sets of a chain on one account. */
  function NetEffect(es: seq<Event>, ts: seq<Id>, k: nat, a: Account): int
    requires k <= |ts|
  {
    if k == 0 then 0 else NetEffect(es, ts, k - 1, a) + Effect(es, ts[k - 1], a)
  }

  lemma {:induction false} ChainEffect(es: seq<Event>, ids: set<Id>, ts: seq<Id>, k: nat, a: Account)
    requires L.Inv(es, ids) && Chain(es, ts) && 1 <= k <= |ts|
    ensures Effect(es, ts[k - 1], a) == if k % 2 == 1 then Effect(es, ts[0], a) else -Effect(es, ts[0], a)
    ensures NetEffect(es, ts, k, a) == if k % 2 == 1 then Effect(es, ts[0], a) else 0
  {
    hide L.Inv, Effect, Reverts;
    if k > 1 {
      ChainEffect(es, ids, ts, k - 1, a);
      ReversalCancels(es, ids, ts[k - 1], ts[k - 2], a);
    }
  }

  /** A set followed by k successive reverts: net zero for odd k, the original for even k. */
  lemma RevertChains(qs: seq<Request>, ts: seq<Id>, a: Account)
    requires ValidRun(qs) && ts != [] && Chain(EventsOf(Run(qs).log), ts)
    ensures var es := EventsOf(Run(qs).log);
            NetEffect(es, ts, |ts|, a) == if (|ts| - 1) % 2 == 0 then Effect(es, ts[0], a) else 0
  {
    hide L.Inv, Run, Chain, NetEffect, Effect;
    RunKeeps(qs);
    ChainEffect(EventsOf(Run(qs).log), Run(qs).results.Keys, ts, |ts|, a);
  }

  // --------------------------------------------------------- accepted results

  /** What an accepted command appended and answered. */
  lemma AcceptedRows(db: Db, q: Request) returns (rows: seq<Row>)
    requires Execute(db, q).1.Decided? && Execute(db, q).1.stored.outcome.Accepted?
    ensures Execute(db, q).0.log == db.log + rows
    ensures Addressed(rows, q.command.account).Some?
    ensures var row := Addressed(rows, q.command.account).value;
            Execute(db, q).1.stored.outcome == Accepted(row.seqNo, row.eventId, PostingsOf(rows))
  {
    hide DecideOn, FoldStream, Stamp, Addressed, PostingsOf;
    var anchor := FoldStream(db.log, q.command.account);
    rows := Stamp(DecideOn(db.log, q.command, q.id, q.now, anchor.value).value, q.firstEventId);
  }

  /** The postings of a batch appended to a contiguous log name exactly the written streams,
      each with its new length. */
  lemma PostingsAreExact(log: seq<Row>, rows: seq<Row>, a: Account)
    requires Contiguous(log + rows)
    ensures forall p :: p in PostingsOf(rows) && p.account == a ==>
              && p.committedVersion == |Stream(log + rows, a)|
              && Addressed(log + rows, a).Some? && p.eventId == Addressed(log + rows, a).value.eventId
    ensures Stream(log + rows, a) != Stream(log, a) ==> exists p :: p in PostingsOf(rows) && p.account == a
  {
    hide Contiguous, Stream, PostingsOf, Addressed;
    PostingsSpec(rows);
    AddressedConcat(log, rows, a);
    LastRowIsLength(log + rows, a);
    if Stream(log + rows, a) != Stream(log, a) {
      StreamAfter(log, rows, a);
      AddressedIfOnStream(rows, a);
      assert Stream(log, a) + [] == Stream(log, a);
      var row := Addressed(rows, a).value;
      assert Posting(a, row.eventId, row.seqNo) in PostingsOf(rows);
    }
  }

  /** An accepted command: one posting per written stream, each committed version equal to
      the new length of its stream, and the result names the addressed stream's last event. */
  lemma AcceptedResultIsExact(qs: seq<Request>, q: Request)
    requires ValidRun(qs) && ValidCommand(q.command)
    requires Execute(Run(qs), q).1.Decided? && Execute(Run(qs), q).1.stored.outcome.Accepted?
    ensures var db' := Execute(Run(qs), q).0;
            var outcome := Execute(Run(qs), q).1.stored.outcome;
            && DistinctPostings(outcome.postings)
            && Posting(q.command.account, outcome.eventId, outcome.committedVersion) in outcome.postings
            && (forall p :: p in outcome.postings ==>
                  && p.committedVersion == |Stream(db'.log, p.account)|
                  && Addressed(db'.log, p.account).Some? && p.eventId == Addressed(db'.log, p.account).value.eventId)
            && (forall i, j :: 0 <= i < j < |outcome.postings| ==> outcome.postings[i].account < outcome.postings[j].account)
            && (forall a :: Stream(db'.log, a) != Stream(Run(qs).log, a) ==>
                  exists p :: p in outcome.postings && p.account == a)
  {
    hide Execute, L.Inv, Run, Contiguous, Stream, PostingsOf, Addressed, DistinctPostings;
    RunKeeps(qs);
    var db := Run(qs);
    ExecuteKeeps(db, q);
    var rows := AcceptedRows(db, q);
    PostingsSpec(rows);
    AcceptedAscend(db, q, rows);
    PostingsAscend(rows);
    forall a { PostingsAreExact(db.log, rows, a); }
  }

  ghost predicate RowsAscend(rows: seq<Row>) {
    forall i, j :: 0 <= i < j < |rows| ==> rows[i].event.account <= rows[j].event.account
  }

  lemma AcceptedAscend(db: Db, q: Request, rows: seq<Row>)
    requires DbInv(db) && ValidCommand(q.command) && Execute(db, q).0.log == db.log + rows
    ensures RowsAscend(rows)
  {
    hide Execute, Decide, DecideEvents, ExactReads, DbInv, IsNumbering, Sufficient;
    if rows != [] {
      assert (db.log + rows)[|db.log|..] == rows;
      var r, legs := StepAppends(db, q);
      var stamped := Stamp(legs, q.firstEventId);
      assert (db.log + stamped)[|db.log|..] == stamped;
      ReadsSuffice(EventsOf(db.log), q.command, r);
      DecideNumbers(q.command, q.id, q.now, r, legs);
      forall i, j | 0 <= i < j < |rows| ensures rows[i].event.account <= rows[j].event.account {
        assert KeyBefore(legs[i], legs[j]);
      }
    }
  }

  lemma ReadsSuffice(es: seq<Event>, c: Command, r: Reads)
    requires ExactReads(es, c, r)
    ensures Sufficient(c, r)
  {}

  lemma {:induction false} PutLast(ps: seq<Posting>, p: Posting)
    requires forall i :: 0 <= i < |ps| ==> ps[i].account != p.account
    ensures PutPosting(ps, p) == ps + [p]
  {
    if ps != [] { PutLast(ps[..|ps| - 1], p); }
  }

  /** The postings come in the order in which their streams were written. */
  lemma {:induction false} PostingsAscend(rows: seq<Row>)
    requires RowsAscend(rows)
    ensures var ps := PostingsOf(rows);
            && (forall i, j :: 0 <= i < j < |ps| ==> ps[i].account < ps[j].account)
            && (rows != [] ==> ps != [] && ps[|ps| - 1].account == rows[|rows| - 1].event.account)
  {
    if rows != [] {
      var n := |rows| - 1;
      var row := rows[n];
      PostingsAscend(rows[..n]);
      var before := PostingsOf(rows[..n]);
      var p := Posting(row.event.account, row.eventId, row.seqNo);
      if before == [] || before[|before| - 1].account != p.account { PutLast(before, p); }
    }
  }

  // ------------------------------------------------------------- idempotence

  /** The requests of a run whose id was not decided yet when they arrived. */
  function FirstSubmissions(qs: seq<Request>): seq<Request> {
    if qs == [] then []
    else
      var n := |qs| - 1;
      var before := FirstSubmissions(qs[..n]);
      if qs[n].id in Run(qs[..n]).results then before else before + [qs[n]]
  }

  /** The answers of a run, in order. */
  function Answers(qs: seq<Request>): (r: seq<Answer>)
    ensures |r| == |qs|
  {
    if qs == [] then [] else Answers(qs[..|qs| - 1]) + [Execute(Run(qs[..|qs| - 1]), qs[|qs| - 1]).1]
  }

  /** The answers to the first submissions. */
  function FirstAnswers(qs: seq<Request>): seq<Answer> {
    if qs == [] then []
    else
      var n := |qs| - 1;
      var before := FirstAnswers(qs[..n]);
      if qs[n].id in Run(qs[..n]).results then before else before + [Execute(Run(qs[..n]), qs[n]).1]
  }

  /** A resubmission, same or different, leaves the database alone. */
  lemma ResubmissionIsInert(db: Db, q: Request)
    requires q.id in db.results
    ensures Execute(db, q).0 == db
    ensures db.results[q.id].command == q.command && db.results[q.id].caller == q.caller ==>
              Execute(db, q).1 == Replayed(db.results[q.id])
    ensures !(db.results[q.id].command == q.command && db.results[q.id].caller == q.caller) && DbInv(db) ==>
              Execute(db, q).1 == IdConflict(|Stream(db.log, q.command.account)|)
  {
    if DbInv(db) {
      var s := StateOf(EventsOf(db.log), db.results.Keys, q.command.account);
    }
  }

  /** Erasing every resubmission of a decided id leaves the database and all first answers
      unchanged, and nothing is left to erase. */
  lemma {:induction false} ErasingResubmissions(qs: seq<Request>)
    ensures Run(FirstSubmissions(qs)) == Run(qs)
    ensures Answers(FirstSubmissions(qs)) == FirstAnswers(qs)
    ensures FirstSubmissions(FirstSubmissions(qs)) == FirstSubmissions(qs)
  {
    if qs != [] {
      var n := |qs| - 1;
      var before := FirstSubmissions(qs[..n]);
      ErasingResubmissions(qs[..n]);
      if qs[n].id in Run(qs[..n]).results {
        ResubmissionIsInert(Run(qs[..n]), qs[n]);
      } else {
        assert (before + [qs[n]])[..|before|] == before;
      }
    }
  }
}
