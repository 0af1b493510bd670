/** The storage-agnostic command decision and its serial execution.

    `Decide` is the decision over values already read; `Execute` reads them all from
    one log and is what the SQLite unit of work does inside BEGIN IMMEDIATE. */
module Execution {
  import opened Events
  import opened Accounts
  import opened Views
  import opened Commands

  // ------------------------------------------------------------ numbering

  /** One event with the stream version it will be stored under. */
  datatype Numbered = Numbered(event: Event, version: int)

  function EventsOfLegs(legs: seq<Numbered>): (r: seq<Event>)
    ensures |r| == |legs|
    ensures forall i :: 0 <= i < |legs| ==> r[i] == legs[i].event
  {
    seq(|legs|, i requires 0 <= i < |legs| => legs[i].event)
  }

  /** Insert after every leg whose account is not larger, so equal accounts keep their order. */
  function InsertLeg(sorted: seq<Numbered>, x: Numbered): (r: seq<Numbered>)
    ensures |r| == |sorted| + 1
  {
    if sorted == [] || sorted[|sorted| - 1].event.account <= x.event.account then sorted + [x]
    else InsertLeg(sorted[..|sorted| - 1], x) + [sorted[|sorted| - 1]]
  }

  /** Stable sort by account id. */
  function SortLegs(legs: seq<Numbered>): (r: seq<Numbered>)
    ensures |r| == |legs|
  {
    if legs == [] then [] else InsertLeg(SortLegs(legs[..|legs| - 1]), legs[|legs| - 1])
  }

  /** The first `k` events numbered and sorted: the j-th event of a stream in this batch
      gets the stream's version plus j. */
  function NumberTo(states: map<Account, AccountState>, events: seq<Event>, k: nat): (r: seq<Numbered>)
    requires CoversEvents(states, events) && k <= |events|
  {
    if k == 0 then []
    else
      var e := events[k - 1];
      InsertLeg(NumberTo(states, events, k - 1),
                Numbered(e, states[e.account].version + |OnAccount(events[..k], e.account)|))
  }

  function NumberLegs(states: map<Account, AccountState>, events: seq<Event>): seq<Numbered>
    requires CoversEvents(states, events)
  {
    NumberTo(states, events, |events|)
  }

  lemma OnAccountGrows(events: seq<Event>, i: nat)
    requires i < |events|
    ensures forall a :: |OnAccount(events[..i + 1], a)| ==
                        |OnAccount(events[..i], a)| + (if events[i].account == a then 1 else 0)
  {
    assert events[..i + 1][..i] == events[..i];
  }

  /** The source's loop over a dictionary of next versions. */
  method NumberLegsLoop(states: map<Account, AccountState>, events: seq<Event>) returns (legs: seq<Numbered>)
    requires CoversEvents(states, events)
    ensures legs == NumberLegs(states, events)
  {
    hide OnAccount, InsertLeg;
    NothingNumbered(states, events);
    var nextVersion := map a | a in states :: states[a].version;
    var numbered: seq<Numbered> := [];
    for i := 0 to |events|
      invariant nextVersion.Keys == states.Keys
      invariant forall a :: a in states ==> nextVersion[a] == states[a].version + |OnAccount(events[..i], a)|
      invariant SortLegs(numbered) == NumberTo(states, events, i)
    {
      var a := events[i].account;
      var v := nextVersion[a] + 1;
      OnAccountGrows(events, i);
      nextVersion := nextVersion[a := v];
      NumberToGrows(states, events, i, numbered, v);
      numbered := numbered + [Numbered(events[i], v)];
    }
    legs := SortLegs(numbered);
  }

  lemma NothingNumbered(states: map<Account, AccountState>, events: seq<Event>)
    requires CoversEvents(states, events)
    ensures forall a :: OnAccount(events[..0], a) == []
    ensures SortLegs([]) == NumberTo(states, events, 0)
  {}

  lemma NumberToGrows(states: map<Account, AccountState>, events: seq<Event>, i: nat, numbered: seq<Numbered>, v: int)
    requires CoversEvents(states, events) && i < |events|
    requires SortLegs(numbered) == NumberTo(states, events, i)
    requires v == states[events[i].account].version + |OnAccount(events[..i + 1], events[i].account)|
    ensures SortLegs(numbered + [Numbered(events[i], v)]) == NumberTo(states, events, i + 1)
  {
    SortAppended(numbered, Numbered(events[i], v));
  }

  lemma SortAppended(legs: seq<Numbered>, x: Numbered)
    ensures SortLegs(legs + [x]) == InsertLeg(SortLegs(legs), x)
  {
    assert (legs + [x])[..|legs|] == legs;
  }

  // ------------------------------------------------------------- decision

  /** Everything a decision reads besides the stored result. */
  datatype Reads = Reads(states: map<Account, AccountState>, hold: Option<OpenHold>,
                         original: seq<Event>, revertedBy: Option<Id>)

  function HoldIdOf(c: Command): Option<Id> {
    if c.PostHold? || c.VoidHold? || c.ExpireHold? then Some(c.holdId) else None
  }

  /** The accounts whose streams the decision folds, the anchor included. */
  function Named(c: Command, hold: Option<OpenHold>, original: seq<Event>): seq<Account> {
    match c
    case Transfer(a, target, _, _) => [a, target]
    case Post(_, legs, _) => seq(|legs|, i requires 0 <= i < |legs| => legs[i].account)
    case PostHold(_, _, _, _) => if hold.Some? then [hold.value.counterparty] else []
    case Revert(_, _, _) => seq(|original|, i requires 0 <= i < |original| => original[i].account)
    case _ => []
  }

  ghost predicate Sufficient(c: Command, r: Reads) {
    && c.account in r.states
    && forall a :: a in Named(c, r.hold, r.original) ==> a in r.states
  }

  /** The events a valid command appends, before numbering. */
  function DecideEvents(c: Command, id: Id, now: int, r: Reads): Result<seq<Event>>
    requires Sufficient(c, r)
  {
    var s := r.states[c.account];
    match c
    case Deposit(a, amount, _) => Single(DecideCash(s, a, amount, true))
    case Withdraw(a, amount, _) => Single(DecideCash(s, a, amount, false))
    case Transfer(a, _, _, _) => NamedCovers(c, r); DecidePostings(r.states, a, LegsOf(c), id)
    case Post(a, _, _) => NamedCovers(c, r); DecidePostings(r.states, a, LegsOf(c), id)
    case Hold(a, target, amount, _, ttl) => Single(DecideHold(s, a, target, amount, ttl, id, now))
    case PostHold(a, h, _, capture) =>
      var target := if r.hold.Some? then (NamedCovers(c, r); r.states[r.hold.value.counterparty]) else s;
      DecidePostHold(s, target, r.hold, a, h, capture, now)
    case VoidHold(a, h, _) => Single(DecideReleaseHold(s, r.hold, a, h, false, now))
    case ExpireHold(a, h, _) => Single(DecideReleaseHold(s, r.hold, a, h, true, now))
    case Revert(a, t, _) => NamedCovers(c, r); DecideRevert(r.states, r.original, a, id, t, r.revertedBy)
  }

  function Single(r: Result<Event>): Result<seq<Event>> {
    match r case Err(f) => Err(f) case Ok(e) => Ok([e])
  }

  lemma NamedCovers(c: Command, r: Reads)
    requires Sufficient(c, r)
    ensures c.Transfer? || c.Post? ==> Covers(r.states, LegsOf(c))
    ensures c.PostHold? && r.hold.Some? ==> r.hold.value.counterparty in r.states
    ensures c.Revert? ==> CoversEvents(r.states, r.original)
  {
    var named := Named(c, r.hold, r.original);
    if c.Transfer? || c.Post? {
      var legs := LegsOf(c);
      forall i | 0 <= i < |legs| ensures legs[i].account in r.states { assert legs[i].account == named[i]; }
    } else if c.Revert? {
      forall i | 0 <= i < |r.original| ensures r.original[i].account in r.states {
        assert r.original[i].account == named[i];
      }
    } else if c.PostHold? && r.hold.Some? {
      assert r.hold.value.counterparty == named[0];
    }
  }

  /** Every event lands on a stream that was folded. */
  lemma EventsCovered(c: Command, id: Id, now: int, r: Reads)
    requires Sufficient(c, r) && DecideEvents(c, id, now, r).Ok?
    ensures CoversEvents(r.states, DecideEvents(c, id, now, r).value)
  {
    NamedCovers(c, r);
    if c.Transfer? || c.Post? {
      PostingEventsShape(LegsOf(c), c.account, id, |LegsOf(c)|);
    } else if c.Revert? {
      var legs := MovementLegs(r.original);
      MovementCovered(r.states, r.original);
      MirrorShape(r.states, legs, id, c.transferId);
    }
  }

  /** One event per leg, on the leg's account, with its amount and direction. */
  lemma {:induction false} PostingEventsShape(legs: seq<Leg>, anchor: Account, id: Id, k: nat)
    requires k <= |legs| && PostingEvents(legs, anchor, id, k).Ok?
    ensures var es := PostingEvents(legs, anchor, id, k).value;
            && |es| == k
            && forall i :: 0 <= i < k ==>
                 && ValidEvent(es[i]) && SetId(es[i]) == Some(id) && IsMovement(es[i]) && RevertsColumn(es[i]) == None
                 && !IsHoldEvent(es[i])
                 && es[i].account == legs[i].account && es[i].amount == legs[i].amount
                 && BalanceDelta(es[i]) == (if legs[i].direction == Debit then -legs[i].amount else legs[i].amount)
  {
    if k > 0 { PostingEventsShape(legs, anchor, id, k - 1); }
  }

  /** The mirrored legs are the originals with the direction turned, in order. */
  lemma {:induction false} MirrorShape(states: map<Account, AccountState>, legs: seq<Event>, id: Id, t: Id)
    requires AllMovement(legs) && CoversEvents(states, legs) && MirrorLegs(states, legs, id, t).Ok?
    ensures var es := MirrorLegs(states, legs, id, t).value;
            && |es| == |legs|
            && forall i :: 0 <= i < |legs| ==> es[i] == MirrorEvent(legs[i], id, t) && ValidEvent(es[i])
  {
    if legs != [] { MirrorShape(states, legs[..|legs| - 1], id, t); }
  }

  /** The numbered legs of a command; a version past the range fails in the envelope. */
  function Decide(c: Command, id: Id, now: int, r: Reads): Result<seq<Numbered>>
    requires Sufficient(c, r)
  {
    match DecideEvents(c, id, now, r)
    case Err(f) => Err(f)
    case Ok(events) =>
      EventsCovered(c, id, now, r);
      var legs := NumberLegs(r.states, events);
      if exists i :: 0 <= i < |legs| && legs[i].version > MAX_BIGINT then Err(Crashed) else Ok(legs)
  }

  // ---------------------------------------------------------------- store

  /** A stored event row. `eventId` stands for the UUID drawn by the id factory. */
  datatype Row = Row(eventId: Id, seqNo: int, event: Event)

  datatype Posting = Posting(account: Account, eventId: Id, committedVersion: int)

  datatype Outcome =
    | Accepted(committedVersion: int, eventId: Id, postings: seq<Posting>)
    | VersionConflict
    | Rejected(error: DomainError)

  /** The persisted result; the request hash is the hashed request itself. */
  datatype Stored = Stored(command: Command, caller: Id, currentVersion: int, outcome: Outcome)

  datatype Db = Db(log: seq<Row>, results: map<Id, Stored>)

  const EMPTY_DB := Db([], map[])

  /** One request with the clock reading and the first of the fresh event ids it draws. */
  datatype Request = Request(id: Id, command: Command, caller: Id, now: int, firstEventId: Id)

  datatype Answer =
    | Replayed(stored: Stored)
    | IdConflict(currentVersion: int)
    | Decided(stored: Stored)
    | RolledBack

  function EventsOf(log: seq<Row>): (r: seq<Event>)
    ensures |r| == |log|
    ensures forall i :: 0 <= i < |log| ==> r[i] == log[i].event
  {
    seq(|log|, i requires 0 <= i < |log| => log[i].event)
  }

  function Stream(log: seq<Row>, a: Account): seq<Event> { OnAccount(EventsOf(log), a) }

  function FoldStream(log: seq<Row>, a: Account): Result<AccountState> { Fold(Stream(log, a)) }

  /** The rows of a batch: consecutive fresh ids in append order. */
  function Stamp(legs: seq<Numbered>, first: Id): (rows: seq<Row>)
    ensures |rows| == |legs|
    ensures EventsOf(rows) == EventsOfLegs(legs)
    ensures forall i :: 0 <= i < |legs| ==> rows[i] == Row(first + i, legs[i].version, legs[i].event)
  {
    seq(|legs|, i requires 0 <= i < |legs| => Row(first + i, legs[i].version, legs[i].event))
  }

  /** A dictionary keyed by account in insertion order: replace in place or append. */
  function PutPosting(ps: seq<Posting>, p: Posting): (r: seq<Posting>)
    ensures |ps| <= |r| <= |ps| + 1
  {
    if ps == [] then [p]
    else if ps[|ps| - 1].account == p.account then ps[..|ps| - 1] + [p]
    else
      var before := PutPosting(ps[..|ps| - 1], p);
      if |before| == |ps| - 1 then before + [ps[|ps| - 1]] else ps + [p]
  }

  /** One posting per written stream, naming its last event. */
  function PostingsOf(rows: seq<Row>): seq<Posting> {
    if rows == [] then []
    else
      var row := rows[|rows| - 1];
      PutPosting(PostingsOf(rows[..|rows| - 1]), Posting(row.event.account, row.eventId, row.seqNo))
  }

  /** The last row written on the addressed stream. */
  function Addressed(rows: seq<Row>, a: Account): (r: Option<Row>)
    ensures r.Some? ==> r.value in rows && r.value.event.account == a
  {
    if rows == [] then None
    else if rows[|rows| - 1].event.account == a then Some(rows[|rows| - 1])
    else Addressed(rows[..|rows| - 1], a)
  }

  // ---------------------------------------------------- serial execution

  /** The folds of the named streams that are not folded yet, in order. */
  function FoldOthers(log: seq<Row>, states: map<Account, AccountState>, accounts: seq<Account>)
    : Result<map<Account, AccountState>>
  {
    if accounts == [] then Ok(states)
    else
      var n := |accounts| - 1;
      match FoldOthers(log, states, accounts[..n])
      case Err(f) => Err(f)
      case Ok(m) =>
        if accounts[n] in m then Ok(m)
        else match FoldStream(log, accounts[n])
             case Err(f) => Err(f)
             case Ok(s) => Ok(m[accounts[n] := s])
  }

  function HoldRead(log: seq<Row>, c: Command): Option<OpenHold> {
    if HoldIdOf(c).Some? then OpenHoldOf(HoldIdOf(c).value, Stream(log, c.account)) else None
  }

  function OriginalRead(log: seq<Row>, c: Command): seq<Event> {
    if c.Revert? then OnSet(EventsOf(log), c.transferId) else []
  }

  function RevertedByRead(log: seq<Row>, c: Command): Option<Id> {
    if c.Revert? then RevertedBy(EventsOf(log), c.transferId) else None
  }

  /** Everything the decision needs, read from one log. */
  function ReadAll(log: seq<Row>, c: Command, anchor: AccountState): Result<Reads> {
    var hold := HoldRead(log, c);
    var original := OriginalRead(log, c);
    match FoldOthers(log, map[c.account := anchor], Named(c, hold, original))
    case Err(f) => Err(f)
    case Ok(states) => Ok(Reads(states, hold, original, RevertedByRead(log, c)))
  }

  lemma {:induction false} FoldOthersCovers(log: seq<Row>, states: map<Account, AccountState>, accounts: seq<Account>)
    requires FoldOthers(log, states, accounts).Ok?
    ensures var m := FoldOthers(log, states, accounts).value;
            && states.Keys <= m.Keys
            && (forall a :: a in accounts ==> a in m)
            && (forall a :: a in states ==> m[a] == states[a])
            && (forall a :: a in m && a !in states ==> FoldStream(log, a) == Ok(m[a]))
            && (forall a :: a in m ==> a in states || a in accounts)
  {
    if accounts != [] { FoldOthersCovers(log, states, accounts[..|accounts| - 1]); }
  }

  lemma ReadAllSufficient(log: seq<Row>, c: Command, anchor: AccountState)
    ensures ReadAll(log, c, anchor).Ok? ==> Sufficient(c, ReadAll(log, c, anchor).value)
  {
    if ReadAll(log, c, anchor).Ok? {
      FoldOthersCovers(log, map[c.account := anchor], Named(c, HoldRead(log, c), OriginalRead(log, c)));
    }
  }

  /** The whole decision read atomically from one log. */
  function DecideOn(log: seq<Row>, c: Command, id: Id, now: int, anchor: AccountState): Result<seq<Numbered>> {
    match ReadAll(log, c, anchor)
    case Err(f) => Err(f)
    case Ok(r) => ReadAllSufficient(log, c, anchor); Decide(c, id, now, r)
  }

  /** The accepted result; a command that wrote nothing on its own stream raises. */
  function AcceptedResult(q: Request, version: int, rows: seq<Row>): Option<Stored> {
    var addressed := Addressed(rows, q.command.account);
    if addressed.None? then None
    else Some(Stored(q.command, q.caller, version,
                     Accepted(addressed.value.seqNo, addressed.value.eventId, PostingsOf(rows))))
  }

  function Refusal(q: Request, version: int, outcome: Outcome): Stored {
    Stored(q.command, q.caller, version, outcome)
  }

  /** One serial command: the new database and the answer. */
  function Execute(db: Db, q: Request): (r: (Db, Answer)) {
    var anchor := FoldStream(db.log, q.command.account);
    if q.id in db.results && db.results[q.id].command == q.command && db.results[q.id].caller == q.caller then
      (db, Replayed(db.results[q.id]))
    else if anchor.Err? then (db, RolledBack)
    else
      var version := anchor.value.version;
      if q.id in db.results then (db, IdConflict(version))
      else if q.command.expectedVersion != version then
        Record(db, q.id, Refusal(q, version, VersionConflict))
      else match DecideOn(db.log, q.command, q.id, q.now, anchor.value)
           case Err(Crashed) => (db, RolledBack)
           case Err(Refused(error)) => Record(db, q.id, Refusal(q, version, Rejected(error)))
           case Ok(legs) => Commit(db, q, version, legs)
  }

  function Record(db: Db, id: Id, stored: Stored): (Db, Answer) {
    (Db(db.log, db.results[id := stored]), Decided(stored))
  }

  function Commit(db: Db, q: Request, version: int, legs: seq<Numbered>): (Db, Answer) {
    var rows := Stamp(legs, q.firstEventId);
    var stored := AcceptedResult(q, version, rows);
    if stored.None? then (db, RolledBack)
    else (Db(db.log + rows, db.results[q.id := stored.value]), Decided(stored.value))
  }
}
