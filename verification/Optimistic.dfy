/** The PostgreSQL unit of work as a machine of READ COMMITTED steps.

    Every read of a transaction sees the committed log of its own moment. Inserting a row or
    a result takes its unique key: a key another open transaction holds makes the insert wait,
    a committed key raises UniqueViolation and the attempt starts over. Commit publishes all
    rows and the result at once. */
module Optimistic {
  import opened Events
  import opened Accounts
  import opened Views
  import opened Commands
  import opened Execution

  /** `UNIQUE (stream, seq)` and the primary key of the results table. */
  datatype Key = RowKey(account: Account, seqNo: int) | IdKey(id: Id)

  datatype Phase =
    | Begin
    | FoldAnchor(reused: bool)
    | ReadTarget(anchor: AccountState)
    | FoldNext(seen: Reads, k: nat)
    | Writing(seen: Reads, rows: seq<Row>, stored: Stored, taken: nat)
    | Answered(answer: Answer)
    | Raised
    | Cancelled

  datatype Txn = Txn(request: Request, attempt: nat, phase: Phase)

  /** Answered, out of attempts, or cut off from outside. */
  predicate Finished(t: Txn) { t.phase.Answered? || t.phase.Raised? || t.phase.Cancelled? }

  datatype Sys = Sys(db: Db, txns: seq<Txn>)

  /** A step carries what the environment supplies: the clock and fresh event ids. */
  datatype Action =
    | Submit(request: Request)
    | Step(i: nat, now: int, firstEventId: Id)
    | Abort(i: nat)

  const MAX_RACE_RETRIES := 2

  // ------------------------------------------------------------------- keys

  ghost predicate Committed(db: Db, key: Key) {
    match key
    case RowKey(a, v) => exists i :: 0 <= i < |db.log| && db.log[i].event.account == a && db.log[i].seqNo == v
    case IdKey(id) => id in db.results
  }

  function KeyOf(row: Row): Key { RowKey(row.event.account, row.seqNo) }

  /** The keys a transaction has inserted and not yet published. */
  ghost predicate Holds(t: Txn, key: Key) {
    && t.phase.Writing?
    && match key
       case RowKey(_, _) => exists n :: 0 <= n < |t.phase.rows| && n < t.phase.taken && KeyOf(t.phase.rows[n]) == key
       case IdKey(id) => t.phase.taken > |t.phase.rows| && id == t.request.id
  }

  /** The key the next insert of a writing transaction needs. */
  function NextKey(t: Txn): Key
    requires t.phase.Writing?
  {
    if t.phase.taken < |t.phase.rows| then KeyOf(t.phase.rows[t.phase.taken]) else IdKey(t.request.id)
  }

  ghost predicate WaitsFor(sys: Sys, i: nat, j: nat) {
    && i < |sys.txns| && j < |sys.txns| && i != j
    && sys.txns[i].phase.Writing? && sys.txns[i].phase.taken <= |sys.txns[i].phase.rows|
    && Holds(sys.txns[j], NextKey(sys.txns[i]))
  }

  // ------------------------------------------------------------------ shape

  function NamedOf(t: Txn): seq<Account>
    requires t.phase.FoldNext?
  {
    Named(t.request.command, t.phase.seen.hold, t.phase.seen.original)
  }

  /** How far a transaction has folded the streams it names. */
  ghost predicate Shape(t: Txn) {
    t.phase.FoldNext? ==>
      && t.request.command.account in t.phase.seen.states
      && t.phase.k <= |NamedOf(t)|
      && forall n :: 0 <= n < t.phase.k ==> NamedOf(t)[n] in t.phase.seen.states
  }

  ghost predicate Shaped(sys: Sys) {
    forall i :: 0 <= i < |sys.txns| ==> Shape(sys.txns[i])
  }

  lemma AllFolded(t: Txn, seen: Reads)
    requires Shape(t) && t.phase.FoldNext? && t.phase.k == |NamedOf(t)|
    requires seen == t.phase.seen.(revertedBy := seen.revertedBy)
    ensures Sufficient(t.request.command, seen)
  {}

  // ------------------------------------------------------------------ steps

  function Refuse(t: Txn, seen: Reads, version: int, outcome: Outcome): Txn {
    t.(phase := Writing(seen, [], Refusal(t.request, version, outcome), 0))
  }

  /** The decision made: write the legs, write the refusal, or roll back. */
  function Conclude(t: Txn, seen: Reads, version: int, decision: Result<seq<Numbered>>): Txn {
    match decision
    case Err(Crashed) => t.(phase := Answered(RolledBack))
    case Err(Refused(error)) => Refuse(t, seen, version, Rejected(error))
    case Ok(legs) =>
      var rows := Stamp(legs, t.request.firstEventId);
      var stored := AcceptedResult(t.request, version, rows);
      if stored.None? then t.(phase := Answered(RolledBack))
      else t.(phase := Writing(seen, rows, stored.value, 0))
  }

  /** One read of the committed database, and the local computation that follows it. */
  ghost function Read(db: Db, t: Txn, now: int, firstEventId: Id): (r: Txn)
    requires Shape(t) && (t.phase.Begin? || t.phase.FoldAnchor? || t.phase.ReadTarget? || t.phase.FoldNext?)
    ensures Shape(r) && r.request.command == t.request.command
  {
    var c := t.request.command;
    match t.phase
    case Begin =>
      if t.request.id !in db.results then t.(phase := FoldAnchor(false))
      else
        var stored := db.results[t.request.id];
        if stored.command == c && stored.caller == t.request.caller then t.(phase := Answered(Replayed(stored)))
        else t.(phase := FoldAnchor(true))
    case FoldAnchor(reused) =>
      (match FoldStream(db.log, c.account)
       case Err(_) => t.(phase := Answered(RolledBack))
       case Ok(s) =>
         var t' := t.(request := t.request.(now := now, firstEventId := firstEventId));
         if reused then t'.(phase := Answered(IdConflict(s.version)))
         else if c.expectedVersion != s.version then
           Refuse(t', Reads(map[c.account := s], None, [], None), s.version, VersionConflict)
         else t'.(phase := ReadTarget(s)))
    case ReadTarget(anchor) =>
      t.(phase := FoldNext(Reads(map[c.account := anchor], HoldRead(db.log, c), OriginalRead(db.log, c), None), 0))
    case FoldNext(seen, k) =>
      var version := seen.states[c.account].version;
      if k == |NamedOf(t)| then
        var all := seen.(revertedBy := RevertedByRead(db.log, c));
        AllFolded(t, all);
        Conclude(t, all, version, Decide(c, t.request.id, t.request.now, all))
      else if NamedOf(t)[k] in seen.states then t.(phase := FoldNext(seen, k + 1))
      else
        match FoldStream(db.log, NamedOf(t)[k])
        case Err(f) => Conclude(t, seen, version, Err(f))
        case Ok(s) => t.(phase := FoldNext(seen.(states := seen.states[NamedOf(t)[k] := s]), k + 1))
  }

  /** UniqueViolation: roll back and start over on a fresh fold, at most twice. */
  function Restart(t: Txn): Txn {
    if t.attempt > MAX_RACE_RETRIES then t.(phase := Raised) else t.(attempt := t.attempt + 1, phase := Begin)
  }

  function Published(db: Db, t: Txn): Db
    requires t.phase.Writing?
  {
    Db(db.log + t.phase.rows, db.results[t.request.id := t.phase.stored])
  }

  ghost function Do(sys: Sys, act: Action): (r: Sys)
    requires Shaped(sys)
    ensures Shaped(r)
  {
    match act
    case Submit(q) => if ValidCommand(q.command) then Sys(sys.db, sys.txns + [Txn(q, 1, Begin)]) else sys
    case Abort(i) =>
      if i < |sys.txns| && !Finished(sys.txns[i]) then Sys(sys.db, sys.txns[i := sys.txns[i].(phase := Cancelled)])
      else sys
    case Step(i, now, firstEventId) =>
      if i >= |sys.txns| || Finished(sys.txns[i]) then sys
      else if !sys.txns[i].phase.Writing? then
        Sys(sys.db, sys.txns[i := Read(sys.db, sys.txns[i], now, firstEventId)])
      else
        var t := sys.txns[i];
        if t.phase.taken > |t.phase.rows| then
          Sys(Published(sys.db, t), sys.txns[i := t.(phase := Answered(Decided(t.phase.stored)))])
        else if Committed(sys.db, NextKey(t)) then Sys(sys.db, sys.txns[i := Restart(t)])
        else if exists j :: WaitsFor(sys, i, j) then sys
        else Sys(sys.db, sys.txns[i := t.(phase := t.phase.(taken := t.phase.taken + 1))])
  }

  /** The system after a sequence of actions, in any interleaving. */
  ghost function Concurrent(acts: seq<Action>): (r: Sys)
    ensures Shaped(r)
  {
    if acts == [] then Sys(EMPTY_DB, []) else Do(Concurrent(acts[..|acts| - 1]), acts[|acts| - 1])
  }
}
