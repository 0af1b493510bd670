/** Serial runs of the unit of work: what every reachable database satisfies. */
module Runs {
  import opened Events
  import opened Accounts
  import opened Views
  import opened Commands
  import opened Execution
  import opened Numbering
  import opened Soundness
  import L = Ledger
  import B = Batches

  /** Every row's sequence number is its position in its own stream. */
  ghost predicate Contiguous(log: seq<Row>) {
    log == [] ||
    var row := log[|log| - 1];
    Contiguous(log[..|log| - 1]) && row.seqNo == |Stream(log, row.event.account)|
  }

  ghost predicate DbInv(db: Db) {
    L.Inv(EventsOf(db.log), db.results.Keys) && Contiguous(db.log)
  }

  // --------------------------------------------------------------- appending

  lemma EventsConcat(s: seq<Row>, t: seq<Row>)
    ensures EventsOf(s + t) == EventsOf(s) + EventsOf(t)
  {}

  lemma ContiguousPlus(log: seq<Row>, row: Row)
    requires Contiguous(log) && row.seqNo == |Stream(log, row.event.account)| + 1
    ensures Contiguous(log + [row])
  {
    assert (log + [row])[..|log|] == log;
    EventsConcat(log, [row]);
    assert EventsOf([row]) == [row.event];
    B.StreamPlus(EventsOf(log), row.event, row.event.account);
  }

  lemma StampLast(legs: seq<Numbered>, first: Id)
    requires legs != []
    ensures var n := |legs| - 1;
            Stamp(legs, first) == Stamp(legs[..n], first) + [Row(first + n, legs[n].version, legs[n].event)]
  {}

  lemma StreamAfter(log: seq<Row>, rows: seq<Row>, a: Account)
    ensures Stream(log + rows, a) == Stream(log, a) + OnAccount(EventsOf(rows), a)
  {
    EventsConcat(log, rows);
    OnAccountConcat(EventsOf(log), EventsOf(rows), a);
  }

  lemma {:induction false} ContiguousAfter(log: seq<Row>, states: map<Account, AccountState>, legs: seq<Numbered>, first: Id)
    requires Contiguous(log) && InOrder(states, legs)
    requires forall a :: a in states ==> states[a].version == |Stream(log, a)|
    ensures Contiguous(log + Stamp(legs, first))
    decreases |legs|
  {
    hide Contiguous, Stream;
    if legs == [] {
      assert log + Stamp(legs, first) == log;
    } else {
      var n := |legs| - 1;
      var before := Stamp(legs[..n], first);
      var row := Row(first + n, legs[n].version, legs[n].event);
      ContiguousAfter(log, states, legs[..n], first);
      StampLast(legs, first);
      StreamAfter(log, before, row.event.account);
      assert EventsOfLegs(legs)[..n] == EventsOfLegs(legs[..n]);
      ContiguousPlus(log + before, row);
      assert log + Stamp(legs, first) == log + before + [row];
    }
  }

  lemma {:induction false} AddressedConcat(s: seq<Row>, t: seq<Row>, a: Account)
    ensures Addressed(s + t, a) == if Addressed(t, a).Some? then Addressed(t, a) else Addressed(s, a)
    decreases |t|
  {
    if t == [] {
      assert s + t == s;
    } else {
      assert (s + t)[..|s + t| - 1] == s + t[..|t| - 1];
      AddressedConcat(s, t[..|t| - 1], a);
    }
  }

  /** The last row of a stream carries the stream's length. */
  lemma {:induction false} LastRowIsLength(log: seq<Row>, a: Account)
    requires Contiguous(log)
    ensures Addressed(log, a).Some? ==> Addressed(log, a).value.seqNo == |Stream(log, a)|
    ensures Addressed(log, a).None? <==> Stream(log, a) == []
  {
    if log != [] {
      LastRowIsLength(log[..|log| - 1], a);
      assert EventsOf(log)[..|log| - 1] == EventsOf(log[..|log| - 1]);
    }
  }

  // ---------------------------------------------------------------- postings

  ghost predicate DistinctPostings(ps: seq<Posting>) {
    forall i, j :: 0 <= i < j < |ps| ==> ps[i].account != ps[j].account
  }

  lemma {:induction false} PutSpec(ps: seq<Posting>, p: Posting)
    requires DistinctPostings(ps)
    ensures DistinctPostings(PutPosting(ps, p))
    ensures forall x :: x in PutPosting(ps, p) <==> x == p || (x in ps && x.account != p.account)
    ensures |PutPosting(ps, p)| == |ps| <==> exists i :: 0 <= i < |ps| && ps[i].account == p.account
  {
    if ps != [] {
      var n := |ps| - 1;
      assert ps == ps[..n] + [ps[n]];
      PutSpec(ps[..n], p);
      if ps[n].account != p.account {
        var before := PutPosting(ps[..n], p);
        if |before| == n {
          forall i | 0 <= i < |before| ensures before[i].account != ps[n].account { assert before[i] in before; }
        } else {
          forall i | 0 <= i < n ensures ps[i].account != p.account { assert ps[i] == ps[..n][i]; }
        }
      }
    }
  }

  /** The postings of a batch: one per written stream, naming its last row. */
  lemma {:induction false} PostingsSpec(rows: seq<Row>)
    ensures DistinctPostings(PostingsOf(rows))
    ensures forall p :: p in PostingsOf(rows) ==>
              Addressed(rows, p.account).Some? && Addressed(rows, p.account).value.eventId == p.eventId &&
              Addressed(rows, p.account).value.seqNo == p.committedVersion
    ensures forall a :: Addressed(rows, a).Some? ==>
              Posting(a, Addressed(rows, a).value.eventId, Addressed(rows, a).value.seqNo) in PostingsOf(rows)
  {
    if rows != [] {
      var n := |rows| - 1;
      PostingsSpec(rows[..n]);
      PutSpec(PostingsOf(rows[..n]), Posting(rows[n].event.account, rows[n].eventId, rows[n].seqNo));
    }
  }

  // ----------------------------------------------------------- one command

  lemma FoldVersions(db: Db, states: map<Account, AccountState>)
    requires DbInv(db) && Exact(EventsOf(db.log), states)
    ensures forall a :: a in states ==> states[a].version == |Stream(db.log, a)|
  {
    forall a | a in states ensures states[a].version == |Stream(db.log, a)| {
      var s := StateOf(EventsOf(db.log), db.results.Keys, a);
    }
  }

  lemma FoldStreamIs(log: seq<Row>, a: Account, s: AccountState)
    requires Fold(OnAccount(EventsOf(log), a)) == Ok(s)
    ensures FoldStream(log, a) == Ok(s)
  {}

  lemma ReadsExact(log: seq<Row>, c: Command, anchor: AccountState)
    requires FoldStream(log, c.account) == Ok(anchor) && ReadAll(log, c, anchor).Ok?
    ensures ExactReads(EventsOf(log), c, ReadAll(log, c, anchor).value)
  {
    ReadAllExact(log, c, anchor);
    FoldOthersCovers(log, map[c.account := anchor], Named(c, HoldRead(log, c), OriginalRead(log, c)));
  }

  /** Appending the legs of a sound decision keeps the invariant of the database. */
  lemma AppendKeeps(db: Db, q: Request, r: Reads, legs: seq<Numbered>, stored: Stored)
    requires DbInv(db) && q.id !in db.results && ValidCommand(q.command)
    requires ExactReads(EventsOf(db.log), q.command, r) && Decide(q.command, q.id, q.now, r) == Ok(legs)
    ensures DbInv(Db(db.log + Stamp(legs, q.firstEventId), db.results[q.id := stored]))
  {
    AppendContiguous(db, q, r, legs);
    AppendLedger(db, q, r, legs);
    assert db.results[q.id := stored].Keys == db.results.Keys + {q.id};
  }

  lemma AppendContiguous(db: Db, q: Request, r: Reads, legs: seq<Numbered>)
    requires DbInv(db) && ExactReads(EventsOf(db.log), q.command, r) && Decide(q.command, q.id, q.now, r) == Ok(legs)
    ensures Contiguous(db.log + Stamp(legs, q.firstEventId))
  {
    DecideNumbers(q.command, q.id, q.now, r, legs);
    FoldVersions(db, r.states);
    ContiguousAfter(db.log, r.states, legs, q.firstEventId);
  }

  lemma AppendLedger(db: Db, q: Request, r: Reads, legs: seq<Numbered>)
    requires DbInv(db) && q.id !in db.results && ValidCommand(q.command)
    requires ExactReads(EventsOf(db.log), q.command, r) && Decide(q.command, q.id, q.now, r) == Ok(legs)
    ensures L.Inv(EventsOf(db.log + Stamp(legs, q.firstEventId)), db.results.Keys + {q.id})
  {
    var es, ids := EventsOf(db.log), db.results.Keys;
    DecisionSound(es, ids, q.command, q.id, q.now, r, legs);
    B.BatchKeeps(es, EventsOfLegs(legs), ids, ids + {q.id});
    EventsConcat(db.log, Stamp(legs, q.firstEventId));
  }

  lemma MoreIds(es: seq<Event>, ids: set<Id>, ids': set<Id>)
    requires L.Inv(es, ids) && ids <= ids'
    ensures L.Inv(es, ids')
  {}

  lemma RecordKeeps(db: Db, id: Id, stored: Stored)
    requires DbInv(db)
    ensures DbInv(Db(db.log, db.results[id := stored]))
  {
    MoreIds(EventsOf(db.log), db.results.Keys, db.results[id := stored].Keys);
  }

  /** An accepted command writes its own stream, so its result can be built. */
  lemma AddressedWritten(es: seq<Event>, ids: set<Id>, q: Request, r: Reads, legs: seq<Numbered>)
    requires L.Inv(es, ids) && q.id !in ids && ValidCommand(q.command)
    requires ExactReads(es, q.command, r) && Decide(q.command, q.id, q.now, r) == Ok(legs)
    ensures Addressed(Stamp(legs, q.firstEventId), q.command.account).Some?
  {
    DecisionSound(es, ids, q.command, q.id, q.now, r, legs);
    AddressedIfOnStream(Stamp(legs, q.firstEventId), q.command.account);
  }

  lemma {:induction false} AddressedIfOnStream(rows: seq<Row>, a: Account)
    ensures Addressed(rows, a).None? <==> OnAccount(EventsOf(rows), a) == []
  {
    if rows != [] {
      AddressedIfOnStream(rows[..|rows| - 1], a);
      assert EventsOf(rows)[..|rows| - 1] == EventsOf(rows[..|rows| - 1]);
    }
  }

  /** Every command keeps the invariant. */
  lemma ExecuteKeeps(db: Db, q: Request)
    requires DbInv(db) && ValidCommand(q.command)
    ensures DbInv(Execute(db, q).0)
  {
    var anchor := FoldStream(db.log, q.command.account);
    if anchor.Ok? && q.id !in db.results {
      var version := anchor.value.version;
      if q.command.expectedVersion != version {
        RecordKeeps(db, q.id, Refusal(q, version, VersionConflict));
      } else {
        var decision := DecideOn(db.log, q.command, q.id, q.now, anchor.value);
        if decision.Ok? {
          ReadsExact(db.log, q.command, anchor.value);
          var r := ReadAll(db.log, q.command, anchor.value).value;
          var rows := Stamp(decision.value, q.firstEventId);
          if AcceptedResult(q, version, rows).Some? {
            AppendKeeps(db, q, r, decision.value, AcceptedResult(q, version, rows).value);
          }
        } else if decision.fault.Refused? {
          RecordKeeps(db, q.id, Refusal(q, version, Rejected(decision.fault.error)));
        }
      }
    }
  }

  // -------------------------------------------------------------------- runs

  function Run(qs: seq<Request>): Db {
    if qs == [] then EMPTY_DB else Execute(Run(qs[..|qs| - 1]), qs[|qs| - 1]).0
  }

  ghost predicate ValidRun(qs: seq<Request>) {
    forall i :: 0 <= i < |qs| ==> ValidCommand(qs[i].command)
  }

  lemma EmptyInv()
    ensures DbInv(EMPTY_DB)
  {
    assert EventsOf([]) == [];
    assert L.HoldsMatch([]) by {
      forall a ensures L.HeldIsOpen(OnAccount([], a)) {
        forall n | L.HoldIdsBelow([], n) ensures L.OpenSum([], n) == 0 { NoOpenHolds(n); }
      }
    }
  }

  lemma {:induction false} NoOpenHolds(n: nat)
    ensures L.OpenSum([], n) == 0
  {
    if n > 0 { NoOpenHolds(n - 1); }
  }

  /** Every database a serial run reaches satisfies the invariant. */
  lemma {:induction false} RunKeeps(qs: seq<Request>)
    requires ValidRun(qs)
    ensures DbInv(Run(qs))
  {
    if qs == [] {
      EmptyInv();
    } else {
      RunKeeps(qs[..|qs| - 1]);
      ExecuteKeeps(Run(qs[..|qs| - 1]), qs[|qs| - 1]);
    }
  }
}
