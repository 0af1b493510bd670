/** The SQLite unit of work: one write transaction per command over its own tables. */
module SerialUnit {
  import opened Events
  import opened Accounts
  import opened Views
  import opened Commands
  import opened Execution
  import opened Runs
  import L = Ledger

  /** The decision without the envelope's version check, which comes leg by leg. */
  ghost predicate DecidesOn(log: seq<Row>, c: Command, id: Id, now: int, anchor: AccountState, r: Result<seq<Numbered>>) {
    match ReadAll(log, c, anchor)
    case Err(f) => r == Err(f)
    case Ok(seen) =>
      && Sufficient(c, seen)
      && match DecideEvents(c, id, now, seen)
         case Err(f) => r == Err(f)
         case Ok(events) => CoversEvents(seen.states, events) && r == Ok(NumberLegs(seen.states, events))
  }

  /** Checked leg by leg, the decision is the specified one. */
  lemma DecidesAs(log: seq<Row>, c: Command, id: Id, now: int, anchor: AccountState, r: Result<seq<Numbered>>)
    requires DecidesOn(log, c, id, now, anchor, r)
    ensures DecideOn(log, c, id, now, anchor) ==
            if r.Ok? && exists i :: 0 <= i < |r.value| && r.value[i].version > MAX_BIGINT then Err(Crashed) else r
  {
    hide ReadAll, DecideEvents, NumberLegs, CoversEvents;
    ReadAllSufficient(log, c, anchor);
    if ReadAll(log, c, anchor).Ok? && DecideEvents(c, id, now, ReadAll(log, c, anchor).value).Ok? {
      EventsCovered(c, id, now, ReadAll(log, c, anchor).value);
    }
  }

  class UnitOfWork {
    var log: seq<Row>
    var results: map<Id, Stored>

    ghost function Contents(): Db
      reads this
    {
      Db(log, results)
    }

    constructor ()
      ensures Contents() == EMPTY_DB
    {
      log, results := [], map[];
    }

    /** Fold every named stream that is not folded yet. */
    method FoldOtherStreams(anchor: Account, state: AccountState, accounts: seq<Account>)
      returns (r: Result<map<Account, AccountState>>)
      ensures r == FoldOthers(log, map[anchor := state], accounts)
    {
      var states := map[anchor := state];
      for i := 0 to |accounts|
        invariant FoldOthers(log, map[anchor := state], accounts[..i]) == Ok(states)
      {
        assert accounts[..i + 1][..i] == accounts[..i];
        if accounts[i] !in states {
          var folded := FoldEvents(Stream(log, accounts[i]), EMPTY);
          if folded.Err? {
            FoldOthersStops(log, map[anchor := state], accounts, i + 1);
            return Err(folded.fault);
          }
          states := states[accounts[i] := folded.value];
        }
      }
      assert accounts[..|accounts|] == accounts;
      r := Ok(states);
    }

    method DecideLegs(q: Request, anchor: AccountState) returns (r: Result<seq<Numbered>>)
      ensures DecidesOn(log, q.command, q.id, q.now, anchor, r)
    {
      var c := q.command;
      var hold: Option<OpenHold> := None;
      if HoldIdOf(c).Some? {
        hold := OpenHoldFromEvents(HoldIdOf(c).value, Stream(log, c.account));
      }
      var original := if c.Revert? then OnSet(EventsOf(log), c.transferId) else [];
      var folded := FoldOtherStreams(c.account, anchor, Named(c, hold, original));
      if folded.Err? {
        return Err(folded.fault);
      }
      var revertedBy := if c.Revert? then RevertedBy(EventsOf(log), c.transferId) else None;
      var seen := Reads(folded.value, hold, original, revertedBy);
      assert ReadAll(log, c, anchor) == Ok(seen);
      ReadAllSufficient(log, c, anchor);
      var events: Result<seq<Event>>;
      if c.Transfer? || c.Post? {
        NamedCovers(c, seen);
        events := DecidePostingsLoop(seen.states, c.account, LegsOf(c), q.id);
      } else {
        events := DecideEvents(c, q.id, q.now, seen);
      }
      if events.Err? {
        return Err(events.fault);
      }
      EventsCovered(c, q.id, q.now, seen);
      var legs := NumberLegsLoop(seen.states, events.value);
      r := Ok(legs);
    }

    /** Append the legs one by one and build the result; a version out of range or a missing
        leg on the addressed stream raises, and the transaction is rolled back. */
    method AppendLegs(q: Request, version: int, legs: seq<Numbered>) returns (answer: Answer)
      requires q.id !in results
      modifies this
      ensures if exists i :: 0 <= i < |legs| && legs[i].version > MAX_BIGINT
              then answer == RolledBack && Contents() == old(Contents())
              else (Contents(), answer) == Commit(old(Contents()), q, version, legs)
    {
      hide Addressed, PostingsOf, PutPosting, Stamp;
      NoRowsYet(legs, q.firstEventId, q.command.account);
      var saved := log;
      var postings: seq<Posting> := [];
      var addressed: Option<Row> := None;
      for k := 0 to |legs|
        invariant results == old(results) && saved == old(log)
        invariant log == saved + Stamp(legs, q.firstEventId)[..k]
        invariant forall i :: 0 <= i < k ==> legs[i].version <= MAX_BIGINT
        invariant postings == PostingsOf(Stamp(legs, q.firstEventId)[..k])
        invariant addressed == Addressed(Stamp(legs, q.firstEventId)[..k], q.command.account)
      {
        if legs[k].version > MAX_BIGINT {
          log := saved;
          return RolledBack;
        }
        var row := Row(q.firstEventId + k, legs[k].version, legs[k].event);
        StampGrows(legs, q.firstEventId, k, q.command.account);
        log := log + [row];
        postings := PutPosting(postings, Posting(row.event.account, row.eventId, row.seqNo));
        if row.event.account == q.command.account {
          addressed := Some(row);
        }
      }
      ghost var rows := Stamp(legs, q.firstEventId);
      assert rows[..|legs|] == rows;
      if addressed.None? {
        log := saved;
        return RolledBack;
      }
      var stored := Stored(q.command, q.caller, version,
                           Accepted(addressed.value.seqNo, addressed.value.eventId, postings));
      results := results[q.id := stored];
      answer := Decided(stored);
    }

    /** One command. The tables and the answer are exactly those of the atomic decision, and
        the ledger invariant is kept. */
    method ExecuteCommand(q: Request) returns (answer: Answer)
      modifies this
      ensures (Contents(), answer) == Execute(old(Contents()), q)
      ensures ValidCommand(q.command) && old(DbInv(Contents())) ==> DbInv(Contents())
    {
      hide DbInv, Decide, ReadAll, FoldFrom;
      ghost var db := Contents();
      if ValidCommand(q.command) && DbInv(db) { ExecuteKeeps(db, q); }
      if q.id in results && results[q.id].command == q.command && results[q.id].caller == q.caller {
        return Replayed(results[q.id]);
      }
      var folded := FoldEvents(Stream(log, q.command.account), EMPTY);
      assert folded == FoldStream(log, q.command.account);
      if folded.Err? {
        return RolledBack;
      }
      var state := folded.value;
      if q.id in results {
        return IdConflict(state.version);
      }
      if q.command.expectedVersion != state.version {
        var stored := Refusal(q, state.version, VersionConflict);
        results := results[q.id := stored];
        return Decided(stored);
      }
      var decision := DecideLegs(q, state);
      DecidesAs(log, q.command, q.id, q.now, state, decision);
      hide DecideOn, DecidesOn, AcceptedResult, Stamp, FoldStream;
      if decision.Ok? {
        answer := AppendLegs(q, state.version, decision.value);
      } else if decision.fault.Crashed? {
        answer := RolledBack;
      } else {
        var stored := Refusal(q, state.version, Rejected(decision.fault.error));
        results := results[q.id := stored];
        answer := Decided(stored);
      }
    }
  }

  lemma NoRowsYet(legs: seq<Numbered>, first: Id, a: Account)
    ensures Stamp(legs, first)[..0] == [] && PostingsOf([]) == [] && Addressed([], a) == None
  {}

  lemma StampGrows(legs: seq<Numbered>, first: Id, k: nat, a: Account)
    requires k < |legs|
    ensures var rows := Stamp(legs, first);
            var row := Row(first + k, legs[k].version, legs[k].event);
            && rows[..k + 1] == rows[..k] + [row]
            && PostingsOf(rows[..k + 1]) == PutPosting(PostingsOf(rows[..k]), Posting(row.event.account, row.eventId, row.seqNo))
            && Addressed(rows[..k + 1], a) == if row.event.account == a then Some(row) else Addressed(rows[..k], a)
  {
    var rows := Stamp(legs, first);
    assert rows[..k + 1][..k] == rows[..k];
  }

  lemma {:induction false} FoldOthersStops(log: seq<Row>, states: map<Account, AccountState>, accounts: seq<Account>, k: nat)
    requires k <= |accounts| && FoldOthers(log, states, accounts[..k]).Err?
    ensures FoldOthers(log, states, accounts) == FoldOthers(log, states, accounts[..k])
    decreases |accounts|
  {
    if k == |accounts| {
      assert accounts[..k] == accounts;
    } else {
      assert accounts[..|accounts| - 1][..k] == accounts[..k];
      FoldOthersStops(log, states, accounts[..|accounts| - 1], k);
    }
  }
}
