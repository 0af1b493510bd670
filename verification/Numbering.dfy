/** What numbering and sorting do to a batch: every stream keeps its own events in
    order and gets consecutive versions, and the keys come out strictly ascending. */
module Numbering {
  import opened Events
  import opened Accounts
  import opened Views
  import opened Execution

  ghost predicate LegsAscend(legs: seq<Numbered>) {
    forall i, j :: 0 <= i < j < |legs| ==> legs[i].event.account <= legs[j].event.account
  }

  /** Each leg's version is its stream's version plus its position in that stream's part of the batch. */
  ghost predicate InOrder(states: map<Account, AccountState>, legs: seq<Numbered>) {
    legs == [] ||
    var x := legs[|legs| - 1];
    && InOrder(states, legs[..|legs| - 1])
    && x.event.account in states
    && x.version == states[x.event.account].version + |OnAccount(EventsOfLegs(legs), x.event.account)|
  }

  /** The order in which the unique keys of a batch are taken. */
  ghost predicate KeyBefore(x: Numbered, y: Numbered) {
    || x.event.account < y.event.account
    || (x.event.account == y.event.account && x.version < y.version)
  }

  ghost predicate KeysAscend(legs: seq<Numbered>) {
    forall i, j :: 0 <= i < j < |legs| ==> KeyBefore(legs[i], legs[j])
  }

  lemma {:induction false} InsertKeeps(sorted: seq<Numbered>, x: Numbered)
    ensures forall a :: OnAccount(EventsOfLegs(InsertLeg(sorted, x)), a) ==
                        OnAccount(EventsOfLegs(sorted), a) + (if x.event.account == a then [x.event] else [])
    ensures BalanceSum(EventsOfLegs(InsertLeg(sorted, x))) == BalanceSum(EventsOfLegs(sorted)) + BalanceDelta(x.event)
  {
    var r := InsertLeg(sorted, x);
    var n := |sorted| - 1;
    if sorted == [] || sorted[n].event.account <= x.event.account {
      assert EventsOfLegs(r)[..|r| - 1] == EventsOfLegs(sorted);
    } else {
      InsertKeeps(sorted[..n], x);
      var last := sorted[n];
      assert sorted == sorted[..n] + [last];
      assert EventsOfLegs(sorted)[..n] == EventsOfLegs(sorted[..n]);
      assert EventsOfLegs(r)[..|r| - 1] == EventsOfLegs(InsertLeg(sorted[..n], x));
    }
  }

  lemma {:induction false} InsertSorts(sorted: seq<Numbered>, x: Numbered)
    requires LegsAscend(sorted)
    ensures LegsAscend(InsertLeg(sorted, x))
    ensures forall i :: 0 <= i <= |sorted| ==>
              InsertLeg(sorted, x)[i] == x || InsertLeg(sorted, x)[i] in sorted
  {
    var n := |sorted| - 1;
    if sorted != [] && sorted[n].event.account > x.event.account {
      InsertSorts(sorted[..n], x);
      var r := InsertLeg(sorted[..n], x);
      forall i | 0 <= i < |r| ensures r[i].event.account <= sorted[n].event.account {
        if r[i] != x { assert r[i] in sorted[..n]; }
      }
    }
  }

  lemma {:induction false} InsertNumbers(states: map<Account, AccountState>, sorted: seq<Numbered>, x: Numbered)
    requires InOrder(states, sorted) && x.event.account in states
    requires x.version == states[x.event.account].version + |OnAccount(EventsOfLegs(sorted), x.event.account)| + 1
    ensures InOrder(states, InsertLeg(sorted, x))
  {
    var r := InsertLeg(sorted, x);
    var n := |sorted| - 1;
    InsertKeeps(sorted, x);
    assert r[..|sorted|] == if sorted == [] || sorted[n].event.account <= x.event.account then sorted else InsertLeg(sorted[..n], x);
    if sorted != [] && sorted[n].event.account > x.event.account {
      assert EventsOfLegs(sorted)[..n] == EventsOfLegs(sorted[..n]);
      InsertNumbers(states, sorted[..n], x);
    }
  }

  /** `legs` is the batch `events` numbered from `states` and stably sorted. */
  ghost predicate IsNumbering(states: map<Account, AccountState>, events: seq<Event>, legs: seq<Numbered>) {
    && |legs| == |events|
    && LegsAscend(legs)
    && InOrder(states, legs)
    && (forall a :: OnAccount(EventsOfLegs(legs), a) == OnAccount(events, a))
    && BalanceSum(EventsOfLegs(legs)) == BalanceSum(events)
  }

  lemma NumberingGrows(states: map<Account, AccountState>, events: seq<Event>, k: nat, sorted: seq<Numbered>, x: Numbered)
    requires 0 < k <= |events| && IsNumbering(states, events[..k - 1], sorted)
    requires x.event == events[k - 1] && x.event.account in states
    requires x.version == states[x.event.account].version + |OnAccount(events[..k], x.event.account)|
    ensures IsNumbering(states, events[..k], InsertLeg(sorted, x))
  {
    StreamGrows(events, k);
    InsertKeeps(sorted, x);
    InsertSorts(sorted, x);
    InsertNumbers(states, sorted, x);
  }

  lemma NumberingOfNothing(states: map<Account, AccountState>)
    ensures IsNumbering(states, [], [])
  {
    assert EventsOfLegs([]) == [];
  }

  lemma {:induction false} NumberToSpec(states: map<Account, AccountState>, events: seq<Event>, k: nat)
    returns (legs: seq<Numbered>)
    requires CoversEvents(states, events) && k <= |events|
    ensures legs == NumberTo(states, events, k)
    ensures IsNumbering(states, events[..k], legs)
  {
    if k == 0 {
      legs := [];
      assert events[..k] == [];
      NumberingOfNothing(states);
    } else {
      var before := NumberToSpec(states, events, k - 1);
      var x := LastNumbered(states, events, k);
      legs := InsertLeg(before, x);
      NumberingGrows(states, events, k, before, x);
    }
  }

  lemma LastNumbered(states: map<Account, AccountState>, events: seq<Event>, k: nat) returns (x: Numbered)
    requires CoversEvents(states, events) && 0 < k <= |events|
    ensures x.event == events[k - 1] && x.event.account in states
    ensures x.version == states[x.event.account].version + |OnAccount(events[..k], x.event.account)|
    ensures NumberTo(states, events, k) == InsertLeg(NumberTo(states, events, k - 1), x)
  {
    var e := events[k - 1];
    x := Numbered(e, states[e.account].version + |OnAccount(events[..k], e.account)|);
  }

  lemma StreamGrows(events: seq<Event>, k: nat)
    requires 0 < k <= |events|
    ensures forall a :: OnAccount(events[..k], a) ==
                        OnAccount(events[..k - 1], a) + (if events[k - 1].account == a then [events[k - 1]] else [])
    ensures BalanceSum(events[..k]) == BalanceSum(events[..k - 1]) + BalanceDelta(events[k - 1])
  {
    assert events[..k][..k - 1] == events[..k - 1];
    assert events[..k] == events[..k - 1] + [events[k - 1]];
  }

  /** Numbering: the batch is the decided events stably sorted by account, every stream's
      versions continue where its fold ended, and the unique keys strictly ascend. */
  lemma NumberLegsSpec(states: map<Account, AccountState>, events: seq<Event>)
    requires CoversEvents(states, events)
    ensures IsNumbering(states, events, NumberLegs(states, events))
    ensures KeysAscend(NumberLegs(states, events))
  {
    var legs := NumberToSpec(states, events, |events|);
    assert events[..|events|] == events;
    KeysFromOrder(states, legs);
  }

  lemma {:induction false} KeysFromOrder(states: map<Account, AccountState>, legs: seq<Numbered>)
    requires LegsAscend(legs) && InOrder(states, legs)
    ensures KeysAscend(legs)
    ensures forall i :: 0 <= i < |legs| ==>
              && legs[i].event.account in states
              && legs[i].version <= states[legs[i].event.account].version + |OnAccount(EventsOfLegs(legs), legs[i].event.account)|
  {
    if legs != [] {
      var n := |legs| - 1;
      KeysFromOrder(states, legs[..n]);
      assert EventsOfLegs(legs)[..n] == EventsOfLegs(legs[..n]);
    }
  }
}
