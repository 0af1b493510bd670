/** What the storage queries read from a log: one account's stream, one set's rows,
    the reversal that names a set. Every view is a filter that keeps log order. */
module Views {
  import opened Events
  import opened Accounts

  /** `WHERE stream = a ORDER BY seq`. */
  function OnAccount(events: seq<Event>, a: Account): seq<Event>
  {
    if events == [] then []
    else
      var before := OnAccount(events[..|events| - 1], a);
      var e := events[|events| - 1];
      if e.account == a then before + [e] else before
  }

  /** `WHERE transfer_id = t ORDER BY id`. */
  function OnSet(events: seq<Event>, t: Id): seq<Event>
  {
    if events == [] then []
    else
      var before := OnSet(events[..|events| - 1], t);
      var e := events[|events| - 1];
      if SetId(e) == Some(t) then before + [e] else before
  }

  /** `SELECT transfer_id WHERE reverts = t ORDER BY id LIMIT 1`. */
  function RevertedBy(events: seq<Event>, t: Id): Option<Id>
  {
    if events == [] then None
    else
      var before := RevertedBy(events[..|events| - 1], t);
      var e := events[|events| - 1];
      if before.Some? then before
      else if RevertsColumn(e) == Some(t) then SetId(e)
      else None
  }

  /** The movement legs of set `t`. */
  function Movements(events: seq<Event>, t: Id): seq<Event> { MovementLegs(OnSet(events, t)) }

  lemma {:induction false} InOnAccount(events: seq<Event>, a: Account)
    ensures forall e :: e in OnAccount(events, a) <==> e in events && e.account == a
    ensures AllOn(OnAccount(events, a), a)
  {
    if events != [] {
      var n := |events| - 1;
      InOnAccount(events[..n], a);
      assert events == events[..n] + [events[n]];
    }
  }

  lemma {:induction false} InOnSet(events: seq<Event>, t: Id)
    ensures forall e :: e in OnSet(events, t) <==> e in events && SetId(e) == Some(t)
  {
    if events != [] {
      var n := |events| - 1;
      InOnSet(events[..n], t);
      assert events == events[..n] + [events[n]];
    }
  }

  /** No reversal is read exactly when no row names the set. */
  lemma {:induction false} RevertedByReads(events: seq<Event>, t: Id)
    ensures RevertedBy(events, t).None? <==> forall i :: 0 <= i < |events| ==> RevertsColumn(events[i]) != Some(t)
    ensures RevertedBy(events, t).Some? ==>
              exists i :: 0 <= i < |events| && RevertsColumn(events[i]) == Some(t) && SetId(events[i]) == RevertedBy(events, t)
  {
    if events != [] {
      var n := |events| - 1;
      RevertedByReads(events[..n], t);
    }
  }

  lemma {:induction false} OnAccountConcat(s: seq<Event>, t: seq<Event>, a: Account)
    ensures OnAccount(s + t, a) == OnAccount(s, a) + OnAccount(t, a)
    decreases |t|
  {
    if t == [] {
      assert s + t == s;
    } else {
      var n := |t| - 1;
      assert (s + t)[..|s + t| - 1] == s + t[..n];
      OnAccountConcat(s, t[..n], a);
    }
  }

  lemma {:induction false} OnSetConcat(s: seq<Event>, t: seq<Event>, id: Id)
    ensures OnSet(s + t, id) == OnSet(s, id) + OnSet(t, id)
    decreases |t|
  {
    if t == [] {
      assert s + t == s;
    } else {
      var n := |t| - 1;
      assert (s + t)[..|s + t| - 1] == s + t[..n];
      OnSetConcat(s, t[..n], id);
    }
  }

  lemma {:induction false} MovementLegsConcat(s: seq<Event>, t: seq<Event>)
    ensures MovementLegs(s + t) == MovementLegs(s) + MovementLegs(t)
    decreases |t|
  {
    if t == [] {
      assert s + t == s;
    } else {
      var n := |t| - 1;
      assert (s + t)[..|s + t| - 1] == s + t[..n];
      MovementLegsConcat(s, t[..n]);
    }
  }

  lemma {:induction false} RevertedByConcat(s: seq<Event>, t: seq<Event>, id: Id)
    ensures RevertedBy(s + t, id) == if RevertedBy(s, id).Some? then RevertedBy(s, id) else RevertedBy(t, id)
    decreases |t|
  {
    if t == [] {
      assert s + t == s;
    } else {
      var n := |t| - 1;
      assert (s + t)[..|s + t| - 1] == s + t[..n];
      RevertedByConcat(s, t[..n], id);
    }
  }

  /** A list whose rows all belong to one account is its own stream. */
  lemma {:induction false} OnAccountAll(s: seq<Event>, a: Account)
    requires AllOn(s, a)
    ensures OnAccount(s, a) == s
  {
    if s != [] { OnAccountAll(s[..|s| - 1], a); }
  }

  lemma {:induction false} OnSetAll(s: seq<Event>, t: Id)
    requires forall i :: 0 <= i < |s| ==> SetId(s[i]) == Some(t)
    ensures OnSet(s, t) == s
  {
    if s != [] { OnSetAll(s[..|s| - 1], t); }
  }

  lemma {:induction false} OnSetNone(s: seq<Event>, t: Id)
    requires forall i :: 0 <= i < |s| ==> SetId(s[i]) != Some(t)
    ensures OnSet(s, t) == []
  {
    if s != [] { OnSetNone(s[..|s| - 1], t); }
  }

  lemma {:induction false} MovementLegsAll(s: seq<Event>)
    requires AllMovement(s)
    ensures MovementLegs(s) == s
  {
    if s != [] { MovementLegsAll(s[..|s| - 1]); }
  }

  /** The views of a log after a batch is appended. */
  lemma Appended(s: seq<Event>, t: seq<Event>)
    ensures forall a :: OnAccount(s + t, a) == OnAccount(s, a) + OnAccount(t, a)
    ensures forall id :: OnSet(s + t, id) == OnSet(s, id) + OnSet(t, id)
    ensures forall id :: Movements(s + t, id) == Movements(s, id) + Movements(t, id)
  {
    forall a ensures OnAccount(s + t, a) == OnAccount(s, a) + OnAccount(t, a) { OnAccountConcat(s, t, a); }
    forall id
      ensures OnSet(s + t, id) == OnSet(s, id) + OnSet(t, id)
      ensures Movements(s + t, id) == Movements(s, id) + Movements(t, id)
    {
      OnSetConcat(s, t, id);
      MovementLegsConcat(OnSet(s, id), OnSet(t, id));
    }
  }
}
