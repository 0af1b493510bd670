/** The memoized command handler: its folds are dictionaries updated in place, one per stream,
    caught up from the store before each withdrawal. */
module Memo {
  import opened Events
  import opened Accounts

  /** The value a projection dictionary holds. */
  datatype View = View(accountId: Option<Account>, balance: int, held: int, version: int)

  const INITIAL := View(None, 0, 0, 0)

  function ApplyView(v: View, e: Event): View {
    View(if v.accountId.None? then Some(e.account) else v.accountId,
         v.balance + BalanceDelta(e), v.held + HeldDelta(e), v.version + 1)
  }

  /** Full replay. */
  function Replay(events: seq<Event>): View {
    if events == [] then INITIAL else ApplyView(Replay(events[..|events| - 1]), events[|events| - 1])
  }

  /** Replay is the signed sums of the stream. */
  lemma {:induction false} ReplayIsSums(events: seq<Event>)
    ensures var v := Replay(events);
            && v.balance == BalanceSum(events) && v.held == HeldSum(events) && v.version == |events|
            && v.accountId == if events == [] then None else Some(events[0].account)
  {
    if events != [] { ReplayIsSums(events[..|events| - 1]); }
  }

  lemma ReplayNext(events: seq<Event>, k: nat)
    requires k < |events|
    ensures Replay(events[..k + 1]) == ApplyView(Replay(events[..k]), events[k])
  {
    assert events[..k + 1][..k] == events[..k];
  }

  /** The mutable dictionary. */
  class FoldState {
    var accountId: Option<Account>
    var balance: int
    var held: int
    var version: int

    function Value(): View
      reads this
    {
      View(accountId, balance, held, version)
    }

    constructor ()
      ensures Value() == INITIAL
    {
      accountId, balance, held, version := None, 0, 0, 0;
    }

    method ApplyEvent(e: Event)
      modifies this
      ensures Value() == ApplyView(old(Value()), e)
    {
      if accountId.None? { accountId := Some(e.account); }
      balance := balance + BalanceDelta(e);
      held := held + HeldDelta(e);
      version := version + 1;
    }
  }

  method Rebuild(events: seq<Event>) returns (state: FoldState)
    ensures fresh(state) && state.Value() == Replay(events)
  {
    state := new FoldState();
    for i := 0 to |events|
      invariant fresh(state) && state.Value() == Replay(events[..i])
    {
      ReplayNext(events, i);
      state.ApplyEvent(events[i]);
    }
    assert events[..|events|] == events;
  }

  /** Fold the events after the first `known` into a dictionary that holds their replay. */
  method CatchUp(state: FoldState, stream: seq<Event>, known: nat)
    requires known <= |stream| && state.Value() == Replay(stream[..known])
    modifies state
    ensures state.Value() == Replay(stream[..|stream|]) == Replay(stream)
  {
    hide Replay, ApplyView;
    for i := known to |stream|
      invariant state.Value() == Replay(stream[..i])
    {
      ReplayNext(stream, i);
      state.ApplyEvent(stream[i]);
    }
    assert stream[..|stream|] == stream;
  }

  /** The store other writers append to as well. */
  class EventStore {
    var streams: map<Account, seq<Event>>

    constructor ()
      ensures streams == map[]
    {
      streams := map[];
    }

    function Stream(a: Account): seq<Event>
      reads this
    {
      if a in streams then streams[a] else []
    }

    method Append(a: Account, e: Event) returns (seqNo: nat)
      modifies this
      ensures streams == old(streams)[a := old(Stream(a)) + [e]] && seqNo == |Stream(a)|
    {
      streams := streams[a := Stream(a) + [e]];
      seqNo := |streams[a]|;
    }
  }

  datatype Intent = DepositIntent | WithdrawIntent | UnknownIntent

  datatype HandleResult = Appended(seqNo: nat) | CommandError

  class CommandHandler {
    const store: EventStore
    var lastSeq: map<Account, nat>
    var folded: map<Account, FoldState>

    ghost function Footprint(): set<object>
      reads this
    {
      {this} + set a | a in folded :: folded[a]
    }

    /** Every memo pair is a prefix length and the replay of exactly that prefix; no two
        streams share a dictionary. */
    ghost predicate Valid()
      reads this, store, Footprint()
    {
      && lastSeq.Keys == folded.Keys
      && (forall a, b :: a in folded && b in folded && a != b ==> folded[a] != folded[b])
      && (forall a :: a in folded ==>
            lastSeq[a] <= |store.Stream(a)| && folded[a].Value() == Replay(store.Stream(a)[..lastSeq[a]]))
    }

    constructor (store: EventStore)
      ensures Valid() && this.store == store && fresh(Footprint())
    {
      this.store := store;
      lastSeq, folded := map[], map[];
    }

    /** Another writer appends: the memo falls behind but stays a replay of its prefix. */
    method ForeignAppend(a: Account, e: Event)
      requires Valid()
      modifies store
      ensures Valid() && store.streams == old(store.streams)[a := old(store.Stream(a)) + [e]]
      ensures Footprint() == old(Footprint())
    {
      var n := store.Append(a, e);
      forall b | b in folded ensures store.Stream(b)[..lastSeq[b]] == old(store.Stream(b))[..lastSeq[b]] {}
    }

    /** Fold the unseen suffix into the memo; afterwards it is the replay of the whole stream. */
    method CurrentState(a: Account) returns (state: FoldState)
      requires Valid()
      modifies Footprint()
      ensures Valid() && fresh(Footprint() - old(Footprint()))
      ensures a in folded && folded[a] == state && lastSeq[a] == |store.Stream(a)|
      ensures state.Value() == Replay(store.Stream(a))
    {
      hide Replay, ApplyView;
      var known: nat;
      known, state := Remembered(a);
      CatchUp(state, store.Stream(a), known);
      Remember(a, |store.Stream(a)|, state);
    }

    /** The memo of a stream, or an empty one. */
    method Remembered(a: Account) returns (known: nat, state: FoldState)
      requires Valid()
      ensures a in folded ==> known == lastSeq[a] && state == folded[a]
      ensures a !in folded ==> known == 0 && fresh(state)
      ensures known <= |store.Stream(a)| && state.Value() == Replay(store.Stream(a)[..known])
    {
      if a in folded {
        known, state := lastSeq[a], folded[a];
      } else {
        known := 0;
        state := new FoldState();
      }
    }

    method Remember(a: Account, seqNo: nat, state: FoldState)
      requires ValidBut(a) && seqNo <= |store.Stream(a)| && state.Value() == Replay(store.Stream(a)[..seqNo])
      requires forall b :: b in folded && b != a ==> folded[b] != state
      modifies this
      ensures Valid() && lastSeq == old(lastSeq)[a := seqNo] && folded == old(folded)[a := state]
    {
      hide Replay, ApplyView;
      lastSeq, folded := lastSeq[a := seqNo], folded[a := state];
      forall b | b in folded
        ensures lastSeq[b] <= |store.Stream(b)| && folded[b].Value() == Replay(store.Stream(b)[..lastSeq[b]])
      {
        if b != a { assert lastSeq[b] == old(lastSeq)[b] && folded[b] == old(folded)[b]; }
      }
    }

    /** All memos but that of `a` are in order. */
    ghost predicate ValidBut(a: Account)
      reads this, store, Footprint()
    {
      && lastSeq.Keys == folded.Keys
      && (forall b, c :: b in folded && c in folded && b != c ==> folded[b] != folded[c])
      && (forall b :: b in folded && b != a ==>
            lastSeq[b] <= |store.Stream(b)| && folded[b].Value() == Replay(store.Stream(b)[..lastSeq[b]]))
    }

    /** Advance the memo with the event just appended, unless another writer got in between. */
    method RecordAppend(a: Account, e: Event, seqNo: nat)
      requires Valid() && 1 <= seqNo <= |store.Stream(a)| && store.Stream(a)[seqNo - 1] == e
      modifies Footprint()
      ensures Valid() && fresh(Footprint() - old(Footprint()))
    {
      hide Replay, ApplyView;
      var known: nat;
      var state: FoldState;
      known, state := Remembered(a);
      if seqNo == known + 1 {
        ReplayNext(store.Stream(a), known);
        state.ApplyEvent(e);
        Remember(a, seqNo, state);
      }
    }

    /** One command, atomically. A withdrawal is accepted exactly when the replay of the whole
        stream has the funds, whoever wrote it and however far behind the memo was. */
    method Handle(intent: Intent, a: Account, amount: int) returns (r: HandleResult)
      requires Valid()
      modifies store, Footprint()
      ensures Valid() && fresh(Footprint() - old(Footprint()))
      ensures r.Appended? <==>
                && intent != UnknownIntent && amount > 0
                && (intent == WithdrawIntent ==> amount <= Replay(old(store.Stream(a))).balance)
      ensures r.Appended? ==>
                var e := if intent == DepositIntent then Deposited(a, amount) else Withdrawn(a, amount);
                store.streams == old(store.streams)[a := old(store.Stream(a)) + [e]] && r.seqNo == |store.Stream(a)|
      ensures r.CommandError? ==> store.streams == old(store.streams)
    {
      hide Replay, ApplyView, Valid;
      if intent == UnknownIntent || amount <= 0 {
        return CommandError;
      }
      var e := Deposited(a, amount);
      if intent == WithdrawIntent {
        var state := CurrentState(a);
        if amount > state.balance {
          return CommandError;
        }
        e := Withdrawn(a, amount);
      }
      var seqNo := AppendOwn(a, e);
      RecordAppend(a, e, seqNo);
      r := Appended(seqNo);
    }

    method AppendOwn(a: Account, e: Event) returns (seqNo: nat)
      requires Valid()
      modifies store
      ensures Valid() && store.streams == old(store.streams)[a := old(store.Stream(a)) + [e]]
      ensures seqNo == |store.Stream(a)| && store.Stream(a)[seqNo - 1] == e
      ensures Footprint() == old(Footprint())
    {
      seqNo := store.Append(a, e);
      forall b | b in folded ensures store.Stream(b)[..lastSeq[b]] == old(store.Stream(b))[..lastSeq[b]] {}
    }
  }
}
