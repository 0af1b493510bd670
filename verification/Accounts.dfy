/** The Account aggregate: the fold of an ordered stream and every pure decision. */
module Accounts {
  import opened Events

  datatype DomainError =
    | AccountIdentityMismatch
    | VersionOutOfRange
    | AmountOutOfRange
    | InsufficientFunds
    | InvalidAccountState
    | HoldNotOpen
    | HoldExpired
    | HoldNotExpired
    | CaptureExceedsHold
    | NotRevertible
    | AlreadyReverted
    | AnchorNotCredited

  /** A decision fails either with a domain error, which is recorded, or with any
      other exception, which rolls the transaction back. */
  datatype Fault = Refused(error: DomainError) | Crashed

  datatype Result<+T> = Ok(value: T) | Err(fault: Fault)

  datatype AccountState = AccountState(accountId: Option<Account>, balance: int, version: int, held: int) {
    function Available(): int { balance - held }
  }

  const EMPTY: AccountState := AccountState(None, 0, 0, 0)

  /** The checks of the state's constructor. */
  predicate ValidState(s: AccountState) {
    && 0 <= s.held <= s.balance <= MAX_BIGINT
    && 0 <= s.version <= MAX_BIGINT
    && (s.accountId.None? ==> s.balance == 0 && s.version == 0)
  }

  predicate Matches(s: AccountState, a: Account) {
    s.accountId.None? || s.accountId.value == a
  }

  predicate HasNextVersion(s: AccountState) { s.version != MAX_BIGINT }

  predicate CreditFits(s: AccountState, amount: int) { amount <= MAX_BIGINT - s.balance }

  predicate HasFunds(s: AccountState, amount: int) { amount <= s.Available() }

  /** One event applied to a state. */
  function Apply(s: AccountState, e: Event): (r: Result<AccountState>)
    ensures r.Ok? && ValidState(s) && ValidEvent(e) ==> ValidState(r.value) && r.value.accountId == Some(e.account)
  {
    if !Matches(s, e.account) then Err(Refused(AccountIdentityMismatch))
    else if !HasNextVersion(s) then Err(Refused(VersionOutOfRange))
    else if BalanceDelta(e) > 0 && !CreditFits(s, e.amount) then Err(Refused(AmountOutOfRange))
    else if s.balance + BalanceDelta(e) < 0 then Err(Refused(InsufficientFunds))
    else if s.held + HeldDelta(e) < 0 then Err(Refused(InvalidAccountState))
    else if s.held + HeldDelta(e) > s.balance + BalanceDelta(e) then Err(Refused(InvalidAccountState))
    else Ok(AccountState(Some(if s.accountId.Some? then s.accountId.value else e.account),
                         s.balance + BalanceDelta(e), s.version + 1, s.held + HeldDelta(e)))
  }

  /** The fold of `events` onto `init`, stopping at the first event that does not apply. */
  function FoldFrom(init: AccountState, events: seq<Event>): (r: Result<AccountState>)
  {
    if events == [] then Ok(init)
    else
      var n := |events| - 1;
      match FoldFrom(init, events[..n])
      case Err(f) => Err(f)
      case Ok(s) => Apply(s, events[n])
  }

  function Fold(events: seq<Event>): (r: Result<AccountState>) { FoldFrom(EMPTY, events) }

  /** The source's loop: apply the events one at a time. */
  method FoldEvents(events: seq<Event>, init: AccountState) returns (r: Result<AccountState>)
    ensures r == FoldFrom(init, events)
  {
    r := Ok(init);
    for i := 0 to |events|
      invariant r.Ok? && r == FoldFrom(init, events[..i])
    {
      assert events[..i + 1][..i] == events[..i];
      r := Apply(r.value, events[i]);
      if r.Err? {
        FoldStopsAt(init, events, i + 1);
        return;
      }
    }
    assert events[..|events|] == events;
  }

  /** A prefix that does not fold decides the whole fold. */
  lemma {:induction false} FoldStopsAt(init: AccountState, events: seq<Event>, k: nat)
    requires k <= |events|
    requires FoldFrom(init, events[..k]).Err?
    ensures FoldFrom(init, events) == FoldFrom(init, events[..k])
    decreases |events|
  {
    if k == |events| {
      assert events[..k] == events;
    } else {
      var n := |events| - 1;
      assert events[..n][..k] == events[..k];
      FoldStopsAt(init, events[..n], k);
    }
  }

  /** Folding a concatenation is folding the second part onto the fold of the first. */
  lemma {:induction false} FoldConcat(init: AccountState, s: seq<Event>, t: seq<Event>)
    ensures FoldFrom(init, s + t) ==
            (match FoldFrom(init, s) case Err(f) => Err(f) case Ok(m) => FoldFrom(m, t))
    decreases |t|
  {
    if t == [] {
      assert s + t == s;
    } else {
      var n := |t| - 1;
      assert (s + t)[..|s + t| - 1] == s + t[..n];
      FoldConcat(init, s, t[..n]);
    }
  }

  /** Net balance movement of a list of events. */
  function BalanceSum(events: seq<Event>): int {
    if events == [] then 0
    else BalanceSum(events[..|events| - 1]) + BalanceDelta(events[|events| - 1])
  }

  /** Net held movement of a list of events. */
  function HeldSum(events: seq<Event>): int {
    if events == [] then 0
    else HeldSum(events[..|events| - 1]) + HeldDelta(events[|events| - 1])
  }

  ghost predicate AllOn(events: seq<Event>, a: Account) {
    forall i :: 0 <= i < |events| ==> events[i].account == a
  }

  ghost predicate AllValid(events: seq<Event>) {
    forall i :: 0 <= i < |events| ==> ValidEvent(events[i])
  }

  /** A successful fold is the signed sums, the length and the account's name. */
  lemma {:induction false} FoldIsSums(events: seq<Event>, a: Account)
    requires AllOn(events, a) && AllValid(events) && Fold(events).Ok?
    ensures ValidState(Fold(events).value)
    ensures Fold(events).value == AccountState(if events == [] then None else Some(a),
                                               BalanceSum(events), |events|, HeldSum(events))
  {
    if events != [] {
      FoldIsSums(events[..|events| - 1], a);
    }
  }

  lemma {:induction false} SumsConcat(s: seq<Event>, t: seq<Event>)
    ensures BalanceSum(s + t) == BalanceSum(s) + BalanceSum(t)
    ensures HeldSum(s + t) == HeldSum(s) + HeldSum(t)
    decreases |t|
  {
    if t == [] {
      assert s + t == s;
    } else {
      var n := |t| - 1;
      assert (s + t)[..|s + t| - 1] == s + t[..n];
      SumsConcat(s, t[..n]);
    }
  }

  // ---------------------------------------------------------------- holds

  datatype OpenHold = OpenHold(holdId: Id, amount: int, counterparty: Account, expiresAt: int) {
    predicate ExpiredAt(now: int) { now >= expiresAt }
  }

  datatype HoldStatus = Unseen | Open(hold: OpenHold) | Closed

  /** Settling or releasing a hold closes it for good; a partial release does not. */
  predicate Closes(e: Event, h: Id) {
    || (e.HoldPosted? && e.holdId == h)
    || (e.HoldReleased? && e.holdId == h && e.reason != Partial)
  }

  function StatusOf(h: Id, events: seq<Event>): HoldStatus {
    if events == [] then Unseen
    else
      var before := StatusOf(h, events[..|events| - 1]);
      var e := events[|events| - 1];
      if before.Closed? || Closes(e, h) then Closed
      else if e.HoldPlaced? && e.holdId == h then Open(OpenHold(h, e.amount, e.counterparty, e.expiresAt))
      else before
  }

  function OpenHoldOf(h: Id, events: seq<Event>): Option<OpenHold> {
    var status := StatusOf(h, events);
    if status.Open? then Some(status.hold) else None
  }

  /** The source's loop over a stream's events, with its early return. */
  method OpenHoldFromEvents(h: Id, events: seq<Event>) returns (r: Option<OpenHold>)
    ensures r == OpenHoldOf(h, events)
  {
    var placed: Option<Event> := None;
    for i := 0 to |events|
      invariant placed.Some? ==> placed.value.HoldPlaced? && placed.value.holdId == h
      invariant StatusOf(h, events[..i]) ==
                (if placed.None? then Unseen
                 else Open(OpenHold(h, placed.value.amount, placed.value.counterparty, placed.value.expiresAt)))
    {
      assert events[..i + 1][..i] == events[..i];
      var e := events[i];
      if e.HoldPlaced? && e.holdId == h {
        placed := Some(e);
      } else if Closes(e, h) {
        ClosedForGood(h, events, i + 1);
        return None;
      }
    }
    assert events[..|events|] == events;
    r := if placed.None? then None
         else Some(OpenHold(h, placed.value.amount, placed.value.counterparty, placed.value.expiresAt));
  }

  lemma {:induction false} ClosedForGood(h: Id, events: seq<Event>, k: nat)
    requires k <= |events| && StatusOf(h, events[..k]) == Closed
    ensures StatusOf(h, events) == Closed
    decreases |events|
  {
    if k == |events| {
      assert events[..k] == events;
    } else {
      var n := |events| - 1;
      assert events[..n][..k] == events[..k];
      ClosedForGood(h, events[..n], k);
    }
  }

  // ------------------------------------------------------------ decisions

  datatype Direction = Debit | Credit

  datatype Leg = Leg(account: Account, amount: int, direction: Direction)

  predicate ValidLeg(l: Leg) { ValidAmount(l.amount) }

  /** Deposit and withdrawal. */
  function DecideCash(s: AccountState, a: Account, amount: int, deposit: bool): Result<Event> {
    if !Matches(s, a) then Err(Refused(AccountIdentityMismatch))
    else if !HasNextVersion(s) then Err(Refused(VersionOutOfRange))
    else if deposit then
      if CreditFits(s, amount) then Ok(Deposited(a, amount)) else Err(Refused(AmountOutOfRange))
    else
      if HasFunds(s, amount) then Ok(Withdrawn(a, amount)) else Err(Refused(InsufficientFunds))
  }

  /** The check one leg has to pass against its own account. */
  function CheckLeg(s: AccountState, a: Account, amount: int, debit: bool): Option<DomainError> {
    if !Matches(s, a) then Some(AccountIdentityMismatch)
    else if !HasNextVersion(s) then Some(VersionOutOfRange)
    else if debit then (if HasFunds(s, amount) then None else Some(InsufficientFunds))
    else (if CreditFits(s, amount) then None else Some(AmountOutOfRange))
  }

  predicate Covers(states: map<Account, AccountState>, legs: seq<Leg>) {
    forall i :: 0 <= i < |legs| ==> legs[i].account in states
  }

  /** The first error among the legs, in leg order. */
  function CheckLegs(states: map<Account, AccountState>, legs: seq<Leg>): Option<DomainError>
    requires Covers(states, legs)
  {
    if legs == [] then None
    else
      var n := |legs| - 1;
      var before := CheckLegs(states, legs[..n]);
      if before.Some? then before
      else CheckLeg(states[legs[n].account], legs[n].account, legs[n].amount, legs[n].direction == Debit)
  }

  /** Position of the largest credit, the first one on ties. */
  function LargestCredit(legs: seq<Leg>): (r: Option<nat>)
    ensures r.Some? ==> r.value < |legs| && legs[r.value].direction == Credit
    ensures (exists i :: 0 <= i < |legs| && legs[i].direction == Credit) ==> r.Some?
    ensures forall i :: 0 <= i < |legs| && legs[i].direction == Credit ==>
              legs[i].amount <= legs[r.value].amount && (legs[i].amount == legs[r.value].amount ==> r.value <= i)
  {
    if legs == [] then None
    else
      var n := |legs| - 1;
      var before := LargestCredit(legs[..n]);
      if legs[n].direction == Credit && (before.None? || legs[n].amount > legs[before.value].amount)
      then Some(n) else before
  }

  /** The account a leg's event names as its counterparty. */
  function CounterpartyFor(legs: seq<Leg>, anchor: Account, i: nat): Option<Account>
    requires i < |legs|
  {
    if |legs| == 2 then Some(legs[1 - i].account)
    else if legs[i].account != anchor then Some(anchor)
    else
      var best := LargestCredit(legs);
      if best.None? then None else Some(legs[best.value].account)
  }

  function PostingEvent(leg: Leg, transferId: Id, counterparty: Account): Event {
    if leg.direction == Debit then TransferDebited(leg.account, leg.amount, transferId, counterparty)
    else TransferCredited(leg.account, leg.amount, transferId, counterparty)
  }

  /** The events of the first `k` legs; a leg without a valid counterparty raises. */
  function PostingEvents(legs: seq<Leg>, anchor: Account, transferId: Id, k: nat): Result<seq<Event>>
    requires k <= |legs|
  {
    if k == 0 then Ok([])
    else match PostingEvents(legs, anchor, transferId, k - 1)
         case Err(f) => Err(f)
         case Ok(es) =>
           var c := CounterpartyFor(legs, anchor, k - 1);
           if c.None? || !ValidEvent(PostingEvent(legs[k - 1], transferId, c.value)) then Err(Crashed)
           else Ok(es + [PostingEvent(legs[k - 1], transferId, c.value)])
  }

  function DecidePostings(states: map<Account, AccountState>, anchor: Account, legs: seq<Leg>, transferId: Id)
    : Result<seq<Event>>
    requires Covers(states, legs)
  {
    var error := CheckLegs(states, legs);
    if error.Some? then Err(Refused(error.value)) else PostingEvents(legs, anchor, transferId, |legs|)
  }

  /** The source's two loops: check every leg, then append one event per leg. */
  method DecidePostingsLoop(states: map<Account, AccountState>, anchor: Account, legs: seq<Leg>, transferId: Id)
    returns (r: Result<seq<Event>>)
    requires Covers(states, legs)
    ensures r == DecidePostings(states, anchor, legs, transferId)
  {
    for i := 0 to |legs|
      invariant CheckLegs(states, legs[..i]) == None
    {
      assert legs[..i + 1][..i] == legs[..i];
      var s := states[legs[i].account];
      var error := CheckLeg(s, legs[i].account, legs[i].amount, legs[i].direction == Debit);
      if error.Some? {
        FirstLegErrorStays(states, legs, i + 1);
        return Err(Refused(error.value));
      }
    }
    assert legs[..|legs|] == legs;
    var events: seq<Event> := [];
    for i := 0 to |legs|
      invariant PostingEvents(legs, anchor, transferId, i) == Ok(events)
    {
      var c := CounterpartyFor(legs, anchor, i);
      if c.None? || !ValidEvent(PostingEvent(legs[i], transferId, c.value)) {
        PostingCrashStays(legs, anchor, transferId, i + 1, |legs|);
        return Err(Crashed);
      }
      events := events + [PostingEvent(legs[i], transferId, c.value)];
    }
    r := Ok(events);
  }

  lemma {:induction false} FirstLegErrorStays(states: map<Account, AccountState>, legs: seq<Leg>, k: nat)
    requires Covers(states, legs) && k <= |legs|
    requires CheckLegs(states, legs[..k]).Some?
    ensures CheckLegs(states, legs) == CheckLegs(states, legs[..k])
    decreases |legs|
  {
    if k == |legs| {
      assert legs[..k] == legs;
    } else {
      assert legs[..|legs| - 1][..k] == legs[..k];
      FirstLegErrorStays(states, legs[..|legs| - 1], k);
    }
  }

  lemma {:induction false} PostingCrashStays(legs: seq<Leg>, anchor: Account, transferId: Id, k: nat, n: nat)
    requires k <= n <= |legs|
    requires PostingEvents(legs, anchor, transferId, k) == Err(Crashed)
    ensures PostingEvents(legs, anchor, transferId, n) == Err(Crashed)
    decreases n
  {
    if k < n { PostingCrashStays(legs, anchor, transferId, k, n - 1); }
  }

  /** Placing a hold; an expiry that no timestamp can name raises. */
  function DecideHold(s: AccountState, a: Account, target: Account, amount: int, ttl: int, holdId: Id, now: int)
    : Result<Event>
  {
    if !Matches(s, a) then Err(Refused(AccountIdentityMismatch))
    else if !HasNextVersion(s) then Err(Refused(VersionOutOfRange))
    else if !HasFunds(s, amount) then Err(Refused(InsufficientFunds))
    else if now + ttl > MAX_TIME then Err(Crashed)
    else Ok(HoldPlaced(a, amount, holdId, target, now + ttl))
  }

  /** Settling a hold: the source's debit, the target's credit and, for a smaller
      capture, the release of the rest. */
  function DecidePostHold(source: AccountState, target: AccountState, hold: Option<OpenHold>,
                          a: Account, holdId: Id, capture: Option<int>, now: int)
    : Result<seq<Event>>
  {
    if hold.None? then Err(Refused(HoldNotOpen))
    else if hold.value.ExpiredAt(now) then Err(Refused(HoldExpired))
    else
      var h := hold.value;
      var amount := if capture.None? then h.amount else capture.value;
      if amount > h.amount then Err(Refused(CaptureExceedsHold))
      else if !Matches(source, a) then Err(Refused(AccountIdentityMismatch))
      else if !Matches(target, h.counterparty) then Err(Refused(AccountIdentityMismatch))
      else if !HasNextVersion(source) || !HasNextVersion(target) then Err(Refused(VersionOutOfRange))
      else if h.amount > source.held || h.amount > source.balance then Err(Refused(InvalidAccountState))
      else if !CreditFits(target, amount) then Err(Refused(AmountOutOfRange))
      else if h.counterparty == a then Err(Crashed)
      else
        var events := [HoldPosted(a, amount, holdId, h.counterparty),
                       TransferCredited(h.counterparty, amount, holdId, a)];
        Ok(if amount < h.amount then events + [HoldReleased(a, h.amount - amount, holdId, Partial)] else events)
  }

  /** Void at any time while open; expire only once the deadline has passed. */
  function DecideReleaseHold(s: AccountState, hold: Option<OpenHold>, a: Account, holdId: Id, expire: bool, now: int)
    : Result<Event>
  {
    if hold.None? then Err(Refused(HoldNotOpen))
    else if expire && !hold.value.ExpiredAt(now) then Err(Refused(HoldNotExpired))
    else if !Matches(s, a) then Err(Refused(AccountIdentityMismatch))
    else if !HasNextVersion(s) then Err(Refused(VersionOutOfRange))
    else if hold.value.amount > s.held then Err(Refused(InvalidAccountState))
    else Ok(HoldReleased(a, hold.value.amount, holdId, if expire then Expired else Voided))
  }

  /** The mirror of one movement leg: a credit becomes a debit and back. */
  function MirrorEvent(leg: Event, transferId: Id, reverts: Id): Event
    requires IsMovement(leg)
  {
    if BalanceSign(leg) > 0 then ReversalDebited(leg.account, leg.amount, transferId, leg.counterparty, reverts)
    else ReversalCredited(leg.account, leg.amount, transferId, leg.counterparty, reverts)
  }

  ghost predicate AllMovement(events: seq<Event>) {
    forall i :: 0 <= i < |events| ==> IsMovement(events[i])
  }

  predicate CoversEvents(states: map<Account, AccountState>, events: seq<Event>) {
    forall i :: 0 <= i < |events| ==> events[i].account in states
  }

  /** Mirror every leg in order; the first failing leg refuses the whole set. */
  function MirrorLegs(states: map<Account, AccountState>, legs: seq<Event>, transferId: Id, reverts: Id)
    : Result<seq<Event>>
    requires AllMovement(legs) && CoversEvents(states, legs)
  {
    if legs == [] then Ok([])
    else
      var n := |legs| - 1;
      match MirrorLegs(states, legs[..n], transferId, reverts)
      case Err(f) => Err(f)
      case Ok(es) =>
        var leg := legs[n];
        var error := CheckLeg(states[leg.account], leg.account, leg.amount, BalanceSign(leg) > 0);
        if error.Some? then Err(Refused(error.value))
        else if !ValidEvent(MirrorEvent(leg, transferId, reverts)) then Err(Crashed)
        else Ok(es + [MirrorEvent(leg, transferId, reverts)])
  }

  /** The movement legs among the rows of a set. */
  function MovementLegs(events: seq<Event>): (r: seq<Event>)
    ensures AllMovement(r)
  {
    if events == [] then []
    else
      var before := MovementLegs(events[..|events| - 1]);
      var e := events[|events| - 1];
      if IsMovement(e) then before + [e] else before
  }

  lemma {:induction false} InMovementLegs(events: seq<Event>)
    ensures forall e :: e in MovementLegs(events) <==> e in events && IsMovement(e)
  {
    if events != [] {
      var n := |events| - 1;
      InMovementLegs(events[..n]);
      assert events == events[..n] + [events[n]];
    }
  }

  lemma MovementCovered(states: map<Account, AccountState>, events: seq<Event>)
    requires CoversEvents(states, events)
    ensures CoversEvents(states, MovementLegs(events))
  {
    InMovementLegs(events);
    var legs := MovementLegs(events);
    forall i | 0 <= i < |legs| ensures legs[i].account in states { assert legs[i] in events; }
  }

  function DecideRevert(states: map<Account, AccountState>, original: seq<Event>, anchor: Account,
                        transferId: Id, reverts: Id, revertedBy: Option<Id>)
    : Result<seq<Event>>
    requires CoversEvents(states, original)
  {
    var legs := MovementLegs(original);
    MovementCovered(states, original);
    if legs == [] then Err(Refused(NotRevertible))
    else if revertedBy.Some? then Err(Refused(AlreadyReverted))
    else if !exists i :: 0 <= i < |legs| && legs[i].account == anchor && BalanceSign(legs[i]) < 0 then
      Err(Refused(AnchorNotCredited))
    else MirrorLegs(states, legs, transferId, reverts)
  }
}
