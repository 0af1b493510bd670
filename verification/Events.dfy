/** The immutable account events, their row columns and the two sign tables.

    Account ids and UUIDs are naturals: only equality and, for account ids, the
    total order used to sort legs matter. Timestamps are integers. */
module Events {
  type Account = nat
  type Id = nat

  const MAX_BIGINT: int := 0x7FFF_FFFF_FFFF_FFFF

  /** The last second a timestamp can name (the end of the year 9999, from the epoch). */
  const MAX_TIME: int := 253402300799

  datatype Option<+T> = None | Some(value: T)

  datatype ReleaseReason = Voided | Expired | Partial

  datatype Event =
    | Deposited(account: Account, amount: int)
    | Withdrawn(account: Account, amount: int)
    | TransferDebited(account: Account, amount: int, transferId: Id, counterparty: Account)
    | TransferCredited(account: Account, amount: int, transferId: Id, counterparty: Account)
    | HoldPlaced(account: Account, amount: int, holdId: Id, counterparty: Account, expiresAt: int)
    | HoldReleased(account: Account, amount: int, holdId: Id, reason: ReleaseReason)
    | HoldPosted(account: Account, amount: int, holdId: Id, counterparty: Account)
    | ReversalDebited(account: Account, amount: int, transferId: Id, counterparty: Account, reverts: Id)
    | ReversalCredited(account: Account, amount: int, transferId: Id, counterparty: Account, reverts: Id)

  /** Direction in which an event moves the balance of its account. */
  function BalanceSign(e: Event): int {
    match e
    case Deposited(_, _) => 1
    case Withdrawn(_, _) => -1
    case TransferCredited(_, _, _, _) => 1
    case TransferDebited(_, _, _, _) => -1
    case HoldPlaced(_, _, _, _, _) => 0
    case HoldReleased(_, _, _, _) => 0
    case HoldPosted(_, _, _, _) => -1
    case ReversalDebited(_, _, _, _, _) => -1
    case ReversalCredited(_, _, _, _, _) => 1
  }

  /** Direction in which an event moves the held amount of its account. */
  function HeldSign(e: Event): int {
    match e
    case HoldPlaced(_, _, _, _, _) => 1
    case HoldReleased(_, _, _, _) => -1
    case HoldPosted(_, _, _, _) => -1
    case _ => 0
  }

  /** `sign * amount` for a sign of -1, 0 or 1. */
  function Signed(sign: int, amount: int): int {
    if sign > 0 then amount else if sign < 0 then -amount else 0
  }

  function BalanceDelta(e: Event): int { Signed(BalanceSign(e), e.amount) }

  function HeldDelta(e: Event): int { Signed(HeldSign(e), e.amount) }

  /** The `transfer_id` column: a hold event stores its hold id there. */
  function SetId(e: Event): Option<Id> {
    match e
    case Deposited(_, _) => None
    case Withdrawn(_, _) => None
    case TransferDebited(_, _, t, _) => Some(t)
    case TransferCredited(_, _, t, _) => Some(t)
    case HoldPlaced(_, _, h, _, _) => Some(h)
    case HoldReleased(_, _, h, _) => Some(h)
    case HoldPosted(_, _, h, _) => Some(h)
    case ReversalDebited(_, _, t, _, _) => Some(t)
    case ReversalCredited(_, _, t, _, _) => Some(t)
  }

  /** The `reverts` column: only a reversal leg names the set it mirrors. */
  function RevertsColumn(e: Event): Option<Id> {
    if e.ReversalDebited? || e.ReversalCredited? then Some(e.reverts) else None
  }

  /** The legs of a posting set: what a revert can turn around. */
  predicate IsMovement(e: Event) {
    e.TransferDebited? || e.TransferCredited? || e.HoldPosted? || e.ReversalDebited? || e.ReversalCredited?
  }

  predicate IsHoldEvent(e: Event) {
    e.HoldPlaced? || e.HoldReleased? || e.HoldPosted?
  }

  predicate ValidAmount(amount: int) { 1 <= amount <= MAX_BIGINT }

  /** What the event constructors insist on. */
  predicate ValidEvent(e: Event) {
    && ValidAmount(e.amount)
    && (!e.Deposited? && !e.Withdrawn? && !e.HoldReleased? ==> e.counterparty != e.account)
    && (e.ReversalDebited? || e.ReversalCredited? ==> e.reverts != e.transferId)
  }
}
