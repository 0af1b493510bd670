/** When the refusal an interleaved transaction records is the answer the serial unit of work
    would give at that moment: exact conditions for every kind of command.

    All the statements are about a transaction at its decision step, with everything read,
    whose id has no stored result yet. */
module StaleRefusals {
  import opened Events
  import opened Accounts
  import opened Views
  import opened Commands
  import opened Execution
  import opened Soundness
  import opened Runs
  import opened LedgerTheorems
  import opened Aborts
  import opened Effects
  import opened Refusals
  import opened Optimistic
  import opened Interleaving
  import L = Ledger

  /** The transaction has read all it needs but the reversal, which it reads with the decision. */
  ghost predicate Deciding(sys: Sys, i: nat) {
    && i < |sys.txns| && sys.txns[i].phase.FoldNext? && sys.txns[i].phase.k == |NamedOf(sys.txns[i])|
    && sys.txns[i].request.id !in sys.db.results
  }

  ghost function LastReads(sys: Sys, i: nat): Reads
    requires Deciding(sys, i)
  {
    sys.txns[i].phase.seen.(revertedBy := RevertedByRead(sys.db.log, sys.txns[i].request.command))
  }

  /** The decision step of transaction `i` records a refusal with this error. */
  ghost predicate Refuses(sys: Sys, i: nat, error: DomainError) {
    && Deciding(sys, i) && Sufficient(sys.txns[i].request.command, LastReads(sys, i))
    && DecideEvents(sys.txns[i].request.command, sys.txns[i].request.id, sys.txns[i].request.now, LastReads(sys, i))
       == Err(Refused(error))
  }

  /** The version the transaction folded its anchor at. */
  ghost function FoldedVersion(sys: Sys, i: nat): int
    requires Deciding(sys, i) && sys.txns[i].request.command.account in sys.txns[i].phase.seen.states
  {
    sys.txns[i].phase.seen.states[sys.txns[i].request.command.account].version
  }

  /** What that step writes. */
  lemma RefusalWritten(sys: Sys, i: nat, error: DomainError, now: int, first: Id)
    requires SysInv(sys) && Refuses(sys, i, error)
    ensures sys.txns[i].request.command.account in sys.txns[i].phase.seen.states
    ensures Do(sys, Step(i, now, first)).txns[i].phase ==
            Writing(LastReads(sys, i), [], Refusal(sys.txns[i].request, FoldedVersion(sys, i), Rejected(error)), 0)
  {
    hide DbInv, TxnInv, KeysInv, DecideEvents, Sufficient, NumberLegs, RevertedByRead;
    var t := sys.txns[i];
    assert Shape(t);
    AllFolded(t, LastReads(sys, i));
  }

  /** Deciding serially on the database of that moment stores the very same refusal. */
  ghost predicate IsSerial(sys: Sys, i: nat, error: DomainError)
    requires Deciding(sys, i) && sys.txns[i].request.command.account in sys.txns[i].phase.seen.states
  {
    Execute(sys.db, sys.txns[i].request).1 == Decided(Refusal(sys.txns[i].request, FoldedVersion(sys, i), Rejected(error)))
  }

  ghost predicate AnchorIsCurrent(sys: Sys, i: nat)
    requires Deciding(sys, i) && sys.txns[i].request.command.account in sys.txns[i].phase.seen.states
  {
    FoldedVersion(sys, i) == |Stream(sys.db.log, sys.txns[i].request.command.account)|
  }

  lemma AnchorFolded(sys: Sys, i: nat)
    requires SysInv(sys) && Deciding(sys, i)
    ensures ReadsInv(sys.db.log, sys.txns[i].request.command, sys.txns[i].phase.seen)
    ensures ValidCommand(sys.txns[i].request.command)
  {
    hide DbInv, KeysInv, ReadsInv, ValidCommand;
    assert TxnInv(sys.db.log, sys.txns[i]);
  }

  /** For every kind of command: the recorded refusal is the serial answer if and only if the
      anchor's stream has not grown since it was folded and the ledger now has that reason. */
  lemma SerialExactly(sys: Sys, i: nat, error: DomainError)
    requires SysInv(sys) && Refuses(sys, i, error)
    ensures ReadsInv(sys.db.log, sys.txns[i].request.command, sys.txns[i].phase.seen)
    ensures IsSerial(sys, i, error) <==>
              AnchorIsCurrent(sys, i) && Reason(sys.db.log, sys.txns[i].request.command, sys.txns[i].request.now) == Some(error)
  {
    hide TxnInv, KeysInv, L.Inv, Contiguous, Execute, Reason, DecideEvents, Sufficient, StatesInv, HoldStill,
      OriginalStill, Shaped;
    AnchorFolded(sys, i);
    RefusalsTellTheTruth(sys.db, sys.txns[i].request);
  }

  // --------------------------------------------------- everything still current

  ghost predicate AllCurrent(log: seq<Row>, states: map<Account, AccountState>) {
    forall a :: a in states ==> states[a].version == |Stream(log, a)|
  }

  lemma CurrentIsExact(log: seq<Row>, c: Command, r: Reads, all: Reads)
    requires ReadsInv(log, c, r) && AllCurrent(log, r.states) && r.original == OriginalRead(log, c)
    requires all == r.(revertedBy := RevertedByRead(log, c)) && Sufficient(c, all)
    ensures ExactReads(EventsOf(log), c, all)
  {
    hide OnSet, OnAccount, Fold, RevertedBy, MovementLegs, OpenHoldOf, Named;
    forall a | a in r.states ensures Fold(OnAccount(EventsOf(log), a)) == Ok(r.states[a]) {
      assert FoldedEarlier(log, a, r.states[a]);
      assert Stream(log, a)[..|Stream(log, a)|] == Stream(log, a);
    }
  }

  /** If every folded stream is current, and for a revert the rows of its set are as read, the
      recorded refusal is the serial answer. */
  lemma SerialWhenCurrent(sys: Sys, i: nat, error: DomainError)
    requires SysInv(sys) && Refuses(sys, i, error)
    requires AllCurrent(sys.db.log, sys.txns[i].phase.seen.states)
    requires sys.txns[i].phase.seen.original == OriginalRead(sys.db.log, sys.txns[i].request.command)
    ensures sys.txns[i].request.command.account in sys.txns[i].phase.seen.states
    ensures IsSerial(sys, i, error)
  {
    hide TxnInv, KeysInv, L.Inv, Contiguous, Execute, Reason, DecideEvents, Sufficient, StatesInv, HoldStill,
      OriginalStill, Shaped, ExactReads, Shown, OriginalRead, RevertedByRead;
    var t := sys.txns[i];
    var c, log, all := t.request.command, sys.db.log, LastReads(sys, i);
    AnchorFolded(sys, i);
    SerialExactly(sys, i, error);
    CurrentIsExact(log, c, t.phase.seen, all);
    ExactIsSufficient(EventsOf(log), c, all);
    StatesShown(sys.db, all.states);
    DecisionReason(log, sys.db.results.Keys, c, t.request.id, t.request.now, all);
  }

  /** A revert that read movement legs read the rows of its set for good. */
  lemma RevertRowsStay(sys: Sys, i: nat)
    requires SysInv(sys) && Deciding(sys, i)
    requires sys.txns[i].request.command.Revert? ==> MovementLegs(sys.txns[i].phase.seen.original) != []
    ensures sys.txns[i].phase.seen.original == OriginalRead(sys.db.log, sys.txns[i].request.command)
  {
    hide TxnInv, KeysInv, DbInv, StatesInv, HoldStill, ValidCommand, OnSet, MovementLegs;
    AnchorFolded(sys, i);
  }

  // --------------------------------------------------------- one stream only

  predicate OneStream(c: Command) {
    c.Deposit? || c.Withdraw? || c.Hold? || c.VoidHold? || c.ExpireHold?
  }

  /** Commands that fold one stream: the refusal is the serial answer if and only if that
      stream has not grown. */
  lemma OneStreamExactly(sys: Sys, i: nat, error: DomainError)
    requires SysInv(sys) && Refuses(sys, i, error) && OneStream(sys.txns[i].request.command)
    ensures sys.txns[i].request.command.account in sys.txns[i].phase.seen.states
    ensures IsSerial(sys, i, error) <==> AnchorIsCurrent(sys, i)
  {
    hide TxnInv, KeysInv, DbInv, Execute, Reason, DecideEvents, Sufficient, StatesInv, HoldStill, Shaped, IsSerial,
      RevertedByRead;
    AnchorFolded(sys, i);
    SerialExactly(sys, i, error);
    RevertRowsStay(sys, i);
    if AnchorIsCurrent(sys, i) { SerialWhenCurrent(sys, i, error); }
  }

  // ---------------------------------------------- a second stream that may move

  /** A state folded from an earlier length of its stream names its account and cannot have more
      events than the stream has now. */
  lemma EarlierState(db: Db, a: Account, s: AccountState)
    requires DbInv(db) && FoldedEarlier(db.log, a, s)
    ensures Matches(s, a) && s.version <= |Stream(db.log, a)| <= MAX_BIGINT && 0 <= s.held <= s.balance
    ensures s.version == |Stream(db.log, a)| ==> FoldStream(db.log, a) == Ok(s)
    ensures FoldStream(db.log, a).Ok?
  {
    var es := EventsOf(db.log);
    var now := StateOf(es, db.results.Keys, a);
    InOnAccount(es, a);
    var st := Stream(db.log, a);
    var part := st[..s.version];
    forall k | 0 <= k < |st| ensures ValidEvent(st[k]) && st[k].account == a { assert st[k] in es; }
    FoldIsSums(part, a);
    assert st[..|st|] == st;
    hide *;
  }

  /** A credit checked against a stale state: an exhausted stream stays exhausted; only the
      headroom can have changed. */
  lemma StaleCredit(db: Db, a: Account, s: AccountState, amount: int, error: DomainError)
    requires DbInv(db) && FoldedEarlier(db.log, a, s) && CheckLeg(s, a, amount, false) == Some(error)
    ensures error == VersionOutOfRange || error == AmountOutOfRange
    ensures LegReason(db.log, a, amount, false) == Some(error) <==>
              (error == AmountOutOfRange ==> !Full(db.log, a) && Overflows(db.log, a, amount))
  {
    hide DbInv, FoldedEarlier, FoldStream, Stream;
    EarlierState(db, a, s);
  }

  /** A leg checked against a current state. */
  lemma CurrentLeg(db: Db, a: Account, s: AccountState, amount: int, debit: bool)
    requires DbInv(db) && FoldedEarlier(db.log, a, s) && s.version == |Stream(db.log, a)|
    ensures CheckLeg(s, a, amount, debit) == LegReason(db.log, a, amount, debit)
  {
    hide DbInv, FoldedEarlier, FoldStream, Stream;
    EarlierState(db, a, s);
  }

  lemma TwoLegs(log: seq<Row>, c: Command, states: map<Account, AccountState>)
    requires c.Transfer? && Covers(states, LegsOf(c))
    ensures c.account in states && c.target in states
    ensures var first := CheckLeg(states[c.account], c.account, c.amount, true);
            CheckLegs(states, LegsOf(c)) ==
              if first.Some? then first else CheckLeg(states[c.target], c.target, c.amount, false)
    ensures var first := LegReason(log, c.account, c.amount, true);
            FirstReason(log, LegsOf(c)) == if first.Some? then first else LegReason(log, c.target, c.amount, false)
  {
    hide CheckLeg, LegReason;
    var legs := LegsOf(c);
    assert legs[0].account == c.account && legs[1].account == c.target;
    assert legs[..1] == [legs[0]] && legs[..1][..0] == [];
    assert CheckLegs(states, legs[..1]) == CheckLeg(states[c.account], c.account, c.amount, true);
    assert FirstReason(log, legs[..1]) == LegReason(log, c.account, c.amount, true);
  }

  /** A transfer's refusal is the serial answer if and only if the payer's stream has not grown
      and, when the payee's headroom was the reason, the payee still lacks it. */
  lemma TransferExactly(sys: Sys, i: nat, error: DomainError)
    requires SysInv(sys) && Refuses(sys, i, error) && sys.txns[i].request.command.Transfer?
    ensures sys.txns[i].request.command.account in sys.txns[i].phase.seen.states
    ensures var c, log := sys.txns[i].request.command, sys.db.log;
            IsSerial(sys, i, error) <==>
              AnchorIsCurrent(sys, i) &&
              (error == AmountOutOfRange ==> !Full(log, c.target) && Overflows(log, c.target, c.amount))
  {
    hide TxnInv, KeysInv, DbInv, Execute, Sufficient, HoldStill, OriginalStill, Shaped, IsSerial, RevertedByRead,
      CheckLegs, FirstReason, LegReason, CheckLeg, Full, Overflows, FoldedEarlier, PostingEvents, LegsOf;
    var t := sys.txns[i];
    var c, log, r := t.request.command, sys.db.log, LastReads(sys, i);
    AnchorFolded(sys, i);
    SerialExactly(sys, i, error);
    NamedCovers(c, r);
    TwoLegs(log, c, r.states);
    PostingFaults(LegsOf(c), c.account, t.request.id, |LegsOf(c)|);
    assert CheckLegs(r.states, LegsOf(c)) == Some(error);
    if AnchorIsCurrent(sys, i) {
      CurrentLeg(sys.db, c.account, r.states[c.account], c.amount, true);
      DebitReason(log, c.account, c.amount);
      if CheckLeg(r.states[c.account], c.account, c.amount, true).None? {
        StaleCredit(sys.db, c.target, r.states[c.target], c.amount, error);
      }
    }
  }

  lemma DebitReason(log: seq<Row>, a: Account, amount: int)
    ensures LegReason(log, a, amount, true) != Some(AmountOutOfRange)
  {}

  /** Settling a hold: the same, with the hold's target as the payee. */
  lemma CaptureExactly(sys: Sys, i: nat, error: DomainError)
    requires SysInv(sys) && Refuses(sys, i, error) && sys.txns[i].request.command.PostHold?
    ensures sys.txns[i].request.command.account in sys.txns[i].phase.seen.states
    ensures var c, log, hold := sys.txns[i].request.command, sys.db.log, sys.txns[i].phase.seen.hold;
            IsSerial(sys, i, error) <==>
              AnchorIsCurrent(sys, i) &&
              (error == AmountOutOfRange && hold.Some? ==>
                 !Full(log, hold.value.counterparty) && Overflows(log, hold.value.counterparty, Captured(c, hold.value)))
  {
    hide TxnInv, KeysInv, DbInv, Execute, Sufficient, OriginalStill, Shaped, IsSerial, RevertedByRead, DecideEvents,
      Reason, Full, Overflows, FoldedEarlier, OpenHoldOf, Stream;
    var t := sys.txns[i];
    var c, r := t.request.command, LastReads(sys, i);
    AnchorFolded(sys, i);
    SerialExactly(sys, i, error);
    NamedCovers(c, r);
    if AnchorIsCurrent(sys, i) { StaleCapture(sys.db, c, t.request.id, t.request.now, r, error); }
  }

  lemma StaleCapture(db: Db, c: Command, id: Id, now: int, r: Reads, error: DomainError)
    requires DbInv(db) && c.PostHold? && c.account in r.states && StatesInv(db.log, r.states) && Sufficient(c, r)
    requires r.states[c.account].version == |Stream(db.log, c.account)| && r.hold == OpenHoldOf(c.holdId, Stream(db.log, c.account))
    requires DecideEvents(c, id, now, r) == Err(Refused(error))
    ensures Reason(db.log, c, now) == Some(error) <==>
              (error == AmountOutOfRange && r.hold.Some? ==>
                 !Full(db.log, r.hold.value.counterparty) && Overflows(db.log, r.hold.value.counterparty, Captured(c, r.hold.value)))
  {
    hide DbInv, FoldedEarlier, FoldStream, Stream, OpenHoldOf, Overflows;
    NamedCovers(c, r);
    EarlierState(db, c.account, r.states[c.account]);
    if r.hold.Some? {
      var p := r.hold.value.counterparty;
      EarlierState(db, p, r.states[p]);
      HoldCovered(db, c, r.states[c.account]);
      if CheckLeg(r.states[p], p, Captured(c, r.hold.value), false).Some? {
        StaleCredit(db, p, r.states[p], Captured(c, r.hold.value), CheckLeg(r.states[p], p, Captured(c, r.hold.value), false).value);
      }
    }
  }

  lemma HoldCovered(db: Db, c: Command, s: AccountState)
    requires DbInv(db) && HoldIdOf(c).Some? && FoldStream(db.log, c.account) == Ok(s)
    requires OpenHoldOf(c.holdId, Stream(db.log, c.account)).Some?
    ensures OpenHoldOf(c.holdId, Stream(db.log, c.account)).value.amount <= s.held <= s.balance
  {
    hide L.Inv, Contiguous;
    FoldCoversOpenHold(EventsOf(db.log), db.results.Keys, c.account, c.holdId, s);
  }
}
