# A verified model of the event-sourced ledger

This Dafny project models the core of the ledger service and proves what the service is
built to guarantee. Account streams are folded, nine kinds of commands are decided against
the folds, and each accepted command appends one to sixteen events atomically and stores one
result per command id. Around that core stand an optimistic PostgreSQL unit of work, a
snapshot cache, an outbox feed, idempotent read models with dead letters, a resilient
consumer and two rate limiters. All of them are modelled here and have to agree with the log.

How the parts build on each other:

- `Events`, `Accounts`, `Commands`, `Views`, `Execution`, `Numbering`: the data, the pure
  decisions, the storage queries and the serial execution of one request.
- `Ledger`, `Batches`, `Soundness`, `Runs`: the invariant of the log, why every kind of batch
  keeps it, why every decision produces such a batch, and serial runs.
- `LedgerTheorems`, `Effects`, `HoldLife`, `NewRows`, `Refusals`, `Aborts`, `Reachability`:
  what follows for every run, and what each command writes, does or is refused for, stated
  without its decision. `Idempotence`: one answer per command id.
- `SerialUnit`: the SQLite unit of work as a class, proved to be the serial execution.
- `Optimistic`, `Interleaving`, `Serializability`, `Retries`, `Uncontended`, `Waiting`: the READ
  COMMITTED machine, in which every read sees the committed log of its own moment and every insert takes a
  unique key. `Races`, `StaleRefusals`, `RefusalMoments`, `StaleGuard`: what becomes of refusals.
- `Snapshots`, `SnapshotStore`: the verified cache over the fold.
- `Outbox`, `Writers`, `Projection`, `Rebuild`, `Republish`, `ReadModels`, `Resilience`,
  `Consumption`: the feed, the units of work as its writers, the tables it builds and the
  consumers that build them.
- `Memo`, `RateLimits`: the memoized command handler and the token buckets.

Three results differ from what one might expect of the code:

- Every acceptance is serializable (`Serializability.ConcurrentIsSerial`), but a refusal need not
  be: a hold can be placed between the fold of the anchor and the read of the hold, and the stored
  answer is then one no serial run gives (`Races.RefusalsAreNotSerializable`). At the decision, a
  refusal is the serial answer if and only if the anchor's stream has not grown since it was folded
  and the log still has that reason (`StaleRefusals.SerialExactly`). For commands on one stream the
  first half alone is the condition (`StaleRefusals.OneStreamExactly`); for a transfer or a capture
  only the payee's headroom can have changed (`StaleRefusals.TransferExactly`,
  `StaleRefusals.CaptureExactly`); for every command it is enough that all folded streams are
  current and, for a revert, that its set's rows are as read (`StaleRefusals.SerialWhenCurrent`).
  Version conflicts and the rejections of deposits, withdrawals and holds are always the serial
  answer of an earlier moment (`RefusalMoments.StoredRefusalHadItsMoment`). The guard against an
  open hold that exceeds the held funds fires exactly when the hold that was read is live, was not
  placed yet when the anchor was folded, and exceeds what was held then
  (`StaleGuard.GuardFiresExactly`).
- Two commands pass every check and are still rolled back with no stored result. Settling a hold
  asks for one free version on the source, but a partial capture writes two events there, so at
  the last version but one the envelope raises. Placing a hold adds the caller's time to live to
  the clock, and a sum past the last timestamp raises; the command accepts any positive time to
  live, only the HTTP route bounds it. These are the only two cases (`Aborts.RollsBackExactly`),
  and both are reached by runs (`Reachability`).
- Rebuilding the tables needs no assumption that a set is delivered before its reversal. A
  reversal writes the very streams its original wrote, so per-stream order implies it
  (`Rebuild.CausalNames`), and the relay of the events table keeps that order for whatever the
  units of work wrote (`Writers.WritersFeedTheTables`).

Modelling choices: account ids and UUIDs are naturals and only their equality, and for account
ids their order, is used. Times are whole seconds, or reals in the rate limiters. The request hash
is the request itself. A Python exception that is not a domain error is `Crashed` and rolls the
transaction back. The clock, fresh event ids, faults and interleavings are parameters that
range over all values. The ledger invariant is stated at command boundaries, because it is
false between the two source rows of a partial capture.

## Model

| member | source | states |
|---|---|---|
| `Accounts.Apply` | cloudscale/domain/account.py:497-530 | an event that applies to a valid state leaves a valid one (0 <= held <= balance <= 2^63-1) owned by the event's account |
| `Accounts.FoldEvents` | cloudscale/domain/account.py:533-541 | the loop computes the recursive fold and stops at the first event that does not apply |
| `Accounts.FoldIsSums` | cloudscale/domain/account.py:497-541 | a fold that succeeds is the signed balance and held sums of the stream, its length and its owner |
| `Accounts.OpenHoldFromEvents` | cloudscale/domain/account.py:266-282 | the loop with its early return finds exactly the open hold of the stream |
| `Accounts.LargestCredit` | cloudscale/domain/account.py:224-232 | the primary payee is a largest credit, the first one on ties, and exists whenever a credit does |
| `Accounts.DecidePostingsLoop` | cloudscale/domain/account.py:195-245 | checking every leg and then appending one event per leg gives the specified decision with the first failing leg's error |
| `Commands.PostingSetOf` | cloudscale/domain/commands.py:95-107 | a valid transfer is a valid balanced posting set whose anchor is debited |
| `Commands.PostingLegs` | cloudscale/domain/commands.py:150-153 | a posting set has two to sixteen legs |
| `Commands.SixteenLegsAreValid` | cloudscale/domain/commands.py:145-167 | sixteen legs are allowed |
| `Execution.NumberLegsLoop` | cloudscale/application/command_execution.py:282-294 | the dictionary loop followed by a stable sort is the specified numbering |
| `Numbering.NumberLegsSpec` | cloudscale/application/command_execution.py:282-294 | every stream keeps its events in order with consecutive versions after its fold, and the (account, version) keys strictly ascend |
| `Execution.EventsCovered` | cloudscale/application/command_execution.py:215-279 | every decided event lands on a stream that was folded |
| `Soundness.DecisionSound` | cloudscale/application/command_execution.py:180-294 | the legs of every accepted command apply to all their streams, form one of the six batch kinds, and write every stream the decision folded |
| `Soundness.OpenHoldPlaced` | cloudscale/domain/account.py:248-282 | an open hold has a valid amount and names another account |
| `Batches.BatchKeeps` | cloudscale/application/command_execution.py:139-160 | appending any such batch keeps the whole ledger invariant |
| `Runs.PostingsSpec` | cloudscale/application/command_execution.py:139-160 | the postings name each written stream once, with its last event and version |
| `Runs.ExecuteKeeps` | cloudscale/application/command_execution.py:88-177 | every request, accepted, refused, replayed or rolled back, keeps the invariant of the database |
| `Runs.RunKeeps` | cloudscale/adapters/sqlite_compat/command_unit_of_work.py:203-218 | every database a serial run reaches satisfies the invariant |
| `LedgerTheorems.EveryAccountIsSound` | cloudscale/domain/account.py:73-107 | in every run every stream folds within bounds, its version is its length and rows are numbered 1..n |
| `LedgerTheorems.HeldIsTheSumOfOpenHolds` | cloudscale/domain/account.py:266-282 | after every command the folded held amount is the sum of the open holds derived one by one |
| `LedgerTheorems.GuardsNeverFire` | cloudscale/domain/account.py:334-339 | decided on the log it read, no command meets the "open hold exceeds held funds" or identity guards |
| `LedgerTheorems.SerialGuardsNeverFire` | cloudscale/domain/account.py:385-388 | no request of a serial run is answered with those errors |
| `LedgerTheorems.MoneyIsConserved` | cloudscale/domain/events.py:261-289 | over every run the balances add up to deposits minus withdrawals |
| `LedgerTheorems.SetsAreBalanced` | cloudscale/domain/commands.py:145-167 | in every run the movement legs of a set name distinct accounts and sum to zero |
| `LedgerTheorems.CommittedSetsAreFinal` | cloudscale/application/command_execution.py:261-279 | once a set has moved money its rows never change |
| `LedgerTheorems.ReversalCancels` | cloudscale/domain/account.py:447-494 | a reversal cancels its original on every account and is the only one naming it |
| `LedgerTheorems.RevertChains` | cloudscale/domain/account.py:428-494 | a set and k successive reverts leave each account with net zero for odd k and the original effect for even k |
| `LedgerTheorems.AcceptedResultIsExact` | cloudscale/domain/results.py:176-196 | an accepted result has one posting per written stream, in append order, each with the new stream length and the id of its last event, and includes the addressed account's own |
| `LedgerTheorems.ResubmissionIsInert` | cloudscale/application/command_execution.py:96-110 | a decided id changes nothing: the same request gets the stored answer, another one a conflict with the current version |
| `Idempotence.DecisionIsStored` | cloudscale/application/command_execution.py:139-177 | a decision is stored under its id with the request's own command and caller, refusals leave the log alone and any other answer changes nothing |
| `Idempotence.DecidedOnceReplayedForEver` | cloudscale/application/command_execution.py:96-99 | once decided, the same request is answered with the same stored result after any later requests |
| `Idempotence.StoredAsSubmitted` | cloudscale/application/command_execution.py:161-177 | every result an interleaving stores carries the id, command and caller of a submitted request |
| `Idempotence.CommitAnswers` | cloudscale/adapters/postgres/command_unit_of_work.py:213-218 | a commit publishes its rows and stores the very result it answers with |
| `Idempotence.ReplayedConcurrently` | cloudscale/application/command_execution.py:96-99 | in every interleaving a transaction for a request already committed is answered with that result |
| `LedgerTheorems.ErasingResubmissions` | cloudscale/application/command_execution.py:96-137 | erasing every resubmission from a run leaves the database and all first answers unchanged |
| `Effects.AcceptedExactly` | cloudscale/application/command_execution.py:88-177 | a request is accepted if and only if its id is new, its version current and balances, holds, room and expiry admit it, for all nine kinds |
| `Effects.AcceptedDoes` | cloudscale/domain/account.py:144-494 | after an accepted command every account's balance and held amount have changed by exactly the command's effect |
| `NewRows.AcceptedRowsMean` | cloudscale/domain/account.py:144-494 | after an accepted command every stream has grown by exactly the rows the command means, field by field; a revert's rows keep account, amount and counterparty, turn the direction and carry both ids |
| `NewRows.AcceptedIds` | cloudscale/application/command_execution.py:139-160 | the new rows stand at the end of the log by ascending account under consecutive event ids |
| `NewRows.ReversalTurnsAround` | cloudscale/domain/account.py:447-464 | in every interleaving each row of a reversal turns around one leg of the set it names, with its counterparty |
| `HoldLife.HoldOpens` | cloudscale/domain/account.py:285-305 | an accepted hold is open under the command id with its amount, target and expiry |
| `HoldLife.HoldCloses` | cloudscale/domain/account.py:308-394 | a settled, voided or expired hold is closed in the way the command names and stays closed under every later request |
| `HoldLife.RevertIsRecorded` | cloudscale/domain/account.py:467-494 | an accepted revert becomes the reversal the set's query returns, and there was none before |
| `Refusals.RefusalsTellTheTruth` | cloudscale/application/command_execution.py:112-137 | a refusal is stored if and only if the id is new, the version current and the log has that very reason first; a version conflict if and only if the caller's version is not current |
| `Aborts.CounterpartyMeans` | cloudscale/domain/account.py:224-232 | with two legs an event names the other account, otherwise the payer, and the payer's own leg the largest payee, the first one on ties |
| `Aborts.PostingNames` | cloudscale/domain/account.py:234-245 | the events of a posting set carry those counterparties |
| `Aborts.DecisionCrashes` | cloudscale/domain/account.py:285-305 | on an exact read of a reachable log a decision raises something other than a domain error if and only if the expiry of an affordable hold overflows |
| `Aborts.RollsBackExactly` | cloudscale/domain/account.py:334-364 | a request rolls back with no stored result if and only if it is a partial capture at the last version but one or a hold whose expiry overflows |
| `Reachability.FullBalanceIsReachable` | cloudscale/domain/account.py:131-136 | a run reaches the largest balance, 2^63 - 1 |
| `Reachability.LastSecondIsAccepted` | cloudscale/domain/account.py:299-305 | a hold that expires at the last second a timestamp can name is accepted |
| `Reachability.CaptureIsReachable` | cloudscale/domain/account.py:334-364 | a run of deposits and one hold reaches a database on which a partial capture rolls back |
| `Reachability.OverflowIsReachable` | cloudscale/domain/account.py:299-305 | one deposit reaches a database on which a hold with an overflowing expiry rolls back |
| `SerialUnit.UnitOfWork.FoldOtherStreams` | cloudscale/application/command_execution.py:215-226 | the loop folds each named stream once and keeps the anchor's state |
| `SerialUnit.UnitOfWork.DecideLegs` | cloudscale/application/command_execution.py:180-212 | reads, decides and numbers as the atomic decision does |
| `SerialUnit.UnitOfWork.AppendLegs` | cloudscale/application/command_execution.py:139-177 | the append loop publishes all rows, postings and the result, or restores the log when a leg raises |
| `SerialUnit.UnitOfWork.ExecuteCommand` | cloudscale/adapters/sqlite_compat/command_unit_of_work.py:203-218 | the tables and the answer are those of the serial execution, and the invariant is kept |
| `Interleaving.CommitReadsExact` | cloudscale/application/command_execution.py:244-279 | a decision whose keys are all free was made on exactly what the log says at commit |
| `Interleaving.CommitIsSerial` | cloudscale/adapters/postgres/command_unit_of_work.py:261-277 | whenever an accepted command commits, deciding it again atomically on the current database gives the same rows, versions and result |
| `Interleaving.TxnStays` | cloudscale/adapters/postgres/command_unit_of_work.py:98-135 | what an open transaction has read survives every foreign commit in the sense the commit needs |
| `Interleaving.ReversalStays` | cloudscale/application/command_execution.py:268-278 | nobody can revert a set without writing on every account it moved, so a reversal read last stays absent while the anchor is unchanged |
| `Serializability.ConcurrentKeeps` | cloudscale/adapters/postgres/command_unit_of_work.py:261-277 | every state of every interleaving keeps the ledger invariant, exact decisions and free, disjoint keys |
| `Retries.RaisedAtTheThird` | cloudscale/adapters/postgres/command_unit_of_work.py:261-277 | in every interleaving a transaction has raised if and only if it met a committed key exactly three times, and none meets one a fourth time |
| `Retries.StartsOver` | cloudscale/adapters/postgres/command_unit_of_work.py:261-277 | right after the first and second collision a transaction begins again with the same id, command and caller, after the third it has raised |
| `Retries.SubmittedAs` | cloudscale/adapters/postgres/command_unit_of_work.py:261-277 | through all attempts a transaction keeps the id, command and caller it was submitted with |
| `Retries.FoldTakesTheClock` | cloudscale/application/command_execution.py:112-126 | each attempt decides with the clock reading and event ids supplied at its own fold |
| `Serializability.ConcurrentIsSerial` | cloudscale/adapters/postgres/command_unit_of_work.py:261-277 | the log and every stored acceptance of an interleaving are those of running the accepted requests serially in commit order |
| `Serializability.BooksAreRight` | cloudscale/adapters/postgres/command_unit_of_work.py:171-219 | bounds, contiguous versions, held equal to open holds and conservation hold in every interleaving |
| `Serializability.RevertedAtMostOnce` | cloudscale/domain/account.py:428-464 | in every interleaving a set is reverted at most once, by its exact mirror |
| `Serializability.ResultsAreFinal` | cloudscale/adapters/postgres/command_unit_of_work.py:213-218 | a stored result is never replaced |
| `Serializability.CommittedSetsStay` | cloudscale/adapters/postgres/command_unit_of_work.py:127-130 | in every interleaving the rows of a set that moved money never change |
| `Uncontended.RunAlone` | cloudscale/adapters/postgres/command_unit_of_work.py:261-277 | a transaction that runs while no other writes gives the serial answer and database |
| `Uncontended.SerialIsConcurrent` | cloudscale/adapters/postgres/command_unit_of_work.py:261-277 | every serial run is one of the interleavings |
| `Races.GuardCondition` | cloudscale/domain/account.py:338-388 | a command is refused as inconsistent if and only if it is on a hold, otherwise live, and read a hold larger than the folded funds |
| `Races.GuardNeedsStaleAnchor` | cloudscale/application/command_execution.py:112-126 | in every state that keeps the invariant that refusal implies that the anchor stream grew after it was folded |
| `StaleGuard.GuardFiresExactly` | cloudscale/domain/account.py:338-388 | in every interleaving the guard fires if and only if the hold read is live, was not placed yet when the anchor was folded and exceeds what was held then |
| `StaleRefusals.SerialExactly` | cloudscale/application/command_execution.py:112-137 | for every kind of command, the refusal a decision records is what the serial execution stores at that moment if and only if the anchor is current and the log has that reason |
| `StaleRefusals.SerialWhenCurrent` | cloudscale/application/command_execution.py:215-279 | it is the serial answer whenever every folded stream is current and a revert's set is as read |
| `StaleRefusals.OneStreamExactly` | cloudscale/application/command_execution.py:198-212 | for deposits, withdrawals, holds, voids and expiries it is the serial answer if and only if the anchor is current |
| `StaleRefusals.TransferExactly` | cloudscale/application/command_execution.py:229-241 | for a transfer, if and only if the payer is current and a payee that lacked headroom still does |
| `StaleRefusals.CaptureExactly` | cloudscale/application/command_execution.py:244-258 | for settling a hold, if and only if the source is current and a target that lacked headroom still does |
| `StaleRefusals.RefusalWritten` | cloudscale/application/command_execution.py:307-326 | the decision step writes exactly that refusal with the folded version |
| `RefusalMoments.StoredRefusalHadItsMoment` | cloudscale/application/command_execution.py:112-137 | every stored version conflict and every stored rejection of a deposit, withdrawal or hold is the serial answer on the database of an earlier moment of the run |
| `Races.NoSerialRunStores` | cloudscale/domain/account.py:387-388 | no serial run stores such a refusal |
| `Races.RefusalsAreNotSerializable` | cloudscale/application/command_execution.py:112-137 | a concrete interleaving stores a refusal that no serial run stores |
| `Waiting.WantedAscend` | cloudscale/application/command_execution.py:189-196 | along a chain of waiting transactions the wanted keys strictly ascend |
| `Waiting.NoWaitCycle` | cloudscale/application/command_execution.py:189-196 | in no reachable state, for any number of transactions and legs, is there a cycle of waits |
| `Waiting.SomeoneMoves` | cloudscale/application/command_execution.py:189-196 | while a transaction is unfinished, some step of some transaction changes the system |
| `Snapshots.CachedFoldIsFold` | cloudscale/application/snapshots.py:61-96 | folding from a trusted snapshot plus tail, or the full stream on rejection, is the full fold |
| `Snapshots.UsableExactly` | cloudscale/application/snapshots.py:61-89 | a snapshot is used if and only if it has this build's shape, its own version and its anchor at that place in the stream |
| `Snapshots.TrustedIsUsable` | cloudscale/application/snapshots.py:61-89 | a trusted snapshot is used if and only if its anchor is in the stream |
| `Snapshots.TrustedWhenTaken` | cloudscale/application/snapshots.py:117-135 | a snapshot taken after an append under a fresh id is trusted, also midway through a capture |
| `Snapshots.TrustedAfterAppend` | cloudscale/application/snapshots.py:78-88 | rows under other ids keep a snapshot trusted |
| `Snapshots.TrustedAfterCut` | cloudscale/application/snapshots.py:76-88 | cutting the log back to any prefix keeps every snapshot trusted |
| `SnapshotStore.SnapshotTracker.AfterAppend` | cloudscale/application/snapshots.py:117-135 | the tracked state advances by the event and a snapshot is due exactly when the interval has passed |
| `SnapshotStore.Store.FoldAccount` | cloudscale/adapters/postgres/command_unit_of_work.py:98-118 | in every state of the store the cached fold is the full fold, and the tracker learns the number of the snapshot exactly when it was used |
| `SnapshotStore.Store.Upsert` | cloudscale/adapters/postgres/command_unit_of_work.py:152-169 | the row is written exactly when there is none or an older one |
| `SnapshotStore.Store.AppendEvent` | cloudscale/adapters/sqlite_compat/command_unit_of_work.py:304-344 | one appended row, its snapshot upserted exactly when due, and every snapshot ever issued still trusted |
| `SnapshotStore.Store.Rollback` | cloudscale/adapters/sqlite_compat/command_unit_of_work.py:203-218 | rolling back restores log and rows and keeps the claims |
| `SnapshotStore.Store.CutBack` | cloudscale/application/snapshots.py:76-88 | truncating the log while snapshot rows remain keeps every later fold correct |
| `SnapshotStore.Store.AnyIssuedSnapshot` | cloudscale/application/snapshots.py:61-89 | any snapshot ever written, dropped or read earlier, folds to the full fold of the current log |
| `Outbox.EventTable.Insert` | cloudscale/adapters/postgres/event_store.py:80-110 | an insert by a writer that saw every earlier number succeeds if and only if both keys are free, takes the next id either way and keeps uniqueness and stream order |
| `Outbox.EventTable.Append` | cloudscale/adapters/postgres/event_store.py:68-110 | numbering after the largest committed row is such an insert, and a collision raises |
| `Outbox.EventTable.Finish` | cloudscale/adapters/postgres/event_store.py:80-110 | commit or rollback in any order keeps the feed's invariants |
| `Outbox.EventTable.RelayOutbox` | cloudscale/adapters/postgres/event_store.py:114-147 | every committed event is published in id order, old positions are unchanged, positions stay 1..n |
| `Outbox.RelayKeeps` | cloudscale/adapters/postgres/event_store.py:114-147 | publishing the pending rows in id order keeps gapless positions, one per event, in stream order |
| `Outbox.EventTable.ReadAll` | cloudscale/adapters/postgres/event_store.py:165-190 | the batch is the outbox after the position, relayed first |
| `Outbox.EventTable.ExactlyOnePosition` | cloudscale/adapters/postgres/event_store.py:114-147 | every published event stands at exactly one position |
| `Outbox.EventTable.PositionsFollowStreams` | cloudscale/adapters/postgres/event_store.py:114-147 | positions respect the order of each stream |
| `Outbox.EventTable.Reset` | scripts/restore_drill.py:599-605 | forgetting every publication keeps the table |
| `Outbox.FeedIsJoined` | cloudscale/adapters/postgres/event_store.py:165-190 | joining an outbox entry with the events gives exactly the row published at its position |
| `Writers.InsertAllowed` | cloudscale/adapters/postgres/command_unit_of_work.py:171-190 | every insert step of an interleaving is an insert the events table allows |
| `Writers.TableFollows` | cloudscale/adapters/postgres/command_unit_of_work.py:171-277 | for every interleaving with fresh event ids there is an ordered events table whose committed rows are the log and whose open rows are the unpublished inserts |
| `Writers.WritersFeedTheTables` | cloudscale/adapters/postgres/event_store.py:114-190 | relaying the table any interleaving leaves behind and consuming the feed builds the read models of the log |
| `Outbox.Consumer.Poll` | cloudscale/adapters/postgres/event_store.py:165-190 | with a monotonic offset nothing is handed out twice or skipped, however late an id committed |
| `Projection.UpsertsPickStrongest` | cloudscale/application/transfers_read_model.py:67-78 | whatever order the legs arrive in, the upserts leave a strongest kind among them |
| `Projection.BalancesMean` | cloudscale/adapters/postgres/projection_store.py:94-112 | a balance row is the signed sums and the count of the account's delivered events |
| `Projection.LegsMean` | cloudscale/adapters/postgres/projection_store.py:128-132 | a leg row is the account's first movement leg of the set |
| `Projection.HoldsLocal` | cloudscale/adapters/postgres/projection_store.py:140-168 | a hold row depends on its own stream only |
| `Rebuild.HoldsMean` | cloudscale/adapters/postgres/projection_store.py:140-168 | a hold row is open exactly when the write side derives the hold as open, with the same terms, else closed as its closing event says |
| `Rebuild.TransfersMean` | cloudscale/adapters/postgres/projection_store.py:114-138 | a transfer row is the set's strongest kind, its reverted set and its reversal, whatever order its legs came in |
| `Rebuild.KindTable` | cloudscale/application/transfers_read_model.py:17-23 | on a reachable log a row's kind is reversal, hold posting or transfer exactly as the set's rows are reversal legs, settle a hold or neither, and its reverts column is the set its reversal rows name |
| `Rebuild.HoldRowPlaced` | cloudscale/adapters/postgres/projection_store.py:140-168 | a hold row keeps the terms of its placement, whatever became of the hold |
| `Rebuild.RunCausal` | cloudscale/application/command_execution.py:244-279 | in every run what an event relies on is already in its own stream |
| `Rebuild.CausalNames` | cloudscale/adapters/postgres/projection_store.py:133-138 | per-stream order alone puts a set before every row that names it as reverted |
| `Rebuild.RebuildIsUnique` | scripts/restore_drill.py:599-605 | any two deliveries that keep each stream's order build identical tables |
| `Rebuild.RebuildMatchesTheLog` | cloudscale/adapters/postgres/projection_store.py:94-168 | the rebuilt tables agree with the folds, holds, sets, kinds, legs and reversals of the log |
| `Republish.FeedDelivers` | cloudscale/adapters/postgres/event_store.py:165-190 | a feed with the log's rows in stream order is such a delivery |
| `Republish.TableFeeds` | cloudscale/adapters/postgres/event_store.py:165-190 | the feed of a fully relayed events table is the log's rows with every stream in order |
| `Republish.FeedsAgree` | cloudscale/adapters/postgres/projection_store.py:94-168 | two feeds of one reachable log in stream order build identical tables |
| `Republish.RepublishAll` | scripts/restore_drill.py:599-605 | forgetting all publications and relaying the table again in id order builds the same tables as the original feed, those of the log |
| `ReadModels.ClaimsAreOwn` | cloudscale/adapters/sqlite_compat/dead_letter_store.py:63-64 | two deliveries claim the same key if and only if they carry the same event id, or none from the same log id |
| `ReadModels.ProjectionStore.Apply` | cqrs/idempotent_consumer.py:125-169 | one effect per key: applied, duplicate or invalid, with the offset as the source moves it |
| `ReadModels.ProjectionStore.DeadLetter` | cloudscale/adapters/sqlite_compat/dead_letter_store.py:54-96 | parks an unprocessed delivery once and always moves past it |
| `ReadModels.ProjectionStore.Redrive` | cloudscale/adapters/sqlite_compat/dead_letter_store.py:125-174 | moves a parked event to applied exactly once, or leaves it parked with one more attempt |
| `ReadModels.ProjectionStore.RedriveAll` | cloudscale/adapters/sqlite_compat/dead_letter_store.py:176-179 | every parked key is redriven once, oldest first: what validates takes effect in that order, the rest stays with one more attempt, and the outcomes say which |
| `ReadModels.ProjectionStore.RunConsumer` | cqrs/idempotent_consumer.py:297-317 | the polling loop drains the feed or stops at an invalid entry; each new key up to the offset took effect once, in feed order |
| `ReadModels.ProjectionStore.BalanceIsAppliedSum` | cqrs/idempotent_consumer.py:171-193 | under any mix of duplicates, reordering, parking and redrive a balance row is the signed sum over the applied events |
| `ReadModels.ProjectionStore.CompleteMeansFold` | cqrs/idempotent_consumer.py:125-193 | with everything delivered and nothing parked every row is the fold of its stream, in any order |
| `ReadModels.OrderDoesNotMatter` | cqrs/idempotent_consumer.py:171-193 | two orders of the same effects have the same sums |
| `Consumption.DrainedMatchesTheLog` | cqrs/idempotent_consumer.py:125-245 | a store that took the fresh effects of a feed of the log with redeliveries holds the balances, holds, transfers and legs of the log |
| `Consumption.ConsumeAll` | cqrs/idempotent_consumer.py:297-317 | draining such a feed into an empty store rebuilds every table |
| `Consumption.ConsumeResiliently` | cloudscale/processes/resilient_consumer.py:104-155 | so does a resilient run that drains it and parks nothing, through retries and lost answers |
| `Resilience.CircuitBreaker.Admit` | cloudscale/resilience/circuit_breaker.py:95-112 | closed admits, open fails fast until the timeout, and a half-open episode admits at most one call |
| `Resilience.CircuitBreaker.RecordFailure` | cloudscale/resilience/circuit_breaker.py:120-133 | a failed probe or the threshold-th failure opens the circuit |
| `Resilience.CircuitBreaker.RecordSuccess` | cloudscale/resilience/circuit_breaker.py:114-118 | any success closes the circuit and clears the count |
| `Resilience.ResilientConsumer.Operation` | cqrs/idempotent_consumer.py:125-169 | which answer each weather gives, and that a fault raised after the commit comes with the delivery taken |
| `Resilience.ResilientConsumer.Call` | cloudscale/resilience/circuit_breaker.py:73-133 | when a call is admitted, that only a transient fault counts as a failure, and what every answer does to the breaker and the store |
| `Resilience.ResilientConsumer.ApplyUnderBreaker` | cloudscale/processes/resilient_consumer.py:94-102 | one such call, and in a storm one counted failure per admitted attempt |
| `Resilience.ResilientConsumer.CallWithRetry` | cloudscale/resilience/retry.py:55-78 | only transient errors are retried and a deterministic one ends the call at once with the breaker closed; a transient error means the whole budget was transient; the delivery is taken at most once |
| `Resilience.ResilientConsumer.Handle` | cloudscale/processes/resilient_consumer.py:118-155 | an entry is applied, absorbed or parked whole with its number of attempts, never both applied and parked, and only an open circuit or a failing dead letter stops the run |
| `Resilience.ResilientConsumer.Run` | cloudscale/processes/resilient_consumer.py:104-155 | drains or halts, everything up to the offset is applied once or parked once, every new letter is the feed's own delivery, with nothing parked each new key took effect in feed order, deterministic faults alone never halt it, and in a storm exactly min(n, F div A) entries are passed before the halt |
| `Memo.ReplayIsSums` | cqrs/projections.py:21-39 | replay is the signed sums and the length |
| `Memo.Rebuild` | cqrs/projections.py:34-39 | the rebuild loop is the replay |
| `Memo.CommandHandler.CurrentState` | cqrs/commands.py:47-54 | catching up in place gives the replay of the whole stream |
| `Memo.CommandHandler.RecordAppend` | cqrs/commands.py:56-64 | the memo stays the replay of exactly its prefix, also across gaps |
| `Memo.CommandHandler.ForeignAppend` | cqrs/commands.py:56-64 | other writers leave the memo valid |
| `Memo.CommandHandler.Handle` | cqrs/commands.py:66-104 | a withdrawal is accepted if and only if the full replay has the funds |
| `RateLimits.RateLimiter.TryAcquire` | cloudscale/entrypoints/http/limits.py:51-66 | refill, take or refuse with the wait, per key |
| `RateLimits.LimitersAgree` | cloudscale/adapters/postgres/rate_limiter.py:21-39 | the in-process limiter and the shared upsert admit the same requests of every sequence |
| `RateLimits.WindowBound` | cloudscale/entrypoints/http/limits.py:51-66 | any window admits at most capacity + refill * length |
| `RateLimits.WindowBoundPerMinute` | cloudscale/entrypoints/http/limits.py:32-66 | any window admits at most perMinute plus perMinute * seconds / 60 |
| `RateLimits.BurstAdmitsPerMinute` | cloudscale/entrypoints/http/limits.py:51-66 | for a new key both limiters admit exactly the first perMinute requests of one instant |
| `RateLimits.WaitAfterBurst` | cloudscale/entrypoints/http/limits.py:63-66 | the next one is told to wait 60 / perMinute seconds |
| `RateLimits.DroppingIdleBuckets` | cloudscale/entrypoints/retention.py:113-124 | dropping a bucket idle for a minute changes no decision |
| `RateLimits.RetryAfterIsExact` | cloudscale/entrypoints/http/limits.py:63-66 | left alone, the bucket admits from the announced moment on and not before |

## Left out

- HTTP routes, token verification, settings, metrics, logging, tracing, migrations, command-line and load scripts.
- SQL text, pools, files and the advisory-lock lease: only their effect is modelled (atomic commit, unique keys, one relay at a time).
- JSON, hashing, UUID parsing, account-id syntax and ISO timestamps, and envelope columns beyond id, stream and version.
- Upcasting: every event type is at version 1, so it is the identity today.
- Retention of stored results: pruning makes an old command id usable again, so it is outside the runs.
- Legacy writers that append to account streams without a decision; the ledger invariant covers unit-of-work writers.
- Release of expired holds by the sweeper: a version conflict stays under the deterministic expiry id, so no liveness is claimed.
- The displayed kind of a transfer with more than two legs, and the read-only queries of the projection stores.
- Snapshot rows take part in no wait in the lock-order claim: only event keys and command ids are keys there.
- A crash in the envelope at the version bound is decided before the first insert, so such an attempt never sees a collision first.
- Backoff delays, jitter and the text of error messages.
- Eviction of buckets under key churn, and floating-point rounding in the limiters.
- Races.GuardNeedsStaleAnchor: one direction, for every state that keeps the invariant; the exact condition is `StaleGuard.GuardFiresExactly`, for reachable states.
- StaleRefusals.SerialExactly: for a posting set of several legs and for a revert the condition on the log is that its first failing check is the recorded one.
- Rebuild.RebuildMatchesTheLog: covers deliveries with nothing parked; after a redrive only the balance rows are claimed.
- LedgerTheorems.SerialGuardsNeverFire: about serial runs; under interleaving the guard can fire, as `Races.RefusalsAreNotSerializable` shows.
- Resilience.ResilientConsumer.Run: a dead letter whose own write raises ends the run, and the count for a storm is then not claimed.
