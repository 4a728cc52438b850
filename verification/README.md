# Verified model of the custodial wallet

The repository is a custodial wallet made of two services. The *wallet service* keeps an append-only
ledger with derived balances and holds, and a transfer state machine. The *blockchain service* scans a
chain that reorganises for deposits, broadcasts outgoing transactions and watches both until they are
deep enough. The services talk through transactional outboxes, a stream bus and at-least-once consumers.
This project models the code that has to be right under duplication, reordering, crashes and reorgs, and
proves what it promises, over every run.

`dafny verify dfyconfig.toml` checks the whole project.

## Layers

| files | what they hold |
|---|---|
| `Sums`, `Events`, `Decimals` | finite sums over tables, the event catalogue with its deterministic ids, digit strings and rounding |
| `Ledger`, `Wallet`, `WalletInvariant`, `WalletProperties`, `Requests` | the posting engine and the wallet service as a state machine, its invariant, theorems over its runs, what a request is answered and creates |
| `WalletDb` | the same handlers as methods that change the tables in place and roll back when they raise |
| `Locking` | concurrent balance locks |
| `ChainModel` | the chain seen from outside: every block ever mined and the canonical path |
| `MockNode`, `MockUndo`, `MockSupply`, `MockFork`, `MockChain` | the simulated node: tables as values with their invariant, supply and receipts, what a competing fork contains, and the class with its mining and reorg loops, proved to refine `ChainModel` |
| `Deposits`, `DepositConservation`, `DepositHistory`, `DepositCompleteness`, `DepositVerdicts`, `AtomicTicks`, `DepositRaces` | scanner and watcher with every node read a separate step; conservation in all runs, completeness with its exact conditions, and three runs that violate them |
| `TornTicks`, `ScanWrites`, `DepositDb` | whole ticks of scanner and watcher as runs of that protocol, what they write, and the loops in place |
| `Outgoing`, `OutgoingBudget`, `Causes`, `FailureFlag`, `OutgoingTicks`, `OutgoingDb` | the outgoing row protocol, its retry budget, why each event was emitted, what a whole tick makes of every row, the workers in place |
| `Delivery`, `OutboxRows`, `DeliveryFates`, `Poison` | outbox relay, bus and consumers as a protocol with crashes, and what becomes of a message |
| `EventBus`, `OneConsumer` | relay, bus and consumer in place, and the single consumer's ticks as runs of that protocol |
| `World`, `WorldInvariant`, `WorldProperties`, `EndToEndDeposits` | both services and the chain together |
| `Money` | parsing and printing amounts |

Modelling choices. A transaction that raises or violates a constraint leaves no trace; the CHECK, UNIQUE
and NOT-zero constraints of the migrations are part of the model and are applied after each statement.
Event ids are an injective function of event type and dedupe key, the request fingerprint is injective,
transaction hashes are injective in `client_ref`, and a mined block gets a hash never used before.
Clocks, leases, idle windows and timeouts are nondeterministic choices. What the node answers is read from
the chain at the moment of the read. Identifiers of transfers and references of external deposits are
disjoint. Integers are unbounded.

## Where the code and its documentation differ

- The ledger's module documentation says that two opposite transfers can never deadlock
  (services/wallet/wallet_service/services/ledger.py:13-14). Settlement locks the sender's row through
  `release_hold` before `post_entries` sorts (services/wallet/wallet_service/services/transfers.py:200-203), so of
  two settlements exactly the opposite ones can (`Locking.SettlementsDeadlockIff`), more of them wait in a circle
  exactly when their payments do (`Locking.SettlementsCycleIff`), and a settlement can also deadlock with the
  reversal of another transfer (`Locking.SettleReversalDeadlockIff`). Transactions whose locks come from
  `post_entries` alone never deadlock, in any number (`Locking.NoDeadlock`).
- The scanner promises not to miss a deposit within the safety margin. For one tick this holds exactly when two
  hash comparisons do: the last block of the logs is the one at the tip read, and the block below the range at
  the tip read is the one recorded by the ticks before (`DepositCompleteness.CoverageIffReadsAgree`). A reorg
  between log read and tip read breaks the first, one between guard read and log read the second. For the watcher
  it holds exactly when a negative verdict is still true at its commit, which a second read there would tell
  (`DepositVerdicts.RereadDecides`). `DepositRaces` holds a reachable violation of each of the three.
- The retry limit of broadcasts bounds attempts only up to the number of crashes between claim and commit
  (`OutgoingBudget.AttemptsAndCrashes`), and each such crash does cost an attempt more
  (`OutgoingBudget.BoundIsAttained`).
- A message that always fails is dead-lettered at its last permitted dispatch, unless the consumer crashes
  between the failure and the dead letter; then it is dead-lettered at the next claim (`Poison`).
- A message is not always either processed or dead-lettered. With competing consumers one may process it while
  another dead-letters it (`DeliveryFates.CompetingConsumersTwoFates`); `DeliveryFates.SafeIffOneFate` gives the
  claims and crashes that lead there. The single consumer of the code makes none of those claims, and as long as
  its ticks are not cut short every message has one fate (`OneConsumer.OneConsumerOneFate`).
- Replaying events after `processed_events` is lost changes nothing for events that took effect
  (`WalletProperties.AppliedReplayIsNoOp`). An event ignored or refused at the time can take effect when replayed;
  `WalletProperties.ReplayWritesIff` says exactly when, for every kind of event.
- `parse_amount` promises exactness or refusal; beyond 80 significant digits it rounds
  (`Money.ExactIffFits`). The API pattern keeps callers inside the bound.
- A reverted receipt for a CONFIRMED row is reported with `was_confirmed` false, because the status is
  overwritten before the payload is built (services/blockchain/blockchain_service/services/transactions.py:330-343);
  in every other failure event the flag is right (`FailureFlag.FlagTellsIff`). The wallet decides by its own
  status, so nothing depends on the flag.

## Model

| member | source | states |
|---|---|---|
| `Ledger.SortAscends` | services/wallet/wallet_service/services/ledger.py:82 | the posting loop's order: ascending by user, a permutation of the postings |
| `Ledger.PostOneKeeps` | services/wallet/wallet_service/services/ledger.py:82-118 | one turn of the posting loop keeps: every snapshot is the sum of its entries, no entry without a snapshot, both balance CHECKs, unique idempotency keys |
| `Ledger.PostAllKeeps` | services/wallet/wallet_service/services/ledger.py:72-119 | `post_entries` keeps the same for any list of postings, duplicates included |
| `Ledger.HoldsAcceptedExactly` | services/wallet/wallet_service/services/ledger.py:122-146 | of n serialised equal holds of x exactly min(n, available / x) are accepted, and what is reserved grows by exactly that many times x |
| `Ledger.HoldKeepsBooks` | services/wallet/wallet_service/services/ledger.py:122-146 | a positive hold is granted iff that much is available; it takes exactly that from that account, nothing from any other, and keeps the books in order |
| `Ledger.ReleaseUndoesHold` | services/wallet/wallet_service/services/ledger.py:122-153 | releasing what was held restores the books exactly |
| `Ledger.ReleaseRefusedIff` | services/wallet/wallet_service/services/ledger.py:148-153 | a positive release violates a CHECK iff it exceeds what is reserved; otherwise the books stay in order |
| `WalletInvariant.HoldIsReserved` | services/wallet/wallet_service/services/transfers.py:88-91 | the hold of every open transfer lies inside the reserved amount of its sender |
| `WalletInvariant.SettleExplicit` | services/wallet/wallet_service/services/transfers.py:183-233 | from any consistent state a settlement is never refused, although both CHECKs are applied after each statement; its exact effect on entries, balances and status |
| `WalletInvariant.FailExplicit` | services/wallet/wallet_service/services/transfers.py:236-288 | a failure of an open transfer is never refused; after a settlement it is refused iff the recipient no longer has the amount available; exact effect otherwise |
| `WalletInvariant.OnlyReversalsAbort` | services/wallet/wallet_service/consumers/dispatcher.py:73-96 | a handler aborts iff it reverses a deposit or a settled transfer whose account lacks the money |
| `WalletInvariant.SettleKeeps` | services/wallet/wallet_service/services/transfers.py:183-233 | settlement succeeds and keeps the whole wallet invariant |
| `WalletInvariant.FailKeeps` | services/wallet/wallet_service/services/transfers.py:236-288 | failure, before or after settlement, keeps the whole wallet invariant |
| `WalletInvariant.CreateKeeps` | services/wallet/wallet_service/services/transfers.py:50-156 | accepting a transfer keeps the whole wallet invariant, the new hold included |
| `WalletInvariant.PostDepositKeeps` | services/wallet/wallet_service/services/deposits.py:38-115 | crediting or reversing a deposit keeps the whole wallet invariant |
| `WalletInvariant.AttachKeeps` | services/wallet/wallet_service/services/users.py:48-79 | attaching a wallet keeps the whole wallet invariant |
| `WalletInvariant.StepKeeps` | services/wallet/wallet_service/consumers/dispatcher.py:50-71 | every request, delivery (also crashed or rolled back), progress update and attachment keeps the invariant |
| `WalletInvariant.RunKeeps` | services/wallet/wallet_service/services/ledger.py:1-15 | over every run: posted = sum of entries, reserved = sum of the open outgoing transfers, transfer entries sum to zero, rows match statuses |
| `WalletProperties.Confluence` | services/wallet/wallet_service/services/transfers.py:167-288 | for any order, duplication and interleaving, a transfer's (sender posted, recipient posted, sender reserved) is a function of the set of events applied: (0,0,a), (-a,+a,0) or (0,0,0) |
| `WalletProperties.RunKeepsLink` | services/wallet/wallet_service/services/transfers.py:167-288 | a transfer is FAILED iff a failure was applied, CONFIRMED iff a confirmation and no failure was |
| `WalletProperties.RankNeverDecreases` | services/wallet/wallet_service/services/progress.py:18-38 | identity and terms of a transfer never change and its status rank never decreases, over every run |
| `Requests.AcceptedIff` | services/wallet/wallet_service/services/transfers.py:50-156 | after every run: a request is accepted iff its key is unused, its parties differ, both users and both wallets are active, and its amount is positive and available; the new row and its one queued request go from the address of the sender's wallet to that of the recipient's, the hold and the key are the only other changes; every other answer changes nothing and says why |
| `Requests.RunKeepsRequests` | services/wallet/wallet_service/services/transfers.py:110-150 | over every run: each transfer goes from an address owned by its sender to one owned by its recipient, and the outbox holds exactly one request per transfer, in order, with its addresses and amount |
| `Requests.ProgressIsReported` | services/wallet/wallet_service/services/progress.py:18-38 | over every run: a transfer is PROCESSING only if its request was published, BROADCAST only if its broadcast was handled |
| `Requests.DirectoryFollowsSteps` | services/wallet/wallet_service/services/users.py:19-79 | over every run: a user is active iff its status was last set so, and a wallet exists, active, only if it was attached with its address |
| `Requests.AttachTakesIff` | services/wallet/wallet_service/services/users.py:48-75 | attaching takes effect iff neither the wallet nor the address is taken; the wallet is then active, the address owned by its user, and no other wallet or owner changes |
| `WalletProperties.RunKeepsKeys` | services/wallet/wallet_service/services/idempotency.py:40-101 | over all request sequences keys and transfers are in bijection, no committed key holds the placeholder, a committed key row never changes |
| `WalletProperties.AcceptedRequestReplays` | services/wallet/wallet_service/services/idempotency.py:62-85 | after any further run an accepted request replays its stored response, another request under its key conflicts, and neither changes anything |
| `WalletProperties.EffectivelyOnce` | services/wallet/wallet_service/consumers/dispatcher.py:50-71 | every schedule with duplicates, crashes and rollbacks ends in the state of its first successful dispatches, which carry distinct event ids |
| `WalletProperties.HandledIsAbsorbed` | services/wallet/wallet_service/services/ledger.py:82-113 | an event handled while its target existed leaves its trace in ledger or status |
| `WalletProperties.ReplayAfterLossIsNoOp` | services/wallet/wallet_service/services/ledger.py:75-79 | whatever is left of `processed_events`, replaying an event whose trace the ledger holds leaves ledger and balances unchanged after any run |
| `WalletProperties.AppliedReplayIsNoOp` | services/wallet/wallet_service/services/ledger.py:75-79 | an event that took effect in a run, while its transfer or wallet existed, can be replayed after any continuation and any loss of `processed_events` without touching ledger or balances |
| `WalletProperties.IgnoredCreditReplays` | services/wallet/wallet_service/services/deposits.py:38-55 | the hypothesis is needed: a credit ignored for want of a wallet takes effect when replayed after the wallet is attached |
| `WalletProperties.IgnoredReversalReplays` | services/wallet/wallet_service/services/deposits.py:77-115 | so does an ignored reversal, if the money is there by then |
| `WalletProperties.ReplayWritesIff` | services/wallet/wallet_service/consumers/dispatcher.py:50-96 | for every event after every run: handled again, it posts to the ledger iff its transfer is open (confirmation), CONFIRMED with the amount still available to the recipient (failure), its address attached and the credit absent (credit), or attached, the reversal absent and the amount available (reversal of a credited deposit); it changes anything else iff it releases a hold, marks a broadcast or opens an empty balance row |
| `WalletProperties.LabelTells` | services/wallet/wallet_service/consumers/dispatcher.py:73-96 | the label of a handled event: ignored iff its target is unknown (or a confirmation comes after a failure), duplicate iff the transfer or the ledger had it decided already, processed otherwise |
| `WalletProperties.ReconcileIsClean` | services/wallet/wallet_service/services/ledger.py:156-201 | in every reachable state the report has no inconsistent row and hides no entry |
| `WalletDb.WalletDb.PostEntries` | services/wallet/wallet_service/services/ledger.py:72-119 | the posting loop over the tables computes the specified posting, or raises exactly where a constraint is violated |
| `WalletDb.WalletDb.Reconcile` | services/wallet/wallet_service/services/ledger.py:156-201 | the report loop: one row per snapshot with its true ledger sum, all consistent, reserved equal to the open holds, every entry covered |
| `WalletDb.WalletDb.SettleTransfer` | services/wallet/wallet_service/services/transfers.py:183-233 | statement by statement equal to the specified settlement |
| `WalletDb.WalletDb.FailTransfer` | services/wallet/wallet_service/services/transfers.py:236-288 | statement by statement equal to the specified failure |
| `WalletDb.WalletDb.Dispatch` | services/wallet/wallet_service/consumers/dispatcher.py:50-71 | dedupe row and handler with rollback: database stays valid, duplicates and rollbacks change nothing, confirmations and broadcasts never raise |
| `WalletDb.WalletDb.PostTransfer` | services/wallet/wallet_service/api/routes.py:212-265 | claim, create and complete with rollback: database stays valid, and the answer and every change are exactly as `Requests.Answered` says |
| `WalletDb.WalletDb.AdvancePublished` | services/wallet/wallet_service/services/progress.py:18-38 | the bulk update sets exactly the CREATED transfers whose request was published to PROCESSING and changes nothing else |
| `Locking.PostingLocksAscend` | services/wallet/wallet_service/services/ledger.py:82-83 | whatever the postings, `post_entries` locks balances in ascending user order |
| `Locking.NoCycle` | services/wallet/wallet_service/services/ledger.py:72-111 | any number of ascending transactions: in every reachable state the wait-for graph has no cycle |
| `Locking.NoDeadlock` | services/wallet/wallet_service/services/ledger.py:72-111 | and while one is unfinished some transaction can go on |
| `Locking.SettleAscendsIff` | services/wallet/wallet_service/services/transfers.py:200-203 | settlement locks in ascending order iff the sender's id is smaller |
| `Locking.SettlementsDeadlockIff` | services/wallet/wallet_service/services/transfers.py:200-203 | two concurrent settlements can deadlock iff each pays the other's sender |
| `Locking.PairDeadlockIff` | services/wallet/wallet_service/services/transfers.py:183-288 | two transactions of two balance rows each can deadlock iff each locks first what the other locks second |
| `Locking.SettleReversalDeadlockIff` | services/wallet/wallet_service/services/transfers.py:200-279 | the settlement of one transfer and the reversal of another can deadlock iff they concern the same two users and the settlement pays from the larger id to the smaller |
| `Locking.CommonRowFirst` | services/wallet/wallet_service/services/transfers.py:159-164 | two transactions that lock one common row first never deadlock, so neither do a transfer's settlement and its own reversal, which begin with the row of the transfer |
| `Locking.SettlementsCycleIff` | services/wallet/wallet_service/services/transfers.py:200-203 | any number of concurrent settlements can reach a cycle of waits iff their payments contain a directed cycle |
| `Locking.CanCycleIff` | services/wallet/wallet_service/services/transfers.py:183-288 | the same for any mix of settlements and reversals of different transfers: iff the pairs of first and second row contain a directed cycle |
| `ChainModel.StepOk` | services/blockchain/blockchain_service/chain/mock.py:233-293 | canonical blocks form one contiguous parent-linked path from genesis, no transaction in two of them, kept by submit, mine and orphan |
| `ChainModel.NeverReturns` | services/blockchain/blockchain_service/chain/mock.py:324-366 | no block is forgotten or altered and an orphaned block never becomes canonical again |
| `ChainModel.UnchangedHashUnchangedHistory` | services/blockchain/blockchain_service/chain/mock.py:110-119 | over any run an unchanged hash at height n means every block at or below n is unchanged |
| `ChainModel.ReceiptIsUnique` | services/blockchain/blockchain_service/chain/mock.py:161-182 | the receipt names the only canonical block that holds the transaction |
| `ChainModel.CompletedReorgIsHigher` | services/blockchain/blockchain_service/chain/mock.py:366-369 | a completed reorg ends strictly higher than it began, whatever else is mined in between |
| `MockNode.Outcomes` | services/blockchain/blockchain_service/chain/mock.py:262-291 | a transaction of a block reverts iff forced or not covered by the replayed balance at its turn; log indices count the logged ones |
| `MockNode.MineKeepsNode` | services/blockchain/blockchain_service/chain/mock.py:233-310 | mining keeps: rows record their blocks, cache = replay of the canonical path, nobody negative at any height |
| `MockUndo.UndoAny` | services/blockchain/blockchain_service/chain/mock.py:350-364 | the undo loop is correct in any order of the block's transactions |
| `MockUndo.DropKeepsNode` | services/blockchain/blockchain_service/chain/mock.py:350-365 | after undoing and orphaning the top block all invariants hold, with the balances of the shorter path |
| `MockSupply.SupplyIsMinted` | services/blockchain/blockchain_service/chain/mock.py:295-310 | in every consistent state the balance table sums to the MINED mints of the canonical path |
| `MockSupply.NobodyOverdrawn` | services/blockchain/blockchain_service/chain/mock.py:276-282 | no address is negative now or at any canonical height |
| `MockSupply.ReceiptIffOnChain` | services/blockchain/blockchain_service/chain/mock.py:161-182 | a transaction has a receipt iff it is MINED or FAILED, iff a canonical block includes it, and the row names that block |
| `MockSupply.LogsAreCanonical` | services/blockchain/blockchain_service/chain/mock.py:121-159 | the log query returns a transaction iff a canonical block in the range logged it |
| `MockChain.SelectPage` | services/blockchain/blockchain_service/chain/mock.py:259-264 | the mempool page: pending, in order of creation and then of hash, as many as fit, none ordered after one left out |
| `MockChain.MockChain.constructor` | services/blockchain/blockchain_service/chain/mock.py:65-82 | the genesis state is consistent |
| `MockChain.MockChain.SendTransfer` | services/blockchain/blockchain_service/chain/mock.py:196-231 | resubmission changes nothing; otherwise one pending row with these terms; refused iff the amount is not positive, an error iff the node is unreachable |
| `MockChain.MockChain.MineBlock` | services/blockchain/blockchain_service/chain/mock.py:233-293 | refines the abstract mine step with the mempool page, or with an empty block while halted; each row of the page is placed in the block, no other row changes, and injected failures are used up one per transfer |
| `MockChain.MockChain.Orphan` | services/blockchain/blockchain_service/chain/mock.py:333-365 | the orphaning transaction: clamped depth, genesis kept, transactions pending again with their terms and their place in the mempool order, or dropped; no other changes; node consistent in between |
| `MockChain.MockChain.Reorg` | services/blockchain/blockchain_service/chain/mock.py:324-378 | ends one block higher, keeps the blocks below the fork, only fresh blocks above it, each with the mempool page of its moment or empty while halted; transactions of orphaned blocks end dropped if so named, else mined again if mining is on and the fork has room for what is pending |
| `MockFork.OrphanedIsResettled` | services/blockchain/blockchain_service/chain/mock.py:350-372 | a transaction of an orphaned block ends DROPPED in no canonical block if it was named; else, unless mining is halted or more is pending than the fork holds, MINED or FAILED in a canonical block |
| `MockFork.ForkShrinksPending` | services/blockchain/blockchain_service/chain/mock.py:259-264 | k blocks mined from full pages leave at most the pending transactions beyond k pages |
| `MockChain.MockChain.GetBlockNumber` | services/blockchain/blockchain_service/chain/mock.py:99-108 | the height of the canonical path, or an error exactly while the node is unreachable |
| `MockChain.MockChain.GetBlockHash` | services/blockchain/blockchain_service/chain/mock.py:110-119 | the hash of the canonical path at that height, or an error exactly while the node is unreachable |
| `MockChain.MockChain.GetReceipt` | services/blockchain/blockchain_service/chain/mock.py:161-182 | a receipt iff a canonical block includes the transaction, with its height, hash and status; an error exactly while the node is unreachable |
| `DepositConservation.StepKeeps` | services/blockchain/blockchain_service/services/deposits.py:70-348 | every step of scanner, watcher and chain, torn at any read, keeps the conservation invariant |
| `DepositConservation.Conservation` | services/blockchain/blockchain_service/services/deposits.py:153-348 | for each deposit, confirmations minus withdrawn confirmations is 1 iff its row is CONFIRMED, else 0; event ids are unique |
| `DepositConservation.FactsAreNeverSwallowed` | services/blockchain/blockchain_service/services/deposits.py:289-341 | no dedupe key of a confirmation or withdrawal is ever reused, so none is swallowed |
| `DepositCompleteness.CoverageIffReadsAgree` | services/blockchain/blockchain_service/services/deposits.py:70-143 | whatever the chain does between the reads, a tick ends with every block behind the stored tip scanned iff two hash comparisons hold |
| `DepositVerdicts.CommitKeepsRowsIff` | services/blockchain/blockchain_service/services/deposits.py:253-287 | committing a negative verdict keeps every scanned log's row live iff the verdict read again at the commit is negative too, or names a block whose scans for this recipient all watched the sender as well |
| `DepositVerdicts.NotScannedIff` | services/blockchain/blockchain_service/services/deposits.py:253-287 | for a sender that is no address of the service a negative verdict is still true iff, read again, it is negative or names a block not scanned yet |
| `DepositVerdicts.WatcherCanTell` | services/blockchain/blockchain_service/services/deposits.py:253-287 | with the stored tip in place, committing it keeps the rows complete iff, read again, it is negative or names a block above the cursor, both of which the watcher can read |
| `DepositVerdicts.RereadDecides` | services/blockchain/blockchain_service/services/deposits.py:253-287 | and that is so after every run that met the conditions so far, for a scan batch of at least the safety margin |
| `DepositCompleteness.ScannerMissesNothing` | services/blockchain/blockchain_service/services/deposits.py:70-211 | in every run in which ticks commit agreeing reads and negative verdicts still true, each external log at or below the cursor has a live row |
| `AtomicTicks.UndisturbedTick` | services/blockchain/blockchain_service/services/deposits.py:83-93 | for a tick on a still chain the condition is exactly that no reorg forked deeper than the safety margin below the cursor |
| `AtomicTicks.MarginIff` | services/blockchain/blockchain_service/services/deposits.py:83-93 | over every run of atomic ticks: every scan finds its fork that shallow iff no reorg since the scan before left the chain shorter than cursor minus safety margin |
| `AtomicTicks.AfterEveryScan` | services/blockchain/blockchain_service/services/deposits.py:70-211 | with atomic ticks and no reorg between scans below cursor minus margin, after every scan each external log at or below the cursor has a live row |
| `DepositRaces.TornTickLosesDeposit` | services/blockchain/blockchain_service/services/deposits.py:101-105 | a reachable state in which a reorg between log read and tip read has lost a deposit for good |
| `DepositRaces.GuardTearLosesDeposit` | services/blockchain/blockchain_service/services/deposits.py:83-105 | a reachable state in which a reorg between guard read and log read has lost a deposit, although logs and tip come from one chain and the stored tip is canonical |
| `DepositRaces.StaleVerdictLosesDeposit` | services/blockchain/blockchain_service/services/deposits.py:263-287 | a reachable state in which a verdict committed late marks a canonical, scanned deposit REORGED |
| `DepositDb.TransferLogsExternal` | services/blockchain/blockchain_service/services/deposits.py:107-127 | dropping what is sent from watched addresses leaves exactly the external deposits |
| `DepositDb.SplitLogs` | services/blockchain/blockchain_service/services/deposits.py:116-121 | the loop that separates external from internal movements, none lost |
| `ScanWrites.EntriesAre` | services/blockchain/blockchain_service/services/deposits.py:101-127 | the entries of a batch are exactly its mined transfers to watched addresses by others, with the terms and the block of each |
| `ScanWrites.FirstEntryCounts` | services/blockchain/blockchain_service/services/deposits.py:153-211 | of several entries for one deposit without a live row the first counts: its row is DETECTED, unconfirmed and in that entry's block, and the detection is in the log |
| `ScanWrites.CommitWrites` | services/blockchain/blockchain_service/services/deposits.py:128-211 | a commit of blocks of one chain: each deposit without a row or with a REORGED one gets a DETECTED row with its transaction's terms, block number and hash, and is announced; all other rows stay and nothing else is announced |
| `DepositDb.DepositDb.ScanOnce` | services/blockchain/blockchain_service/services/deposits.py:70-151 | a whole tick, with any steps of the node between its four reads, is a run of the protocol, keeps conservation and history, and writes exactly this: the deposits in the blocks from the cursor, or the safety margin below it after a reorg, up to head or batch limit, the new cursor and the hash at it |
| `TornTicks.TornScanIsRun` | services/blockchain/blockchain_service/services/deposits.py:70-151 | what a tick computes from four different chains is head, guard, logs, tip and commit of the protocol with the node's steps in between, or the prefix of them after which the tick gives up |
| `TornTicks.SteadyScan` | services/blockchain/blockchain_service/services/deposits.py:70-151 | on a still chain it is the atomic tick of the completeness theorem |
| `DepositDb.DepositDb.ReverifyTorn` | services/blockchain/blockchain_service/services/deposits.py:253-321 | a whole check, with any steps of the node between its reads and its commit, is a run of the protocol and keeps conservation |
| `TornTicks.TornCheckIsRun` | services/blockchain/blockchain_service/services/deposits.py:253-321 | what a check computes from two different chains is receipt, logs and commit of the protocol with the node's steps in between |
| `DepositDb.DepositDb.WatchOnce` | services/blockchain/blockchain_service/services/deposits.py:219-251 | after a tick on a still chain every DETECTED or CONFIRMED row above the finality depth is REORGED iff no canonical block holds its log, else points at the block that does, counts its depth and is CONFIRMED iff deep enough or already confirmed; a lost confirmation and a new one are in the log with block, owner and amount; every other row is unchanged |
| `Outgoing.StepKeeps` | services/blockchain/blockchain_service/services/transactions.py:74-448 | every step of broadcaster and watcher, crashes included, keeps the row/event invariant |
| `Outgoing.EventsFollowRow` | services/blockchain/blockchain_service/services/transactions.py:74-448 | at most one confirmation and one failure per transfer are ever emitted, and the row's status says which |
| `Causes.ConfirmedIff` | services/blockchain/blockchain_service/services/transactions.py:318-375 | a step confirms a transfer iff it commits a check that read a successful receipt at height n for a BROADCASTED row with head - n + 1 at least the required confirmations |
| `Causes.EveryEventIsCaused` | services/blockchain/blockchain_service/services/transactions.py:74-448 | in every run each event goes back to what a worker read or was answered: a confirmation to a successful receipt read at that depth, each failure to the answer, receipt or missing receipt its code names |
| `OutgoingBudget.AttemptsAreBounded` | services/blockchain/blockchain_service/services/transactions.py:36-53 | `attempts` never exceeds `broadcast_max_attempts` in a run in which no crash hits the transfer between claim and commit |
| `OutgoingBudget.AttemptsAndCrashes` | services/blockchain/blockchain_service/services/transactions.py:36-53 | in every run `attempts` exceeds the budget by at most the number of crashes that hit the transfer in flight |
| `OutgoingBudget.BoundIsAttained` | services/blockchain/blockchain_service/services/transactions.py:36-53 | that bound is exact: for every k a run with k such crashes has budget + k attempts |
| `OutgoingBudget.MeasureDecreases` | services/blockchain/blockchain_service/services/transactions.py:163-268 | every acting step decreases a lexicographic measure of (remaining attempts, phase) |
| `OutgoingBudget.SilentTransferFails` | services/blockchain/blockchain_service/services/transactions.py:389-425 | a row whose receipt never appears and which no crash hits in flight is FAILED after at most 3 * budget + 1 acting steps |
| `OutgoingBudget.SilentRunEndsFailed` | services/blockchain/blockchain_service/services/transactions.py:163-425 | every such run goes on, still without crash or receipt, to one in which the row is FAILED |
| `OutgoingBudget.CanAlwaysAct` | services/blockchain/blockchain_service/services/transactions.py:144-161 | in every reachable state a row that is neither final nor confirmed, and awaits its receipt once broadcast, has a next move that acts on it |
| `FailureFlag.FlagTellsIff` | services/blockchain/blockchain_service/services/transactions.py:330-343 | `was_confirmed` of a failure event tells whether the row was CONFIRMED, unless the row was CONFIRMED and its receipt is found reverted |
| `FailureFlag.RevertedAfterConfirmation` | services/blockchain/blockchain_service/services/transactions.py:330-343 | a reachable state in which that exception happens |
| `OutgoingDb.BulkClaim` | services/blockchain/blockchain_service/services/transactions.py:36-53 | claiming a batch in one statement is claiming its rows one by one |
| `OutgoingDb.OutgoingDb.Dispatch` | services/blockchain/blockchain_service/consumers/dispatcher.py:34-61 | redelivery changes nothing; a transfer gets one row with its first terms; existing rows untouched |
| `OutgoingDb.OutgoingDb.BroadcastOnce` | services/blockchain/blockchain_service/services/transactions.py:144-268 | a whole broadcaster tick is a run of the protocol and keeps its invariant; each picked row counts one attempt more and is BROADCASTED, PENDING again below the retry limit, or FAILED, as its answer says; no other row changes and the log grows by exactly the events of these answers |
| `OutgoingDb.OutgoingDb.CheckOnce` | services/blockchain/blockchain_service/services/transactions.py:278-387 | a whole watcher tick is a run of the protocol and keeps its invariant; each BROADCASTED or CONFIRMED row above the finality depth is CONFIRMED at the required depth, FAILED if reverted, REORGED if its receipt is gone, requeued or FAILED if stuck past the timeout, else only updated; no other row changes and the log grows by exactly the events of these findings |
| `Delivery.StepKeeps` | libs/common/src/mcw_common/bus.py:186-352 | every step of relay, bus and consumers, with a crash possible after each, also between a failure and its dead letter, keeps the delivery invariant |
| `Delivery.NoEventIsLost` | libs/common/src/mcw_common/outbox.py:66-132 | each committed event is unpublished or in the stream; each message is unread, pending, processed or dead-lettered; published implies in the stream |
| `OutboxRows.OneRowPerEvent` | libs/common/src/mcw_common/outbox.py:29-35 | in every run no two outbox rows carry one event id, every committed event has its row, and enqueueing an event whose id has a row, published or not, changes nothing |
| `OutboxRows.PublishedOncePerLapse` | libs/common/src/mcw_common/outbox.py:97-132 | in every run a row's event is in the stream once if it is published, and once more for each crash of the relay between publishing and marking it |
| `Delivery.EveryDispatchIsNew` | libs/common/src/mcw_common/bus.py:314-321 | each dispatch is a new (message, delivery count), so the set of calls counts dispatches |
| `Delivery.DispatchIsBounded` | libs/common/src/mcw_common/bus.py:198-235 | at most `max_delivery_count` dispatches per message and group, crashes and competing consumers included; one more when the bus reports the count from before the claim |
| `Delivery.AckedStaysAcked` | libs/common/src/mcw_common/bus.py:230-231 | an acknowledged message is never handed over again |
| `DeliveryFates.ExactlyOneFate` | libs/common/src/mcw_common/bus.py:279-352 | in a run of safe steps a message read is never both processed and dead-lettered, and while nobody holds it exactly one of pending, processed, dead-lettered; unsafe are a claim that clashes with a hand-over in progress, and a crash that takes all who know how a pending message was decided |
| `DeliveryFates.SafeIffOneFate` | libs/common/src/mcw_common/bus.py:214-352 | that condition is exact: after any run of safe steps, the next step leaves the message one fate in every safe continuation iff the step is safe |
| `DeliveryFates.ContestedBreaks` | libs/common/src/mcw_common/bus.py:314-351 | a clashing claim is followed by both fates within three steps, none of them a claim or a crash |
| `OneConsumer.TickIsPatient` | libs/common/src/mcw_common/bus.py:279-299 | a whole tick of the consumer claims nothing that is in hand and loses nothing |
| `OneConsumer.OneConsumerOneFate` | libs/common/src/mcw_common/bus.py:279-352 | hence with the single consumer of the code, after any whole ticks and any steps of the producers, each message read is exactly one of pending, processed, dead-lettered |
| `DeliveryFates.CompetingConsumersTwoFates` | libs/common/src/mcw_common/bus.py:279-352 | a reachable state in which a message is processed by one consumer and dead-lettered by another |
| `Poison.SpentIsOnlyBuried` | libs/common/src/mcw_common/bus.py:314-337 | in every run, a further hand-over of a message dispatched as often as allowed can only be dead-lettered |
| `Poison.NeverDispatchedAgain` | libs/common/src/mcw_common/bus.py:314-337 | and no continuation dispatches it again |
| `Poison.PoisonIsBuried` | libs/common/src/mcw_common/bus.py:314-351 | in every run, competing consumers, lost deliveries and lagging counts included, a message dispatched at the limit and still unprocessed is dead-lettered or in the hands of the consumer about to do so, unless a crash fell just there |
| `Poison.CarefulIffBuried` | libs/common/src/mcw_common/bus.py:323-337 | that exception is exact: after any run without such a crash, a step leaves every such message buried or about to be iff it is not such a crash either |
| `Poison.LastCallIsLast` | libs/common/src/mcw_common/bus.py:314-321 | after the last permitted delivery was dispatched, whatever is still dispatched was in hand by then, and any later hand-over can only be dead-lettered |
| `Poison.LostPoisonIsBuriedNext` | libs/common/src/mcw_common/bus.py:314-351 | after such a crash the message is still pending and its next claim dead-letters it without a dispatch |
| `Poison.CrashDelaysBurial` | libs/common/src/mcw_common/bus.py:323-337 | a reachable state after such a crash: all dispatches used, no dead letter, nobody holds the message |
| `Poison.BuriedForGood` | libs/common/src/mcw_common/bus.py:339-351 | once its dead letter is acknowledged, a message stays dead-lettered, is never handed over again, and only other hand-overs in progress at that moment can still be dispatched |
| `EventBus.InMemoryBus.ReadNew` | libs/common/src/mcw_common/bus.py:198-212 | the next messages, each once, in order, with count 1; cursor and pending updated |
| `EventBus.PickIdle` | libs/common/src/mcw_common/bus.py:214-228 | the idle messages of the pending table in its order, up to the batch size |
| `EventBus.OutboxRelay.EnqueueEvent` | libs/common/src/mcw_common/outbox.py:66-83 | inserting an event is the protocol's commit step: a new unpublished row, or nothing if any row carries its id |
| `EventBus.OutboxRelay.RunOnce` | libs/common/src/mcw_common/outbox.py:97-132 | a whole relay tick is a run of the protocol; the stream grows by the accepted rows' events in order, these rows end published, refused ones count an attempt, no other row changes |
| `EventBus.ConsumerRuntime.Handle` | libs/common/src/mcw_common/bus.py:314-351 | one hand-over: dispatch, reject at the limit, acknowledge unless to be retried, as steps of the protocol |
| `EventBus.ConsumerRuntime.RunOnce` | libs/common/src/mcw_common/bus.py:279-299 | a whole consumer tick is a run of the protocol from nothing in hand to nothing in hand; it takes idle messages up to the batch size at their next count and the next of the stream at count 1; what succeeds is processed, what fails at the limit or comes above it goes to the dead letters in order, both leave the pending table, the rest stays |
| `WorldInvariant.StepKeeps` | services/blockchain/blockchain_service/services/transactions.py:74-133 | both services and the chain together: the wallet handles only emitted events, rows carry wallet terms, own transactions never become deposits, confirmations are backed by a mined block |
| `WorldProperties.CrossServiceAgreement` | services/wallet/wallet_service/services/transfers.py:167-288 | once a transfer's events are applied the wallet shows CONFIRMED iff the row is CONFIRMED, FAILED iff FAILED or REORGED, open otherwise |
| `WorldProperties.MovementAccountedOnce` | services/blockchain/blockchain_service/chain/mock.py:196-231 | one transaction per transfer, moving its amount from an address of its sender to one of its recipient, in at most one canonical block, never a deposits row |
| `WorldProperties.FirstTermsStay` | services/blockchain/blockchain_service/chain/mock.py:208-224 | the node keeps the terms first submitted over any continuation |
| `WorldProperties.SettlementIsBacked` | services/blockchain/blockchain_service/services/transactions.py:306-387 | a settled transfer was mined successfully in some block, moving its amount from an address of its sender to one of its recipient |
| `EndToEndDeposits.DepositConservation` | services/wallet/wallet_service/services/deposits.py:25-115 | once a deposit's facts are applied with its address attached, the net ledger credit is its amount if CONFIRMED, else 0, all on the owner of the receiving address |
| `EndToEndDeposits.PartialCredit` | services/wallet/wallet_service/services/deposits.py:38-115 | at any moment the net credit is the sum of the facts applied so far |
| `Decimals.RoundedExactly` | libs/common/src/mcw_common/money.py:57-62 | rounding to a precision is exact iff only zeros are dropped, iff the coefficient has at most that many significant digits |
| `Money.ParseIsExact` | libs/common/src/mcw_common/money.py:24-62 | for at most 80 significant digits parsing yields u iff the value is admissible and equals u / 10^decimals |
| `Money.ParseTextIsExact` | libs/common/src/mcw_common/money.py:24-62 | the same on texts: for a spelled decimal of at most 80 significant digits, around spaces and underscores, parsing yields u iff it is admissible and denotes u / 10^decimals |
| `Money.AcceptedIsNotation` | libs/common/src/mcw_common/money.py:45-56 | whatever text is accepted spells a decimal |
| `Money.ParseIntegerIsExact` | libs/common/src/mcw_common/money.py:31-37 | the same for integers; booleans and floats are never accepted |
| `Money.RefusalIsGrounded` | libs/common/src/mcw_common/money.py:31-62 | an input is refused only for a ground that holds of it; in particular for precision only if no number of units denotes it |
| `Money.ExactIffFits` | libs/common/src/mcw_common/money.py:57-62 | an accepted amount is parsed exactly iff it has at most 80 significant digits |
| `Money.LongAmountIsMisread` | libs/common/src/mcw_common/money.py:57-62 | 10^80 + 1 is accepted as 10^80, for every number of decimals |
| `Money.ParseOfFormat` | libs/common/src/mcw_common/money.py:65-77 | parsing what was printed returns the units iff they are positive (or zero is allowed) and fit 80 significant digits |
| `Money.FormatNormalises` | libs/common/src/mcw_common/money.py:24-77 | for every accepted input, printing the result parses to the same units: an idempotent normaliser |
| `Money.FormatIsInjective` | libs/common/src/mcw_common/money.py:65-77 | different signed units never print alike |
| `Money.FormatWidth` | libs/common/src/mcw_common/money.py:65-77 | exactly `decimals` fractional digits |
| `Money.ApiAmountsAreExact` | services/wallet/wallet_service/schemas.py:15 | every text the API pattern admits has at most 48 digits and is parsed exactly |
| `Events.EnqueueOnce` | libs/common/src/mcw_common/outbox.py:29-35 | the outbox only grows, and no event id enters it twice |

## Left out

- RedisStreamsBus: trimming, XPENDING and XCLAIM are behaviour of Redis; only its delivery count from before the claim is modelled, as a setting of the delivery protocol.
- EVM adapter and key storage: thin wrappers over libraries outside the repository.
- Nonce allocator: nothing writes the nonce of an outgoing transaction.
- HTTP wiring, authentication, logging, metrics, configuration, schemas other than the amount pattern: plumbing.
- Circuit breaker, HTTP retries and the chain client: driven by time and network, with easy properties only.
- User and address creation beyond unique keys: would only add easy members.
- Several networks and assets on one chain: the chain model has one of each; the ledger keys still carry the asset.
- Several broadcasters, watchers or relays of one service at a time: the protocols have one of each; consumers may compete.
- Address case folding (`lower()` in the scanner): addresses are compared exactly.
- A watched set that changes between the watchlist query and the log query: both are read together.
- Unicode digits and spaces in amounts, and Python's limit on the digits of an integer text: texts are ASCII.
- Whether a FAILED or REORGED transfer is mined later, and whether on-chain balances equal ledger totals: the code does not aim at this.
- Whether every detected deposit confirms: the finality filter makes it depend on a watcher tick in time.
- CreateTransfer: a violated constraint is reported as one error, where the code distinguishes a conflict from an internal error; the state is the same.
- GetTransferLogs: the order of the returned logs is not tied to the tables; `MockSupply.LogsAreCanonical` states which logs are returned.
- ClaimStale: one event type per claim; with several, the code stops each type's loop at the total batch size.
- ScanOnce and ReverifyTorn: only the node moves during a tick there; scanner and watcher interleave freely in the protocol, over which the theorems are stated.
- RereadDecides: a scan batch smaller than the safety margin lets a rewound tick lower the cursor; then `DepositVerdicts.NotScannedIff` is the condition.
- BroadcastOnce and the relay's RunOnce: which due rows a batch takes is given; lease, backoff and batch limit depend on the clock.
- WatchOnce: checks the watchlist in an arbitrary order, where the code goes by block number; the result does not depend on it.
- DispatchIsBounded: an acknowledgement that raises is not modelled; the in-memory bus never raises.
