# Parly relayer: spend at most once

A Dafny model of the parts of the Parly relayer that must never spend twice, and of the
calculations they rely on. The relayer is a set of processes that crash anywhere, run
concurrently, and talk to PostgreSQL, to a node and to a chain whose answers are arbitrary. What
they may rely on is a durable store. The model therefore has three layers.

**State machines and whole runs.** Every `await` of the original is a step boundary. A run is any
finite sequence of steps of any number of workers, with a crash or a thrown error possible after
each, and the theorems are about all runs.

- `ExecutionTable` is the lock table of the PoolV4 executions: the retain, retire and record
  transactions as functions of the table, the store class that runs them in place, and what every
  history of them keeps. `ExecutionTransactions` runs the same transactions SQL statement by SQL
  statement, with advisory locks, row locks and READ COMMITTED visibility, and shows that every
  interleaving is a history of `ExecutionTable`; `ExecutionHistories` shows the converse.
  `ExecutionProgress` is all the waiting among them, over the lock order of `AdvisoryLocks`.
- `BundleRelay` is the reserve, broadcast, record protocol of a PoolV4 bundle. `SignedCalls` is the
  insert-once signed call of payout V7, behind the execution gate. `RelayRecovery` asks a failed deposit
  back from the relay service over a table of checkpoints. `BundleTask`, `SignedTask` and `RecoveryTask`
  are the three functions as they run over the store classes, each call being part of a run of the
  respective machine.
- `JobQueue` and `JobStore` are the leased execution queue, as transactions on values and as methods
  on the table in place; `QueueEffects` says what each transaction does to a job and when it is refused,
  `QueueProgress` how the queue comes to rest. `ExecutionWorker` is the worker
  loop over it, with other workers acting between any two of its statements.
- `Journal` and `JournalNode` are the local journal of the checkpointed payout workers, the node and
  the chain; `RecoveryV6` and `BatchV4` are two workers over them. `StagingV7` is a V7 run.
- `ReceivingJobs` is the state machine of the native receiving jobs, one nonce lane per subject, on a
  chain that may reorganize. `ReceivingCalls` is `prepare` and `resume` as they run, each call
  being part of a run of that machine. `ReceivingBudget` is the ledger of what an attempt may spend,
  and `BudgetTightness` says when its bound on overspending is reached.

**Kernels.** `MerklePath` (the sparse path builder, with JavaScript's 32-bit `^`), `Codec` and
`CodecProofs` (the fixed-width body, over `Numerals`), `Rewards` (ceiling division and reward
splitting), `Lifecycle` and `AdapterEvents` (the public payout lifecycle), `EscrowMatching` (the V4
bundle validator). `Wrappers` and `ReceivingKind` hold shared datatypes.

**Reading the contracts.** Where the original changes state step by step the model is a method with
a contract that equates the new state with a specification function of the old one, or with the
state machine's step. Nondeterminism (what a node answers, when a process dies, what others do) is
an arbitrary choice, so a contract holds for every choice. Safety is claimed under all interference. What a
call achieves is claimed for calm periods (`calm`, `alone`: nothing throws or is cut off, nobody else
interferes; quiet if besides nothing sent is undecided), and then exactly: it ends well if and only if the state it starts from and what it reads allow
it, and the new state is said in full. Two histories keep a payout worker honest about what it saw and
did: `heard` holds whose status was read and what it was, and `Follows` compares what was sent with the
plan the readings call for: each of its steps at most once, in its order, and nothing else.

## What was found

These properties hold only under a condition. Each entry says which half is proved: both
directions, or the condition and a run that breaks the property without it.

- A caller that passes the execution gate with a repeated call is fenced against other calls
  if and only if its row covers the nullifiers it presents (`GateFencesExactlyCovered`); after one claim,
  a repeat with one more nullifier passes and is not fenced (`UncoveredRepeatPasses`).
  `processPoolV4Bundle` takes the call hash from the call data (apps/relayer/src/bot.ts:635), so it cannot
  present such a repeat: when each call hash commits to its pool and nullifiers,
  conflicting calls are excluded (`GateExcludesConflicts`).
- The execution transactions of all pools, with their advisory locks, row locks and waits on the unique
  index, never deadlock if and only if the orders in which the pools take their 32-bit lock keys do not run
  in a circle (`DeadlockFreeExactlyNotCircular`). Where no key serves two pools this says that nullifiers
  with one key are neighbours in the order (`DeadlockFreeExactlyContiguous`); distinct keys are such a case.
  Then all open transactions can always come to their end (`EveryoneCanFinish`). PostgreSQL breaks a
  deadlock by an error, so this is a matter of progress, not of safety.
- A V4 batch is stuck when some intent has a checkpoint and another one has neither a checkpoint nor that hash in its
  journal. In a calm period (no call throws, what gets mined succeeds) a batch with a checkpoint is completed
  by recovery if and only if it is not stuck, and so is one without a checkpoint whose journalled sends are
  decided (`EnsureSharedWithdrawal`, `RunBatch`). A stuck batch stays stuck, calm or not, and never sends a
  second withdrawal; two cut-offs lead there from the empty ledger (`CutOffTwiceGetsStuck`).
- A V6 execution that finds its batch funded without a journalled withdrawal that succeeded fails, and fails
  for good once every journalled withdrawal is decided (`EnsureWithdrawal`). One cut-off between the send and
  its journal entry leads there (`CutOffLosesWithdrawal`). In a calm period with nothing undecided this, a
  child that stays unaccepted, and a final status out of range are the only things that stop it
  (`RecoveryV6.RunExecution`).
- An attempt's signed transactions stay within its surplus while its lease keeps dispatches apart
  (`LeasedSpendingStaysWithin`). If two overlap, the excess is at most one finalization budget per
  finalization after the first (`OverspendingIsBounded`), and it can occur (`OverlapOverspends`). Some run
  reaches the bound if and only if the five budgets use up the surplus (`BoundReachedExactlyWhenUsedUp`).
- A worker that is past the gate may still send after its group's execution was retired
  (`LateSendHappens`); all such sends are of workers that passed the gate before (`LateSendPassedBefore`).
- Removing a recovery checkpoint deletes the job that was reported ended unless another removal came in
  between (`RemovesTheEndedJob`); with one in between it can delete a job nobody reported ended
  (`RemovesAnotherJob`).

The Merkle path of a leaf is right for every leaf set exactly when its index is below 2^31
(`PathsAreRightExactlyBelow31Bits`), although the builder accepts trees of 52 levels.

## Model

| member | source | states |
|---|---|---|
| `ExecutionTable.Store.RetainExecution` | apps/relayer/src/pending-store.ts:847-866 | retain is the table function, with the same errors, and no change on failure; what that function answers is `RetainAnswersExactly` |
| `ExecutionTable.Store.RetireSourceLock` | apps/relayer/src/pending-store.ts:869-885 | retirement is bound to the exact row and proof, repeats return the stored proof, and a missing row is inserted already retired |
| `ExecutionTable.Store.RecordRelaySubmission` | apps/relayer/src/pending-store.ts:887-898 | a hash is stored once for the row's own relayer; anything else fails and changes nothing |
| `ExecutionTable.RetainAnswersExactly` | apps/relayer/src/pending-store.ts:847-866 | a caller is let through fresh if and only if nobody holds its nullifiers and, to reserve, its call is new; as a repeat, with the stored hash, if and only if only its own row does; probes and repeats change nothing, a claim adds the one row |
| `ExecutionTable.RetainRefusesExactly` | apps/relayer/src/pending-store.ts:848-863 | which refusal a caller gets: malformed, retired, or a duplicate call |
| `ExecutionTable.RetireAnswersExactly` | apps/relayer/src/pending-store.ts:869-885 | when retire succeeds and what it leaves: the stored proof again, or evidence bound to call, pool and nullifiers, with binding and hash kept |
| `ExecutionTable.RecordAnswersExactly` | apps/relayer/src/pending-store.ts:893-894 | a hash is stored if and only if the row is the relayer's own and has none or the same; nothing else of the row changes |
| `ExecutionTable.OverlapBlocks` | apps/relayer/src/pending-store.ts:856 | the prior-row query finds exactly the unreleased rows of the pool that share a nullifier |
| `ExecutionTable.ApplyKeepsExclusive` | apps/relayer/src/pending-store.ts:847-898 | every transaction keeps the unreleased rows of one pool pairwise disjoint |
| `ExecutionTable.ApplyEvolves` | apps/relayer/src/pending-store.ts:847-898 | a row's binding never changes; its hash and its retirement are written once |
| `ExecutionTable.RunEvolves` | apps/relayer/src/pending-store.ts:847-898 | the same between any two moments of a history |
| `ExecutionTable.RunKeepsExclusive` | apps/relayer/src/pending-store.ts:847-898 | disjointness in every reachable table |
| `ExecutionTable.CallClaimedAtMostOnce` | apps/relayer/src/pending-store.ts:862-864 | two fresh claims are for different call hashes |
| `ExecutionTable.RetiredStaysUnclaimable` | apps/relayer/src/pending-store.ts:854-855 | a retired call hash never passes retain again, whoever asks |
| `ExecutionTable.HashWrittenOnce` | apps/relayer/src/pending-store.ts:893-894 | a stored transaction hash never changes |
| `ExecutionTable.ConflictingClaimNeedsRetirement` | apps/relayer/src/pending-store.ts:856-862 | a second fresh claim on a nullifier comes only after the first was retired |
| `ExecutionTable.GateFencesExactlyCovered` | apps/relayer/src/pending-store.ts:856-861 | a caller that passed is fenced if and only if its row covers what it presented |
| `ExecutionTable.UncoveredRepeatPasses` | apps/relayer/src/pending-store.ts:856-861 | a run to a repeat that passes unfenced; no caller that hashes its own call presents it |
| `ExecutionTable.RunKeepsRowsBound` | apps/relayer/src/pending-store.ts:847-885 | when calls commit to their inputs, every row holds exactly those |
| `ExecutionTable.GateExcludesConflicts` | apps/relayer/src/pending-store.ts:847-866 | two calls sharing a nullifier never both pass the gate unless the first was retired |
| `ExecutionTransactions.CommitKeepsReads` | apps/relayer/src/pending-store.ts:853-863 | under the nullifier locks another transaction's commit changes nothing this one has read |
| `ExecutionTransactions.CommitIsAtomic` | apps/relayer/src/pending-store.ts:852-883 | what a transaction writes is what its table function writes on the table at its commit |
| `ExecutionTransactions.StepKeepsInv` | apps/relayer/src/pending-store.ts:847-898 | one statement of one transaction keeps locks, readings and pending writes consistent |
| `ExecutionTransactions.StepRefinesTable` | apps/relayer/src/pending-store.ts:847-898 | only a commit changes the table, and then by its operation, with the answer that operation gives |
| `ExecutionTransactions.InterleavingIsSerializable` | apps/relayer/src/pending-store.ts:847-898 | any interleaving of statements, rollbacks included, is a history of whole transactions in commit order |
| `ExecutionTransactions.InterleavingKeepsExclusive` | apps/relayer/src/pending-store.ts:847-898 | so disjointness holds of every interleaving |
| `ExecutionHistories.HistoryIsInterleaving` | apps/relayer/src/pending-store.ts:847-898 | every history of whole transactions that take effect is an interleaving of their statements, with the same tables |
| `AdvisoryLocks.CircularExactlySeparated` | apps/relayer/src/pending-store.ts:853 | when no key serves two pools, the lock orders run in a circle if and only if somewhere an outer pair of nullifiers shares a key the one between does not |
| `ExecutionProgress.InterleavingKeepsOrder` | apps/relayer/src/pending-store.ts:853-875 | at every point of every interleaving each key taken is that of a nullifier not after those still to come |
| `ExecutionProgress.RowHolderNeverWaits` | apps/relayer/src/pending-store.ts:862-894 | a transaction that has a row or an index entry locked waits for nobody |
| `ExecutionProgress.DeadlockIsCircular` | apps/relayer/src/pending-store.ts:853-894 | in a deadlock everybody waits for advisory locks, and their keys run in a circle |
| `ExecutionProgress.CircularDeadlocks` | apps/relayer/src/pending-store.ts:853 | from any circle of keys, an interleaving of retains from the empty table that deadlocks |
| `ExecutionProgress.DeadlockFreeExactlyNotCircular` | apps/relayer/src/pending-store.ts:847-898 | any number of retain, retire and record transactions of any pools never deadlock if and only if the lock orders do not run in a circle |
| `ExecutionProgress.DeadlockFreeExactlyContiguous` | apps/relayer/src/pending-store.ts:853 | with pools apart: if and only if the nullifiers that share a key are neighbours |
| `ExecutionProgress.DistinctKeysNeverDeadlock` | apps/relayer/src/pending-store.ts:853-875 | distinct (pool, nullifier) names with distinct keys never deadlock |
| `ExecutionProgress.SomeoneProceeds` | apps/relayer/src/pending-store.ts:847-898 | without a circle, in every reachable state with an open transaction one of them waits for nobody |
| `ExecutionProgress.UnblockedMoves` | apps/relayer/src/pending-store.ts:847-898 | who waits for nobody has a step, and is rolled back only where its statement throws or nothing is to be written |
| `ExecutionProgress.EveryoneCanFinish` | apps/relayer/src/pending-store.ts:847-898 | without a circle, from any point of any interleaving all open transactions can come to their end by their own statements |
| `BundleRelay.StepKeepsInv` | apps/relayer/src/bot.ts:632-662 | every step keeps: one holder per claim, nothing sent for a held claim, each stored hash the node's answer |
| `BundleRelay.RunKeepsInv` | apps/relayer/src/bot.ts:632-662 | the same in every reachable state |
| `BundleRelay.BroadcastAtMostOnce` | apps/relayer/src/bot.ts:644-653 | a call hash is broadcast at most once over all tasks, crashes and restarts |
| `BundleRelay.SettledHashIsTheBroadcast` | apps/relayer/src/bot.ts:649-657 | the hash a task settles is stored in the row and is the answer to that call's only broadcast |
| `BundleRelay.CompetingBroadcastsNeedRetirement` | apps/relayer/src/bot.ts:641-653 | two broadcast calls of one pool sharing a nullifier: one of them was retired |
| `BundleTask.Process.ProcessBundle` | apps/relayer/src/bot.ts:632-662 | the call, with everybody else moving at every await: one that settles returns the stored hash, the answer to that call hash's only broadcast; left alone it settles if and only if its inputs are free and its call new, with one broadcast, or its own row has a hash, with none |
| `SignedCalls.Insert` | apps/relayer/src/phase3/payout-v7-worker-store.ts:40-45 | the insert is new exactly when the id had no row, keeps an existing row and touches no other |
| `SignedCalls.CallStore.Retain` | apps/relayer/src/phase3/payout-v7-worker-store.ts:40-45 | mismatched bytes fail; otherwise the insert, and whether it was new |
| `SignedCalls.StepKeepsCallsInv` | apps/relayer/src/phase3/payout-v7-worker.ts:8-29 | every step keeps: one armed worker per id, nothing sent for an armed id, sends only of retained bytes |
| `SignedCalls.StepKeepsGateInv` | apps/relayer/src/phase3/payout-v7-runtime.ts:163-169 | every step keeps the execution table exclusive and every send behind a row of its group |
| `SignedCalls.RunKeepsInv` | apps/relayer/src/phase3/payout-v7-worker.ts:8-29 | both invariants in every reachable state |
| `SignedCalls.SentAtMostOnce` | apps/relayer/src/phase3/payout-v7-worker.ts:17-22 | an id is broadcast at most once for all time, with its retained bytes |
| `SignedCalls.CallIsImmutable` | apps/relayer/src/phase3/payout-v7-worker-store.ts:40-45 | a retained call never changes |
| `SignedCalls.ReturnedHashIsDelivered` | apps/relayer/src/phase3/payout-v7-worker.ts:25-28 | a returned hash is, from then on, that of the one row with the target and calldata asked for, and it succeeded |
| `SignedCalls.RowsEvolve` | apps/relayer/src/phase3/payout-v7-runtime.ts:163-169 | the execution rows behind the gate keep their bindings, hashes and retirements through a run |
| `SignedCalls.GateNeverReopens` | apps/relayer/src/phase3/payout-v7-runtime.ts:99-117 | after a group's retirement no worker passes the gate for it |
| `SignedCalls.GatedSince` | apps/relayer/src/phase3/payout-v7-runtime.ts:163-169 | a worker about to send passed the gate earlier, while its group was not retired |
| `SignedCalls.LateSendPassedBefore` | apps/relayer/src/phase3/payout-v7-runtime.ts:163-169 | a send after its group's retirement comes from a worker that passed the gate before the retirement |
| `SignedCalls.LateSendHappens` | apps/relayer/src/phase3/payout-v7-runtime.ts:163-169 | the run of gate, retirement and send, for any group |
| `SignedCalls.CompetingSendsNeedRetirement` | apps/relayer/src/phase3/payout-v7-runtime.ts:163-169 | groups competing for a nullifier both send only if one was retired |
| `SignedTask.Process.SignAndInsert` | apps/relayer/src/phase3/payout-v7-worker.ts:17-20 | sign, then insert: the winner holds the right to broadcast, the loser reads again; left alone with no row for the id it wins, with the target and calldata asked for |
| `SignedTask.Process.GateAndBroadcast` | apps/relayer/src/phase3/payout-v7-runtime.ts:163-169 | the gate, then the node; only an answer with the row's own hash goes on; left alone it sends if and only if the gate is open |
| `SignedTask.Process.RunTransaction` | apps/relayer/src/phase3/payout-v7-worker.ts:8-29 | the call, with everybody else moving at every await: a returned hash is that of the one retained call asked for, and it succeeded; left alone it never sends a retained call again, sends a new one if and only if the gate is open, and when it returns |
| `RelayRecovery.StepKeepsInv` | apps/relayer/src/phase3/payout-v7-relay-recovery.ts:42-103 | every step keeps: a named job was the service's answer for that very preparation, and a preparation is within the deposit |
| `RelayRecovery.TransfersAreBacked` | apps/relayer/src/phase3/payout-v7-relay-recovery.ts:64-82 | nothing is transferred beyond what was prepared for that job, hence beyond the deposit |
| `RelayRecovery.NamedStaysUntilRemoved` | apps/relayer/src/phase3/payout-v7-worker-store.ts:25-28 | over any saves of anybody a checkpoint that names a job stays as it is until it is removed |
| `RelayRecovery.RemovesTheEndedJob` | apps/relayer/src/phase3/payout-v7-relay-recovery.ts:64-67 | a removal follows a reading of a job reported ended, and deletes that checkpoint unless another removal came in between |
| `RelayRecovery.RemovesAnotherJob` | apps/relayer/src/phase3/payout-v7-relay-recovery.ts:67 | the run in which the second of two removals deletes the next job's checkpoint |
| `RecoveryTask.Process.Recover` | apps/relayer/src/phase3/payout-v7-relay-recovery.ts:20-104 | the call, with everybody else moving at every await: its transfer is backed, a removed intent has no checkpoint, a named one has a job; left alone it does what the checkpoint and the reported status call for, preparing anew from 45 seconds on |
| `JobQueue.ApplyKeepsJobsOk` | apps/relayer/src/phase3/execution-payload-store.ts:322-982 | every transaction keeps the log an ordered prefix, submitted and confirmed jobs complete, attempts within budget and leases where the status says |
| `JobQueue.StaleWriteRejected` | apps/relayer/src/phase3/execution-payload-store.ts:777-982 | a guarded write without the live token fails and changes nothing |
| `JobQueue.NoJobIsStranded` | apps/relayer/src/phase3/execution-payload-store.ts:654-709 | every job that is not terminal is acquirable, held by a live lease or sweepable |
| `JobQueue.RunKeepsJobsOk` | apps/relayer/src/phase3/execution-payload-store.ts:322-982 | the invariant in every reachable queue |
| `JobQueue.AttemptsAreLeases` | apps/relayer/src/phase3/execution-payload-store.ts:683-812 | the attempt number is leases granted less dry runs and deferrals, so the clamp at 0 never acts, and it stays within the maximum |
| `JobQueue.LogOnlyGrows` | apps/relayer/src/phase3/execution-payload-store.ts:826-867 | a recorded checkpoint is never changed or removed |
| `JobQueue.LeaseHasOrigin` | apps/relayer/src/phase3/execution-payload-store.ts:644-775 | a lease in the table is the latest one granted to that job |
| `JobQueue.SupersededTokenRejected` | apps/relayer/src/phase3/execution-payload-store.ts:777-982 | once a job is leased again every write under the earlier token fails for good |
| `QueueEffects.HeldOrTakenOver` | apps/relayer/src/phase3/execution-payload-store.ts:654-709 | a leased job is held under its token or free to be leased again or swept, never both |
| `QueueEffects.FailureRetriesExactly` | apps/relayer/src/phase3/execution-payload-store.ts:869-904 | a recorded failure leaves the job acquirable at every time if and only if it was retryable with attempts left, and at rest otherwise; no lease, same log and attempts |
| `QueueEffects.InvalidEndsInReview` | apps/relayer/src/phase3/execution-payload-store.ts:905-930 | under the lease an invalid payload ends in review |
| `QueueEffects.RenewalExtendsTheLease` | apps/relayer/src/phase3/execution-payload-store.ts:813-825 | a renewed lease is held under its token until exactly its duration from now |
| `QueueEffects.CheckpointIsTheNext` | apps/relayer/src/phase3/execution-payload-store.ts:826-867 | a checkpoint is taken if and only if its function is the next of the three, and is appended |
| `QueueEffects.SubmissionNeedsTheLog` | apps/relayer/src/phase3/execution-payload-store.ts:931-982 | a job is submitted if and only if the hashes are the three of its log in order |
| `QueueEffects.ConfirmationNeedsTheFinalization` | apps/relayer/src/phase3/execution-payload-store.ts:379-422 | a submitted job is confirmed if and only if the hash is its finalization's |
| `QueueEffects.EnqueuedOnce` | apps/relayer/src/phase3/execution-payload-store.ts:322-378 | an attempt is queued once: a second payload is refused, the same one changes nothing |
| `QueueEffects.AcquireTouches` | apps/relayer/src/phase3/execution-payload-store.ts:644-775 | an acquire sends the swept jobs to review, leases the picked one or finds it unreadable, and leaves the others |
| `QueueEffects.SweepsTheOldest` | apps/relayer/src/phase3/execution-payload-store.ts:654-668 | a job left unswept expired after each of the hundred swept |
| `QueueEffects.PicksTheLongestWaiting` | apps/relayer/src/phase3/execution-payload-store.ts:683-697 | a candidate not picked has waited less than the one picked |
| `QueueEffects.GivingBackUndoesTheAcquire` | apps/relayer/src/phase3/execution-payload-store.ts:777-812 | a dry run or deferral under the lease leaves the job queued with the attempts it had before the acquire |
| `QueueEffects.GivingBackTakesOneOff` | apps/relayer/src/phase3/execution-payload-store.ts:777-812 | giving back needs the lease and takes one attempt off |
| `JobQueue.ProgressLowersRemaining` | apps/relayer/src/phase3/execution-payload-store.ts:644-982 | every change that is not a renewal, dry run or deferral lowers a measure |
| `JobQueue.StepsAreBounded` | apps/relayer/src/phase3/execution-payload-store.ts:644-982 | without dry runs and deferrals a job moves a bounded number of times, whatever the workers do |
| `QueueProgress.AcquireIsIdleExactlyAtRest` | apps/relayer/src/phase3/execution-payload-store.ts:654-709 | an acquire that skips no locked row sweeps and picks nothing if and only if every job is terminal or held by a live lease |
| `QueueProgress.UnheldJobMoves` | apps/relayer/src/phase3/execution-payload-store.ts:654-709 | while some job is neither, such an acquire moves a job |
| `QueueProgress.QueueComesToRest` | apps/relayer/src/phase3/execution-payload-store.ts:644-982 | without dry runs, deferrals and new jobs, once there were more acquires past all expiries than work left, every job is terminal |
| `QueueProgress.WaitingJobIsPicked` | apps/relayer/src/phase3/execution-payload-store.ts:683-709 | a job that can be acquired is picked at the latest by the acquire after as many as there are jobs ahead of it, and nothing changes it before |
| `JobStore.Store.FirstExhausted` | apps/relayer/src/phase3/execution-payload-store.ts:654-682 | the sweep takes the hundred exhausted leases that expired first |
| `JobStore.Store.LongestWaiting` | apps/relayer/src/phase3/execution-payload-store.ts:683-709 | the candidate that has waited longest, or none if there is none |
| `JobStore.Store.AcquireJob` | apps/relayer/src/phase3/execution-payload-store.ts:644-775 | the acquire transaction in place; a grant is a live lease on the stored log |
| `JobStore.Store.RecordDryRun` | apps/relayer/src/phase3/execution-payload-store.ts:777-803 | the dry-run transaction: queued again, attempt given back |
| `JobStore.Store.DeferJob` | apps/relayer/src/phase3/execution-payload-store.ts:804-812 | the deferral transaction |
| `JobStore.Store.RenewLease` | apps/relayer/src/phase3/execution-payload-store.ts:813-825 | the renewal transaction |
| `JobStore.Store.RecordConfirmed` | apps/relayer/src/phase3/execution-payload-store.ts:826-867 | the checkpoint transaction: the next checkpoint in order is appended, anything else fails |
| `JobStore.Store.RecordFailed` | apps/relayer/src/phase3/execution-payload-store.ts:869-904 | under the lease: the lease is gone, log and attempts are kept, and the job can be leased again at every time if and only if the failure was retryable with attempts left |
| `JobStore.Store.RecordPayloadInvalid` | apps/relayer/src/phase3/execution-payload-store.ts:905-930 | an invalid payload goes to review |
| `JobStore.Store.RecordSubmitted` | apps/relayer/src/phase3/execution-payload-store.ts:931-982 | submission only with the hashes of the whole log |
| `JobStore.Store.ConfirmExecution` | apps/relayer/src/phase3/execution-payload-store.ts:379-422 | confirmation of a submitted job |
| `ExecutionWorker.ForeignStepInterferes` | apps/relayer/src/phase3/execution-payload-store.ts:644-982 | what others can do to a job whose token they do not know |
| `ExecutionWorker.RunOnce` | apps/relayer/src/phase3/index.ts:1889-2045 | the loop broadcasts the remaining plan in order, the finalization on refreshed terms; its writes fail only for a lost lease, which a calm period excludes; the receipts decide how it ends and how it leaves the job |
| `ExecutionWorker.RunPlan` | apps/relayer/src/phase3/index.ts:1970-2036 | the same for the loop from any stored prefix |
| `ExecutionWorker.RunStep` | apps/relayer/src/phase3/index.ts:1971-2030 | one step: a mined receipt is recorded, a throw is retried, a revert reviewed, a pending one deferred, each seen in the job's status |
| `ExecutionWorker.RecordMined` | apps/relayer/src/phase3/index.ts:2023-2029 | while the lease is held, as in a calm period, the checkpoint is accepted |
| `ExecutionWorker.Finish` | apps/relayer/src/phase3/index.ts:2032-2036 | while the lease is held, as in a calm period, the final comparison succeeds |
| `Journal.MinedKeepsSafe` | apps/relayer/src/phase3/payout-v6-checkpointed-worker.ts:79-85 | the chain deciding a transaction keeps the journal safe |
| `Journal.SendIsOk` | apps/relayer/src/phase3/payout-v6-checkpointed-worker.ts:89-108 | a send over failures only, and none once the batch is funded unless a send was lost |
| `Journal.LostSendKeepsSafe` | apps/relayer/src/phase3/payout-v6-checkpointed-worker.ts:97-101 | a send cut off before it is journalled |
| `Journal.JournalledSendKeepsSafe` | apps/relayer/src/pending-store.ts:578-586 | a send and its journal entry |
| `Journal.CheckpointKeepsSafe` | apps/relayer/src/pending-store.ts:558-576 | a checkpoint of a journalled success is accepted and never changes a stored one |
| `Journal.AlsoJournalledKeepsSafe` | apps/relayer/src/phase3/payout-v4-batch-worker.ts:204-209 | the shared send journalled for a further intent |
| `Journal.AtMostOneSuccess` | apps/relayer/src/phase3/payout-v6-checkpointed-worker.ts:72-108 | of the journalled transactions of a step at most one is not a failure |
| `Journal.AtMostOneLiveSend` | apps/relayer/src/phase3/payout-v6-checkpointed-worker.ts:72-108 | while no send was lost, of all transactions sent for a step at most one is not a failure |
| `Journal.FundedExactlyBySuccess` | apps/relayer/src/phase3/payout-v6-checkpointed-worker.ts:131-152 | a batch is funded by a journalled withdrawal that succeeded, and unless a send was lost by nothing else |
| `JournalNode.Node.RecordCheckpoint` | apps/relayer/src/pending-store.ts:558-576 | the write-once checkpoint; a different stored hash cannot occur |
| `JournalNode.Node.Submit` | apps/relayer/src/phase3/payout-v6-checkpointed-worker.ts:97-101 | send, then journal, with the chain moving and a cut-off possible in between |
| `JournalNode.Node.FindSuccess` | apps/relayer/src/phase3/payout-v6-checkpointed-worker.ts:79-86 | newest first up to a success; a pending one throws; none means all failed |
| `RecoveryV6.RecoverSubmitted` | apps/relayer/src/phase3/payout-v6-checkpointed-worker.ts:72-87 | sends nothing; None only over failures without a checkpoint; when the step is decided it answers if and only if there is a checkpoint or a journalled success; in a calm period it then never throws |
| `RecoveryV6.RunTransaction` | apps/relayer/src/phase3/payout-v6-checkpointed-worker.ts:89-108 | sends only its own step, at most once and only over failures; success is its checkpoint, and comes in a calm period under the same condition |
| `RecoveryV6.AcceptQuotes` | apps/relayer/src/phase3/payout-v6-checkpointed-worker.ts:114-129 | every child that read 0 has an acceptance checkpoint and none reads 0 afterwards; the sends follow those readings and each reading is the child's own; in a quiet calm period only a child still reading 0 stops it |
| `RecoveryV6.EnsureWithdrawal` | apps/relayer/src/phase3/payout-v6-checkpointed-worker.ts:131-152 | one withdrawal at most, and none once the escrows are funded, even after a lost send, or if their readings differ; in a quiet calm period it succeeds if and only if no withdrawal was lost; a lost one stays lost |
| `RecoveryV6.CutOffLosesWithdrawal` | apps/relayer/src/phase3/payout-v6-checkpointed-worker.ts:97-101 | the cut-off after which the batch is funded and the journal knows of no success |
| `RecoveryV6.ConfirmAndSubmit` | apps/relayer/src/phase3/payout-v6-checkpointed-worker.ts:154-182 | the checkpoints that a child's own readings call for; confirmation then submission are sent at most once each and only on those readings, and no confirmation unless the batch is funded; in a quiet calm period with the batch funded it succeeds if and only if the last status is 1 to 6 |
| `RecoveryV6.RunExecution` | apps/relayer/src/phase3/payout-v6-checkpointed-worker.ts:110-188 | one run from whatever an earlier one left: safe, no checkpoint changed, and on success a withdrawal checkpoint and those each child's readings call for; sends follow the acceptances, the withdrawal and the children's steps in that order, and the readings are the children's own in reading order; in a quiet calm period it succeeds if and only if no child still reads 0, no withdrawal is lost and the last statuses are 1 to 6 |
| `RecoveryV6.RunTerminalTransaction` | apps/relayer/src/phase3/payout-v6-checkpointed-worker.ts:190-234 | the downstream variant sends over failures only, answers a checkpoint or a journalled transaction that has not failed, and in a calm period always answers |
| `RecoveryV6.RunDownstream` | apps/relayer/src/phase3/payout-v6-checkpointed-worker.ts:236-320 | a pass attempts the completion with a quorum for a payout that reads as submitted, and the refund only if it then still does; nothing else is sent, and no other intent's status is read |
| `RecoveryV6.RestartForever` | apps/relayer/src/phase3/payout-v6-checkpointed-worker.ts:110-320 | any number of runs and passes, each cut off anywhere: safe, and no checkpoint ever changed |
| `BatchV4.CheckpointsAgree` | apps/relayer/src/phase3/payout-v4-batch-worker.ts:147-156 | all recorded withdrawal checkpoints carry one hash |
| `BatchV4.SuccessIsShared` | apps/relayer/src/phase3/payout-v4-batch-worker.ts:185-190 | a success found under any intent is the batch's one success |
| `BatchV4.ReplaySubmitted` | apps/relayer/src/phase3/payout-v4-batch-worker.ts:88-104 | sends nothing; a success is checkpointed; None only over failures |
| `BatchV4.EnsureAccepted` | apps/relayer/src/phase3/payout-v4-batch-worker.ts:106-145 | sends the intent's acceptance only on its own status below 1, at most once, leaves everything else alone, and succeeds only with a checkpoint; in a calm period if and only if status, checkpoint and journal allow it |
| `BatchV4.RecordForAll` | apps/relayer/src/phase3/payout-v4-batch-worker.ts:73-86 | the shared hash becomes every intent's checkpoint |
| `BatchV4.FollowCheckpoint` | apps/relayer/src/phase3/payout-v4-batch-worker.ts:155-183 | follows an existing checkpoint; a stuck batch fails and stays stuck; in a calm period it succeeds if and only if the batch is not stuck |
| `BatchV4.ReplayAll` | apps/relayer/src/phase3/payout-v4-batch-worker.ts:185-200 | at most one success is found, and none only if every journalled send failed |
| `BatchV4.Withdraw` | apps/relayer/src/phase3/payout-v4-batch-worker.ts:202-210 | the one send, for the batch's first intent, journalled intent by intent |
| `BatchV4.EnsureSharedWithdrawal` | apps/relayer/src/phase3/payout-v4-batch-worker.ts:147-218 | given statuses that all read 1: sends over failures only; success leaves one shared successful checkpoint; a stuck batch sends nothing; in a calm period it completes if and only if the batch is not stuck, given a checkpoint to follow or no send undecided |
| `BatchV4.AcceptPhase` | apps/relayer/src/phase3/payout-v4-batch-worker.ts:227-260 | goes on to the withdrawal only when every status reads 1; in a calm period the readings and the journalled acceptances decide between withdrawal, downstream and failure |
| `BatchV4.RunBatch` | apps/relayer/src/phase3/payout-v4-batch-worker.ts:224-264 | a withdrawal is sent only after a reading of 1 for all; sends follow the acceptances the readings call for and then one withdrawal, and the readings are the intents' own in reading order; a confirmed batch is complete; a stuck one never sends; in a calm period it ends downstream if and only if the readings say so, and confirmed if and only if all came to read 1 and the batch was not stuck, given a checkpoint to follow or no withdrawal undecided |
| `BatchV4.RestartForever` | apps/relayer/src/phase3/payout-v4-batch-worker.ts:224-264 | the same over any number of runs cut off anywhere |
| `BatchV4.CutOffTwiceGetsStuck` | apps/relayer/src/phase3/payout-v4-batch-worker.ts:157-174 | the two cut-offs after which recovery cannot complete |
| `StagingV7.AcceptStage` | apps/relayer/src/phase3/payout-v7-worker.ts:41-44 | mixed funding aborts with nothing undertaken; otherwise preflight if needed, then exactly the children that read 0 |
| `StagingV7.SourceStage` | apps/relayer/src/phase3/payout-v7-worker.ts:45-51 | the source only with every child accepted and none funded in the reading; mixed funding aborts before it; the hash is the answer of the source if this run sent it and the stored one otherwise |
| `StagingV7.ChildStage` | apps/relayer/src/phase3/payout-v7-worker.ts:52-69 | a child's events are exactly what its three readings call for, with its own submission: the answer of this run, or the one stored for this child |
| `StagingV7.RunExecution` | apps/relayer/src/phase3/payout-v7-worker.ts:31-71 | plan order, each event at most once, preflight before source, funding and a source hash before confirmation; a finished run undertook exactly what its readings call for, with each child's own submission; in a calm period it finishes if and only if the chain and the stored hashes allow it, and leaves every child submitted or beyond |
| `StagingV7.ChildStepsOrdered` | apps/relayer/src/phase3/payout-v7-worker.ts:52-69 | per child: registration, provenance, confirmation, submission, delivery, in that order |
| `StagingV7.SourceSplitsTheRun` | apps/relayer/src/phase3/payout-v7-worker.ts:41-50 | one source, with exactly the preflight and acceptances before it |
| `ReceivingJobs.NonceCounts` | apps/relayer/src/phase3/receiving-jobs-v4.ts:81-88 | a lane nonce of 0 means nothing of that lane is on the chain |
| `ReceivingJobs.CommitLeavesReadings` | apps/relayer/src/phase3/receiving-jobs-v4.ts:110-113 | under the lane lock a commit contradicts nobody else's reading |
| `ReceivingJobs.StepKeepsInv` | apps/relayer/src/phase3/receiving-jobs-v4.ts:108-156 | every step keeps the table, the workers' knowledge and the chain consistent, and only appends rows |
| `ReceivingJobs.RunKeepsInv` | apps/relayer/src/phase3/receiving-jobs-v4.ts:108-156 | the same in every reachable state |
| `ReceivingJobs.OneRowPerSubject` | apps/relayer/src/phase3/receiving-jobs-v4.ts:112-127 | no subject ever has two retained transactions, and each is valid for its subject |
| `ReceivingJobs.RowsOnlyGrow` | apps/relayer/src/phase3/receiving-jobs-v4.ts:126-127 | retained rows are only appended |
| `ReceivingJobs.RetainedIsImmutable` | apps/relayer/src/phase3/receiving-jobs-v4.ts:112-127 | a subject's transaction is the same at any two moments |
| `ReceivingJobs.RetainedIsWhatWasAsked` | apps/relayer/src/phase3/receiving-jobs-v4.ts:88-100 | a retained transaction is the one call its request asked for, nonce 0 of its subject's lane, within the reward |
| `ReceivingJobs.PrepareIsIdempotent` | apps/relayer/src/phase3/receiving-jobs-v4.ts:108-132 | any two answers of prepare for a subject agree, across races and crashes |
| `ReceivingJobs.ClearedSince` | apps/relayer/src/phase3/receiving-jobs-v4.ts:146-149 | a worker about to broadcast read the lane nonce as unused earlier in its call |
| `ReceivingJobs.BroadcastIsRetained` | apps/relayer/src/phase3/receiving-jobs-v4.ts:146-151 | a broadcast hands over exactly the retained bytes, after such a reading |
| `ReceivingJobs.ConfirmedWasExecuted` | apps/relayer/src/phase3/receiving-jobs-v4.ts:139-144 | a reported confirmation saw the transaction on the chain |
| `ReceivingJobs.LaneExecutesAtMostOnce` | apps/relayer/src/phase3/receiving-jobs-v4.ts:39-44 | a lane executes at most one transaction, and it is a retained one |
| `ReceivingJobs.SubjectExecutesItsOwn` | apps/relayer/src/phase3/receiving-jobs-v4.ts:39-44 | with distinct lanes a subject executes only its own transaction, the same one before and after any reorganization |
| `ReceivingCalls.Host.Select` | apps/relayer/src/phase3/receiving-jobs-v4.ts:101-104 | the one row of the subject, none, or the identity error |
| `ReceivingCalls.Host.SignAndRetain` | apps/relayer/src/phase3/receiving-jobs-v4.ts:116-128 | sign, recheck, insert and commit, or throw with the lock freed; left alone it retains if and only if the lane is unused and the request fits and pays |
| `ReceivingCalls.Host.Prepare` | apps/relayer/src/phase3/receiving-jobs-v4.ts:108-132 | the answer is retained, is what was retained before the call if anything was, and the lock is freed on every path; left alone it answers if and only if what is retained is intact and still asked for, or what is asked for can be signed, or nothing is |
| `ReceivingCalls.Host.Send` | apps/relayer/src/phase3/receiving-jobs-v4.ts:145-152 | the retained bytes are sent, or nothing is; left alone they are sent if and only if the lane is unused and they are still asked for |
| `ReceivingCalls.Host.Resume` | apps/relayer/src/phase3/receiving-jobs-v4.ts:133-156 | an ended call reports on the subject's retained transaction, confirmed exactly when it saw it on the chain; left alone it says what has become of it, and sends it if and only if no node knows it, its lane is unused and it is still asked for |
| `ReceivingBudget.Ledger.Open` | apps/relayer/src/phase3/receiving-runtime-v4.ts:157-173 | budgets handed out are exactly those stored for the attempt afterwards; none are handed out if and only if a new attempt would pay for a publication that another one pays for |
| `ReceivingBudget.OpenAnswersExactly` | apps/relayer/src/phase3/receiving-runtime-v4.ts:157-173 | stored budgets are handed out again, new ones are the least that cover each kind's own gas, a publication costs only its payer |
| `ReceivingBudget.AnswersAgree` | apps/relayer/src/phase3/receiving-runtime-v4.ts:157-173 | any two openings of an attempt in a run that hand out budgets hand out the same ones |
| `ReceivingBudget.NewBudgetsAreLeast` | apps/relayer/src/phase3/receiving-runtime-v4.ts:164 | each budget is the least reward that covers the gas of its own kind |
| `ReceivingBudget.JobPaidByItsKind` | apps/relayer/src/phase3/receiving-runtime-v4.ts:207-222 | a job costs the least that covers its gas terms, within the budget of its own kind |
| `ReceivingBudget.SpentIsDispatched` | apps/relayer/src/phase3/receiving-runtime-v4.ts:216-221 | the ledger query adds up exactly the jobs the attempt dispatched |
| `ReceivingBudget.Ledger.MaySign` | apps/relayer/src/phase3/receiving-runtime-v4.ts:213-222 | the signing check passes exactly when everything retained for the attempt and the new cost fit its surplus |
| `ReceivingBudget.OpenKeepsCosts` | apps/relayer/src/phase3/receiving-runtime-v4.ts:157-173 | opening keeps stored budgets, their bounds and the one payer per publication |
| `ReceivingBudget.ChargedToOne` | apps/relayer/src/phase3/receiving-runtime-v4.ts:207-222 | a job is charged to the attempt that dispatched it and to nobody else |
| `ReceivingBudget.RunKeepsInv` | apps/relayer/src/phase3/receiving-runtime-v4.ts:157-226 | budgets and jobs stay consistent in every reachable ledger |
| `ReceivingBudget.BudgetsStayWithin` | apps/relayer/src/phase3/receiving-runtime-v4.ts:157-173 | the five budgets of an attempt never exceed expected amount less principal |
| `ReceivingBudget.PublicationHasOnePayer` | apps/relayer/src/phase3/receiving-runtime-v4.ts:163-166 | a retained publication has one payer, whatever each attempt saw on the chain |
| `ReceivingBudget.OverspendingIsBounded` | apps/relayer/src/phase3/receiving-runtime-v4.ts:213-222 | with overlapping dispatches the excess is at most one finalization budget per finalization after the first |
| `ReceivingBudget.LeasedSpendingStaysWithin` | apps/relayer/src/phase3/receiving-runtime-v4.ts:207-226 | while the lease keeps dispatches apart everything signed costs at most the surplus |
| `ReceivingBudget.OverlapOverspends` | apps/relayer/src/phase3/receiving-runtime-v4.ts:213-222 | an overlapping run that overspends |
| `BudgetTightness.BoundReachedExactlyWhenUsedUp` | apps/relayer/src/phase3/receiving-runtime-v4.ts:157-222 | for any number of finalizations some run reaches that bound if and only if the five budgets use up the surplus |
| `MerklePath.XorIsSibling` | packages/crypto-utils/src/index.ts:61-63 | `x ^ 1` is the sibling if and only if x is below 2^31; `x & 1` is always the low bit |
| `MerklePath.CollectIsTheLeafSet` | packages/crypto-utils/src/index.ts:41-50 | the leaf check accepts exactly distinct indices of the tree and keeps each value |
| `MerklePath.CollectLeaves` | packages/crypto-utils/src/index.ts:41-50 | the loop decides as the leaf set does, with the first bad leaf's error |
| `MerklePath.AcceptsExactly` | packages/crypto-utils/src/index.ts:26-55 | arguments are accepted if and only if the tree has 1 to 52 levels and a zero for each, the leaves are good and the leaf asked for is among them |
| `MerklePath.ComplainsExactly` | packages/crypto-utils/src/index.ts:26-55 | which complaint is made, in which order |
| `MerklePath.CollectComplains` | packages/crypto-utils/src/index.ts:41-50 | the first leaf out of the tree or repeating an index decides |
| `MerklePath.ParentLayer` | packages/crypto-utils/src/index.ts:65-75 | one level up is the hash of both children of every parent |
| `MerklePath.BuildIndexedMerklePath` | packages/crypto-utils/src/index.ts:19-87 | the errors in their order, the path of the specification, and a root that is always there |
| `MerklePath.PathFoldsToRoot` | packages/crypto-utils/src/index.ts:60-79 | for any zero table the path of a leaf below 2^31 folds to the returned root |
| `MerklePath.FoldPinsThePath` | packages/crypto-utils/src/index.ts:60-63 | with a collision-free hash a path that folds to the root has the true neighbour at every level |
| `MerklePath.WidePathFails` | packages/crypto-utils/src/index.ts:61-62 | from 2^31 on, the leaf set whose path does not fold to the root |
| `MerklePath.PathsAreRightExactlyBelow31Bits` | packages/crypto-utils/src/index.ts:26-79 | right for every leaf set if and only if the index is below 2^31 |
| `MerklePath.SparseIsDense` | packages/crypto-utils/src/index.ts:65-77 | occupied nodes are those of the full tree, the others hold only zeros |
| `MerklePath.RootIsDense` | packages/crypto-utils/src/index.ts:81-86 | with a zero chain the root is that of the full zero-padded tree |
| `MerklePath.RegistryPath` | apps/relayer/src/phase3/receiving-runtime-v4.ts:134-143 | the inline 32-level loop computes the same path and root |
| `MerklePath.RegistryPathIsGeneral` | apps/relayer/src/phase3/receiving-runtime-v4.ts:134-144 | the general builder accepts the registry's tree; the path folds to the root of the full tree |
| `MerklePath.RevokedIsEmpty` | apps/relayer/src/phase3/receiving-runtime-v4.ts:135 | a revoked record leaves its place empty whatever its leaf was, any other has its own leaf |
| `MerklePath.RegistryPathProvesTheLeaf` | apps/relayer/src/phase3/receiving-runtime-v4.ts:134-145 | the refreshed path folds from the record's own leaf to the root |
| `Codec.SchemaLength` | packages/crypto-utils/src/recipient-format-v4.ts:9-18 | the schema adds up to 443 bytes |
| `Codec.WriteField` | packages/crypto-utils/src/recipient-format-v4.ts:44-47 | the shifting loop writes the big-endian notation and nothing else |
| `Codec.EncodeReceivingBody` | packages/crypto-utils/src/recipient-format-v4.ts:20-51 | the buffer loop computes the specified encoding or the first error |
| `Codec.DecodeReceivingBody` | packages/crypto-utils/src/recipient-format-v4.ts:53-68 | the reading loop computes the specified decoding |
| `CodecProofs.EncodesExactlyValidBodies` | packages/crypto-utils/src/recipient-format-v4.ts:20-43 | a body is encoded if and only if every field is of its kind, in range and not zero (but for one fee) |
| `CodecProofs.EncodeIgnoresCase` | packages/crypto-utils/src/recipient-format-v4.ts:31-36 | the case of hexadecimal digits changes neither outcome nor bytes |
| `CodecProofs.DecodeInvertsEncode` | packages/crypto-utils/src/recipient-format-v4.ts:20-68 | decoding an encoding gives the body in lower case |
| `CodecProofs.EncodeInvertsDecode` | packages/crypto-utils/src/recipient-format-v4.ts:20-68 | encoding a decoded body gives the very bytes |
| `CodecProofs.DecodesExactlyEncodings` | packages/crypto-utils/src/recipient-format-v4.ts:53-68 | the accepted byte strings are exactly the encodings |
| `CodecProofs.EncodesAlikeExactlyUpToCase` | packages/crypto-utils/src/recipient-format-v4.ts:20-51 | equal encodings if and only if equal up to hexadecimal case |
| `CodecProofs.DecodedIsValid` | packages/crypto-utils/src/recipient-format-v4.ts:53-68 | a decoded body is valid and in lower case |
| `CodecProofs.EncodeComplains` | packages/crypto-utils/src/recipient-format-v4.ts:20-43 | what an invalid body is told: shape, then asset, then the first bad field in schema order |
| `CodecProofs.EveryFieldInItsPlace` | packages/crypto-utils/src/recipient-format-v4.ts:9-49 | behind three bytes of frame every field stands at its place in big-endian notation |
| `CodecProofs.SchemaKinds` | packages/crypto-utils/src/recipient-format-v4.ts:9-16 | addresses and hashes are text, commitments and keys field elements, the rest integers |
| `Numerals.ReadsBack` | packages/crypto-utils/src/recipient-format-v4.ts:44-62 | bytes written of a number that fits read back as it |
| `Numerals.WritesBack` | packages/crypto-utils/src/recipient-format-v4.ts:60-62 | any bytes are the notation of what they read as |
| `Numerals.ByteWeights` | packages/crypto-utils/src/recipient-format-v4.ts:44-47 | the k-th byte from the left has the weight 256 to the power of those behind it |
| `Numerals.PaddedIsFixed` | packages/crypto-utils/src/recipient-format-v4.ts:62 | printing without leading zeros and padding is the fixed-width notation |
| `Numerals.PrintsBack` | packages/crypto-utils/src/recipient-format-v4.ts:31-62 | printing parsed hexadecimal gives it in lower case |
| `Rewards.LeastCovering` | apps/relayer/src/phase3/relay-reward.ts:1-12 | the computed reward is the least that pays gas times price plus ten percent, and the guard passes exactly on covering rewards |
| `Rewards.QuotesExactly` | apps/relayer/src/phase3/relay-reward-v4.ts:19-76 | there is a quote if and only if the policy is within bounds, there are 1 to 10 recipients, all is priced, the source is within the ceiling for one or for several, and every child's parts fit its quote |
| `Rewards.ChildQuotedExactly` | apps/relayer/src/phase3/relay-reward-v4.ts:56-74 | when a child is quoted, and its share, reimbursement, fee and maximum |
| `Rewards.CostIsMonotone` | apps/relayer/src/phase3/relay-reward.ts:1-6 | less gas at a lower price never costs more |
| `Rewards.CostIsSubadditive` | apps/relayer/src/phase3/relay-reward.ts:1-6 | covering two costs separately covers their sum, at most one unit above covering it at once |
| `Rewards.SourceRewardIsConserved` | apps/relayer/src/phase3/relay-reward-v4.ts:54-57 | the allocations sum to the source reward and never differ by more than one |
| `Rewards.PartsTotalTheQuote` | apps/relayer/src/phase3/relay-reward-v4.ts:56-74 | a child's three parts total its quote, none is negative, and the delivery fee covers completion |
| `Rewards.QuoteSatisfiesLaterGuards` | apps/relayer/src/phase3/payout-v7-runtime.ts:136-156 | a quote passes the source, confirm, submit and complete guards of transactions within the quoted gas and price |
| `Lifecycle.TransitionsDescend` | packages/shared-types/src/index.ts:828-842 | every transition lowers the height of the status |
| `Lifecycle.TransitionsExactly` | packages/shared-types/src/index.ts:828-842 | a payout goes forward one place at a time, expires once its escrow is reserved, is reviewed or fails once money may have moved, and ends from there as said |
| `Lifecycle.RefundStaysPossible` | packages/shared-types/src/index.ts:828-842 | a refund can be reached if and only if the payout is not completed |
| `Lifecycle.CompletionExactlyUntilLost` | packages/shared-types/src/index.ts:828-842 | completion can be reached if and only if the payout has not expired, failed or come to its refund |
| `Lifecycle.TextsTellTheTruth` | packages/shared-types/src/index.ts:860-896 | what a record says can still happen is what its status allows |
| `Lifecycle.AppliesExactly` | packages/shared-types/src/index.ts:869-896 | when an event takes effect, and every field it leaves |
| `Lifecycle.EffectsAreBounded` | packages/shared-types/src/index.ts:869-896 | any stream of events takes effect at most as often as the height allows, eleven times from the start |
| `Lifecycle.BoundIsReached` | packages/shared-types/src/index.ts:828-896 | from every record some stream reaches that bound |
| `Lifecycle.TerminalAbsorbs` | packages/shared-types/src/index.ts:828-896 | a completed or refunded record never changes again |
| `Lifecycle.CompletedOrRefunded` | packages/shared-types/src/index.ts:828-896 | no stream shows a payout completed at one point and refunded at another |
| `Lifecycle.TrailStaysOk` | packages/shared-types/src/index.ts:873-888 | each event id once in a growing trail; a status that needs a reason has one |
| `Lifecycle.RedeliveryChangesNothing` | packages/shared-types/src/index.ts:869-873 | a stream that applies cleanly gives the same record however often its events are delivered again |
| `AdapterEvents.EventIdsAreInjective` | packages/shared-types/src/index.ts:904-915 | an event id determines the adapter event and the suffix it came from |
| `AdapterEvents.StageAdmitsExactly` | packages/shared-types/src/index.ts:898-1001 | at each stage the table admits exactly the adapter events the stage admits |
| `AdapterEvents.ProjectedEvent` | packages/shared-types/src/index.ts:904-1000 | each public event has the authority, id and evidence of its status |
| `AdapterEvents.ReplaysExactlyAdapterOrder` | packages/shared-types/src/index.ts:898-1001 | a sequence of V3 or V4 events projects to legal transitions if and only if it is in adapter order, with evidence for its claims |
| `AdapterEvents.RecoveryIsAlwaysLegal` | packages/shared-types/src/index.ts:935-1000 | from each stage between quote and submission recovery is legal and ends refunded |
| `EscrowMatching.AuthorizesExactly` | apps/relayer/src/phase3/index.ts:1194-1252 | a binding is authorized, as this entry, if and only if binding, authority and intent agree on hash, adapter, escrow, authority, amount, pool, token and asset, for this relayer |
| `EscrowMatching.BindingsExactly` | apps/relayer/src/phase3/index.ts:1175-1192 | a bundle names one binding, or a batch of two to ten, and not both |
| `EscrowMatching.CheckShape` | apps/relayer/src/phase3/index.ts:1264-1287 | the checks of signals and outputs decide the shape |
| `EscrowMatching.IndexAuthorities` | apps/relayer/src/phase3/index.ts:1293-1300 | accepted exactly when the intent hashes are present and distinct; then each finds its authority |
| `EscrowMatching.CheckSeparate` | apps/relayer/src/phase3/index.ts:1312-1330 | the Set loop decides one pool and asset, no escrow and no intent twice |
| `EscrowMatching.MatchOutputs` | apps/relayer/src/phase3/index.ts:1339-1349 | the matching loop succeeds exactly when every output pays an expected escrow its amount, none twice |
| `EscrowMatching.CarryingKeepsTotal` | apps/relayer/src/phase3/index.ts:1333-1335 | leaving out the zero outputs keeps the total |
| `EscrowMatching.MatchingIsExact` | apps/relayer/src/phase3/index.ts:1332-1352 | equal counts and matched outputs leave nothing over on either side, so the last size check cannot fail |
| `EscrowMatching.ExactIsMatched` | apps/relayer/src/phase3/index.ts:1332-1352 | an exact pairing is counted and matched, and pays the same sum |
| `EscrowMatching.OutputsTotalTheAuthorized` | apps/relayer/src/phase3/index.ts:1333-1353 | the ten outputs total exactly what the bindings authorize |
| `EscrowMatching.AuthoritiesPairOff` | apps/relayer/src/phase3/index.ts:1289-1311 | bindings and authorities pair off by intent hash, with no authority left over |
| `EscrowMatching.ValidateEntries` | apps/relayer/src/phase3/index.ts:1290-1330 | the entries of the bindings if there are such; they are determined by bundle and authorities |
| `EscrowMatching.CheckOutputs` | apps/relayer/src/phase3/index.ts:1332-1352 | passes exactly on an exact pairing of outputs and entries |
| `EscrowMatching.ValidateBundle` | apps/relayer/src/phase3/index.ts:1258-1354 | accepts exactly the exact bundles and returns their entries in order |

## Left out

- HTTP, Waku, RPC, SQL text, ABI encoding, encryption, signatures and hashing: store operations, arbitrary answers, or functions nothing is assumed of (a collision-free hash only where a lemma says so).
- Hexadecimal strings and addresses are numbers after lower-casing, and malformed ones are a separate constructor or excluded by the type; in the bundle validator they are rejected as in the source.
- `BundleRelay` leaves out the in-memory sets of nullifiers in flight and seen, which only make a single process more careful, and the inbox copy of the transaction hash (apps/relayer/src/pending-store.ts:895).
- `ExecutionProgress` takes the order of lock names within a pool as the order of numbers, and leaves out the inbox row the recording transaction updates last; the inbox's own transactions lock no execution row. The other users of advisory locks ask for one lock and then for none.
- `EnsureSharedWithdrawal`: without a checkpoint, completion is promised only when no journalled send is undecided, since a pending one may be met before or after a success.
- `RelayRecovery` keeps of the service's answers the amount, the nonce, the job and its status; the evidence of the deposit and the shape of the job's call are ways to throw, and its broadcast is a `SignedCalls` call keyed by the job.
- A probing retain that finds nothing takes no place in the commit order of `ExecutionTransactions`: its answer may be out of date at once, and the claim that follows decides again.
- Retirement evidence (`validatePayoutV7RetirementCalls`, the expired-lease verifier) is an oracle that hands back a proof or fails.
- The queue's event table and failure codes are a record of what happened and decide nothing; `JobQueue` leaves them out, and takes a lease token as what its hash stands for.
- The V3 payout twin of the execution queue has one step instead of three and the same transactions; the schema of the phase3_private tables is not part of this model.
- The preparation rollback of an invalid V3 payload (apps/relayer/src/phase3/execution-payload-store.ts:618-627): the update is undone by the rethrow, so nothing is claimed of it.
- The V4 and V6 journals are a map from intent and step to hashes, without the unique index on the transaction hash (apps/relayer/src/pending-store.ts:188, 229), which a withdrawal shared by several intents could not satisfy.
- `JournalNode.Node.calm` is the condition of a period in which no call throws or is cut off and what is mined succeeds; it is needed only for the claims that something completes.
- A send that is cut off before its hash is journalled is remembered by a history flag; the claims about withdrawals and live sends are made while it is down, and `EnsureWithdrawal` also after.
- A broadcaster is taken to return only a successful receipt of the hash it announced, and the node to answer a send with a hash not seen before.
- The remote checkpoints and authorities of the V4 batch worker, and the attestation requests of V6 and V7, are calls that may throw.
- The V5 workers, the single-intent V4 worker, the V5 lifecycle projection and the version-99 codec repeat patterns proved here.
- `ReceivingJobs` reads the pending nonce as one more way to throw, names a transaction by its signed content, and takes the request check as a given predicate.
- `ReceivingBudget` takes the cost transaction as one step, since its advisory lock is that of the only rows it reads, and the attempt lease as the condition `Leased`; that a lease can be lost between the last check and a commit is why the overlapping case is stated too.
- `Rewards` covers the V4 quote; the registration reimbursement of the V7 manifest is quoted elsewhere.
- `Lifecycle` keeps the recovery and terminal texts of a record as names, and leaves out its other fields, which an event does not touch.
- The reconcile loop, PoolV2 and PoolV3 legacy bundles, the approval helper, configuration readers and message builders have no property of this kind.
