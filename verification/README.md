# Verified model of the L1-to-L2 derivation path

Every node of the based rollup must derive the same L2 chain from L1. This project models the part
of the node that decides what that chain is, and proves properties of it:

- the derivation pipeline: windows of L1 logs, FIFO matching of posted entries against consumed
  events, the effective state root, gap filling, sorting and deduplication, cursor commit, reorg
  detection, rollback and pruning (`Derivation`, with `Contiguity`, `Provenance`,
  `Outcome`, `WindowIndependence`, `WindowConsumption`, `CursorRuns`, `AfterRollback`);
- the entry algebra: the builder's CALL/RESULT pairs, their L1 form, state-root chains over single
  calls and over trigger groups, and the fullnode's reconstruction (`EntryConversion`,
  `Continuation`, `StateDeltas`, `Consumption`);
- trigger-prefix filtering of speculative transactions (`TriggerFilter`), and its agreement with
  derivation (`Agreement`, `EndToEnd`);
- the hold-then-forward queue (`EntryQueues`), count-based call dedup (`CallDedup`), and the
  deterministic clock with the header rules that enforce it (`Timestamps`).

`dafny verify dfyconfig.toml` checks everything.

## Reading the model

Code that changes state step by step is a class or a method with loops (`DerivationPipeline`,
`EntryQueue`, the array writers, the loops of cross_chain.rs); each is proved equal to a
specification function, most of them stateless (an entry is accepted when fewer equal hashes were
posted before it than L1 consumed; a trigger is consumed by counting occurrences before it), and the
theorems are about those functions.

Modelling decisions:

- A hash is a constructor (`HashOf(action)`, `Syn(pre, post, rollup, j)`), so hashing is
  collision-free by construction.
- L1 is a value (`L1View`): decoded logs, consumed events and headers by number. A log whose
  transaction is missing or does not decode carries no batch, as the loop skips it; a missing header
  is the loop's error. Logs and events are filtered to the queried range.
- The counts and the list of consumed actions are both read off the same events: the counts by hash
  topic, the actions from the event data, with no relation between the two unless a theorem asks that
  L1 emits each event with the hash of its action (`HashesNameActions`). The actions are listed in log
  order; the source takes them from an unordered map, and `PairsIgnoreActionOrder` and
  `ContinuationsIgnoreActionOrder` show that the order is immaterial.
- A transaction's receipt is given by a function `receiptOf`, which says that re-executing a filtered
  block gives kept transactions the same receipts. Executing a block is an arbitrary function of its
  transactions.
- `u64` is bounded and its saturating and checked operations are written out; `next_id` wraps, as it
  does in a release build, and the queue theorems ask for fewer than 2^64 pushes. Ether values convert
  to 256-bit signed integers as the code does, with zero when they do not fit.

## What the proofs found

- **Repeated state roots.** Derivation's root fold and the trigger prefix agree for every consumed
  multiset if and only if the batch's roots are safe (`FoldAgreesIffRootsAreSafe`); pairwise distinct
  roots are (`DistinctRootsAgree`). A call that leaves the root unchanged can break this: with roots
  `a, a, b` and only the second call consumed, the fold reaches `b` while the prefix keeps no trigger
  (`RepeatedRootBreaksAgreement`).
- **Repeats inside one receipt.** The `> 0` test of prefix counting is exact for every consumed
  multiset if and only if the trigger's receipt repeats no hash (`CountingIsExactIffNoRepeats`); a
  receipt with one hash twice passes on a count of one (`RepeatInOneReceiptOvercounts`).
- **Fillers after a rollback.** A derivation leaves the L1 context of the last submission's parent
  block; a rollback restores that of the submission's own block. So a node that commits, rolls back
  and derives on gets the blocks of a node that never did if and only if the window leaves nothing to
  fill before its first new submission (`SettledRollbackIff`; in full, `DerivingAfterRollbackIff`), and
  `RollbackChangesAFiller` gives a window where the filler differs. `docs/DERIVATION.md` section 12,
  items 4 and 5, promise one context for every node; the model follows the code.
- **Cursor entries.** The source keeps its cursor entries consistent with the returned blocks by
  sorting and deduplicating both. As long as no submission is empty, that works for a number if and
  only if it was submitted before any larger one (`EntryMatchesBlockIff`), so always for increasing
  numbers (`IncreasingEntriesMatch`); otherwise the entry names a
  discarded submission while the block is a filler (`EntryOfDiscardedBlockIsReachable`).
- **Cut windows.** Cutting a window can change how many old cursor entries are stored, since the cap
  may fire at another time (`CapsAgreeIff` says when), but not what reorg detection reads
  (`CuttingKeepsReorgAnswers`).
- **Reorg check.** A "no reorg" answer vouches for every stored entry if and only if no entry lies
  above the last entry's L1 block (`NoReorgIsTrustworthyIff`); submissions with out-of-order L2 numbers
  reach a cursor for which it does not (`OutOfOrderCursorIsReachable`).
- **Current states.** Inside a group current states are pairwise distinct except in a revert group of
  two or more entries whose real roots are equal (`CurrentStatesDistinct`).
- **Clock corners.** The checked timestamp is `Some` exactly when the value fits unless the block time
  is 0 and the number is 2^64 - 1; the block-number inverse is the floor adjoint exactly from the first
  block's timestamp on.
- Where `docs/DERIVATION.md` section 4f describes type-specific counting over
  `CrossChainCallExecuted`, the code counts a single generic prefix over `ExecutionConsumed`; the model
  follows the code.

## Model

| member | source | states |
|---|---|---|
| EndToEnd.DerivedBlockExecutesToItsRoot | crates/based-rollup/src/derivation.rs:364-482 | Whatever a window's events are, the block that closes a builder's batch, as a derivation returns it, executes on a fullnode, after the prefix filter, to exactly the state root it carries |
| EndToEnd.DerivedBlockCarriesBuilderPairs | crates/based-rollup/src/derivation.rs:498-540 | The execution entries of a derived block are exactly the builder's own pairs for the calls that happened, deltas included, on the first and last block of the batch and nowhere else |
| EndToEnd.WindowIsBacked | crates/based-rollup/src/cross_chain.rs:2753-2770 | When L1 emits each event with the hash of its action, the counter any batch finds is backed by the actions its window collects |
| Agreement.DerivationAndFilterAgree | crates/based-rollup/src/cross_chain.rs:3413-3468 | The prefix count is the index of the first entry the FIFO loop rejects, the fold is the chain's root there, and the batch is flagged exactly when the prefix is short |
| Agreement.FilteredBlockHasEffectiveRoot | crates/based-rollup/src/cross_chain.rs:3372-3403 | Executing the filtered block yields derivation's effective root when builder roots come from prefix-filtered execution |
| Agreement.LinkedBatchAgreement | crates/based-rollup/src/derivation.rs:464-482 | The same agreement for any batch whose deferred entries form one chain of deltas |
| Agreement.FoldAgreesIffRootsAreSafe | crates/based-rollup/src/derivation.rs:464-482 | The fold names the root at the first rejection for every consumed multiset if and only if the roots are safe |
| Agreement.DistinctRootsAgree | crates/based-rollup/src/derivation.rs:454-482 | For pairwise distinct roots, prefix count, first rejection, folded root and flag agree whatever L1 consumed |
| Agreement.RepeatedRootBreaksAgreement | crates/based-rollup/src/derivation.rs:464-482 | With roots a, a, b and only the second call consumed the fold reaches b while no trigger is kept |
| Agreement.ConsumedGroupsReachTheirRoot | crates/based-rollup/src/cross_chain.rs:3482-3491 | When the first m trigger groups are consumed, exactly their entries are accepted, the fold passes the synthetic roots to land on roots[m], the trigger prefix counts m, and the batch is flagged exactly when a group is missing |
| Consumption.ConsumeEntries | crates/based-rollup/src/derivation.rs:350-398 | The counter-decrementing loop accepts exactly the entries with fewer equal predecessors than consumptions, and returns final root, flag and drained counters |
| Consumption.EffectiveRoot | crates/based-rollup/src/derivation.rs:454-482 | The nested loops compute the root fold, skipping revert hashes |
| Consumption.RevertBatchKeepsFinalRoot | crates/based-rollup/src/derivation.rs:446-475 | A revert batch never moves the root past its immediate entry's |
| Consumption.FoldIsTrace | crates/based-rollup/src/derivation.rs:464-482 | The fold passes through one root after each delta that is not skipped: a delta of our rollup that starts at the root so far moves it to its end, no other does |
| Consumption.FinalRootIs | crates/based-rollup/src/derivation.rs:362-369 | The final root is the one the last immediate entry with a delta names, or zero |
| Consumption.FifoConservation | crates/based-rollup/src/derivation.rs:270-275 | Of each hash the first min(posted, consumed) are accepted; accepted plus remaining is consumed |
| Consumption.FlaggedIffSomeMissing | crates/based-rollup/src/derivation.rs:356-398 | A batch is flagged exactly when it accepted fewer entries than it deferred |
| WindowConsumption.WindowConservation | crates/based-rollup/src/derivation.rs:224-275 | Over all batches of a window, against the chain's own events in the L1 blocks after the last processed one, at most 2000 of them: first min(posted, consumed) accepted, accepted plus remaining is consumed |
| WindowConsumption.LogsDrainCounter | crates/based-rollup/src/derivation.rs:270-398 | The shared counter at any point is the window's counts drained by everything posted so far |
| WindowConsumption.WindowHoldsEvents | crates/based-rollup/src/derivation.rs:250-256 | A window holds each event of its range, both ends included, exactly as often as L1 emitted it |
| WindowConsumption.EventsInAppend | crates/based-rollup/src/derivation.rs:250-258 | And in order: cutting the chain's events anywhere cuts the window's |
| WindowConsumption.WindowHoldsLogs | crates/based-rollup/src/derivation.rs:234-240 | So with the posted batches: each of the range, both ends included, as often as posted |
| WindowConsumption.LogsInAppend | crates/based-rollup/src/derivation.rs:234-240 | And in order |
| WindowConsumption.WindowReads | crates/based-rollup/src/derivation.rs:224-262 | A window runs from the block after the last processed one over at most 2000 blocks, and starts from the consumption counts of those blocks, or from none without a contract address |
| EntryConversion.AttachChainedStateDeltas | crates/based-rollup/src/cross_chain.rs:2696-2729 | In place, pair i's CALL entry gets the delta roots[i] to roots[i+1] with the call's value; all else is unchanged |
| EntryConversion.PostedEntryAt | crates/based-rollup/src/cross_chain.rs:1890-1945 | Posted entry i, field by field: the hash of call i's CALL action, its RESULT action with return data and failed flag, its link and its deposit |
| EntryConversion.ConvertL1EntriesToL2Pairs | crates/based-rollup/src/cross_chain.rs:2339-2420 | The index-map loop computes the stateless pairing, skips and pass-throughs included |
| EntryConversion.ConversionHolds | crates/based-rollup/src/cross_chain.rs:2362-2417 | The conversion entry by entry: what each becomes, with and without continuations, skipped, paired or passed on |
| EntryConversion.RoundTrip | crates/based-rollup/src/cross_chain.rs:2330-2338 | For any consumed multiset, converting the accepted posted entries back gives exactly the builder's pairs for them |
| EntryConversion.RoundTripOfPrefix | crates/based-rollup/src/cross_chain.rs:2330-2420 | If the first m calls were consumed, reported in any order, the result is the builder's first 2m entries |
| EntryConversion.PairsIgnoreActionOrder | crates/based-rollup/src/derivation.rs:502-506 | Permuting the consumed actions changes no pair |
| Continuation.ReconstructContinuationL2Entries | crates/based-rollup/src/cross_chain.rs:2445-2685 | The loop with hash maps and occurrence indices computes the lookup-by-lookup specification |
| Continuation.ContinuationHolds | crates/based-rollup/src/cross_chain.rs:2528-2681 | The three entries of each continuation, field by field: the consumed call and the first lookup's data in the first two, the second lookup's data in the third; each lookup answered by the RESULT entry of its hash that is its turn, or by nothing |
| Continuation.ThreePerContinuation | crates/based-rollup/src/cross_chain.rs:2492-2526 | Three entries per continuation whose call was consumed; none in a revert batch |
| Continuation.NoResultServesTwice | crates/based-rollup/src/cross_chain.rs:2554-2608 | The j-th successful lookup of a hash takes its j-th RESULT entry, and no RESULT entry supplies two lookups |
| Continuation.ContinuationsIgnoreActionOrder | crates/based-rollup/src/cross_chain.rs:2451-2462 | Permuting the consumed actions changes no continuation entry |
| Continuation.PartitionEntries | crates/based-rollup/src/cross_chain.rs:3198-3221 | Splits entries, in order, into those whose hash is that of their own call to us and the rest |
| Continuation.PartitionSplits | crates/based-rollup/src/cross_chain.rs:3203-3219 | Partitioning keeps the order and loses nothing, and an entry triggers exactly when it is a CALL to us under its own hash |
| Continuation.ContinuationsAreTableEntries | crates/based-rollup/src/cross_chain.rs:3205-3214 | No reconstructed continuation entry is ever classified as a trigger |
| Continuation.BuilderCallsTrigger | crates/based-rollup/src/cross_chain.rs:3205-3219 | Of the builder's entries exactly the CALLs aimed at our rollup trigger |
| StateDeltas.AttachGenericStateDeltas | crates/based-rollup/src/cross_chain.rs:3492-3582 | In place, every group with roots available gets its chain of links; groups past the roots are left alone |
| StateDeltas.GroupBoundaries | crates/based-rollup/src/cross_chain.rs:3529-3560 | Group k enters at roots[k] and leaves at roots[k+1], revert groups included |
| StateDeltas.LinksAre | crates/based-rollup/src/cross_chain.rs:3522-3560 | Each link of a group, spelled out, synthetic roots and the revert group's last links included |
| StateDeltas.RootedAreLinked | crates/based-rollup/src/cross_chain.rs:3508-3518 | With fewer roots than groups, the groups that have both their roots are linked as in the full batch |
| StateDeltas.UnrootedStay | crates/based-rollup/src/cross_chain.rs:3508-3518 | And the entries of the others are left alone |
| StateDeltas.ChainIsUnbroken | crates/based-rollup/src/cross_chain.rs:3475-3480 | Every entry starts in the state its predecessor ended in, across group boundaries |
| StateDeltas.ChainEnds | crates/based-rollup/src/cross_chain.rs:3470-3480 | The whole chain runs from the first root to the last |
| StateDeltas.CurrentStatesDistinct | crates/based-rollup/src/cross_chain.rs:3482-3485 | Current states inside a group are pairwise distinct, with the exact exception |
| StateDeltas.AttachedPreserves | crates/based-rollup/src/cross_chain.rs:3567-3579 | Hash, action and ether delta of every entry survive attaching |
| StateDeltas.GroupEtherIsMinusValue | crates/based-rollup/src/cross_chain.rs:2164-2254 | The entries of one L2-to-L1 call account for exactly minus its value, in both outcomes, if and only if the value is below 2^255 |
| StateDeltas.WithdrawalFields | crates/based-rollup/src/cross_chain.rs:2065-2246 | What an L2-to-L1 call posts, field by field, in both outcomes |
| TriggerFilter.IdentifyTriggerTxIndices | crates/based-rollup/src/cross_chain.rs:3348-3365 | Scans receipts for consumed events of the manager |
| TriggerFilter.TriggerIndicesAreSorted | crates/based-rollup/src/cross_chain.rs:3342-3347 | Indices are strictly increasing and exactly the trigger transactions |
| TriggerFilter.LogContributes | crates/based-rollup/src/cross_chain.rs:3355-3360 | What one log adds: nothing from another contract or under another signature, otherwise a trigger, and a consumed hash only with a second topic |
| TriggerFilter.ComputeConsumedTriggerPrefix | crates/based-rollup/src/cross_chain.rs:3413-3468 | The mutating walk returns the stateless prefix and leaves the counters charged for exactly it, saturating at zero |
| TriggerFilter.PrefixIsGreatest | crates/based-rollup/src/cross_chain.rs:3405-3412 | The count is the greatest prefix of triggers each with a hash and with more consumptions than earlier occurrences |
| TriggerFilter.PrefixIsMonotone | crates/based-rollup/src/cross_chain.rs:712-714 | More consumption never shortens the prefix |
| TriggerFilter.HashlessTriggerStops | crates/based-rollup/src/cross_chain.rs:3422-3443 | Counting stops at a listed trigger without a receipt or whose receipt names no hash |
| TriggerFilter.CountingIsExactIffNoRepeats | crates/based-rollup/src/cross_chain.rs:3446-3462 | The availability test equals full payment for every consumed multiset if and only if the receipt repeats no hash |
| TriggerFilter.RepeatInOneReceiptOvercounts | crates/based-rollup/src/cross_chain.rs:3446-3462 | A receipt with one hash twice counts as consumed on a single consumption of it |
| TriggerFilter.FilterKeeps | crates/based-rollup/src/cross_chain.rs:3372-3403 | Removing the index set keeps every non-trigger and exactly the triggers with fewer than keep predecessors |
| TriggerFilter.FilterOutcome | crates/based-rollup/src/cross_chain.rs:3372-3403 | Filtering fails exactly on undecodable bytes, keeps no bytes as they are, and drops from a list exactly the transactions listed past the first keep triggers |
| TriggerFilter.KeptTriggersStayPut | crates/based-rollup/src/cross_chain.rs:3367-3371 | The kept triggers are the first keep, each at its old index |
| TriggerFilter.FilterKeepsNonTriggers | crates/based-rollup/src/cross_chain.rs:3367-3403 | Filtering leaves the transactions that trigger nothing untouched, in order |
| TriggerFilter.FilteringIsAFixpoint | crates/based-rollup/src/cross_chain.rs:3348-3468 | Identify, count and filter again gives the same count, counters and block, non-triggers all still there |
| Derivation.DerivationPipeline.DeriveNextBatch | crates/based-rollup/src/derivation.rs:208-779 | The window loops compute the specified batch or error and leave the pipeline unchanged |
| Derivation.DerivationPipeline.DeriveLog | crates/based-rollup/src/derivation.rs:277-713 | One log: consumption, effective root, entry reconstruction, header lookup, blocks, execution cursor |
| Derivation.DerivationPipeline.DeriveBlocks | crates/based-rollup/src/derivation.rs:556-707 | One batch: stale test, checked timestamp, gap limit and fill, block and cursor entry |
| Derivation.DerivationPipeline.CommitBatch | crates/based-rollup/src/derivation.rs:790-805 | Takes over the four cursors and appends the entries, keeping the latest 64 beyond 128 |
| Derivation.DerivationPipeline.DetectReorg | crates/based-rollup/src/derivation.rs:828-884 | The backward loop returns the specified fork point, silence or error |
| Derivation.DerivationPipeline.RollbackTo | crates/based-rollup/src/derivation.rs:890-927 | The whole new state and the returned head |
| Derivation.DerivationPipeline.PruneFinalized | crates/based-rollup/src/derivation.rs:930-933 | Drops exactly the entries at or below the finalized block |
| Derivation.DerivationPipeline.FetchWindowForBuilder | crates/based-rollup/src/derivation.rs:954-994 | The builder's next window starts right after the further of two cursors, spans at most 2000 blocks, and moves its cursor to the end |
| Outcome.DerivesIff | crates/based-rollup/src/derivation.rs:542-617 | A derivation succeeds exactly when every L1 block with a posted batch has a header and no submission it takes jumps more than 1000 ahead; it takes the submitted numbers past the head whose timestamp fits, in order |
| Outcome.FailsBecause | crates/based-rollup/src/derivation.rs:547-617 | Otherwise its error names such a block, or such a submission and the number expected there |
| Outcome.SubmissionFields | crates/based-rollup/src/derivation.rs:542-706 | A returned block submitted before any larger number has a submission's number and transactions, the context of the parent of its L1 block, and is empty exactly when its payload is; roots only at the end of a batch, entries and filtering only at both ends |
| Outcome.SubmissionOutcome | crates/based-rollup/src/derivation.rs:400-540 | If an entry of the batch, or of a table some block of it loads, is part of a revert: no filtering, the immediate entry's root, the accepted entries unchanged. Otherwise: filtering exactly when an entry was rejected, the folded root, the converted entries |
| Outcome.FillerFields | crates/based-rollup/src/derivation.rs:619-650 | Every other returned block is empty, without root, entries or filtering, in the context of the submission before the first larger number, or in the starting one |
| Outcome.CursorsMove | crates/based-rollup/src/derivation.rs:715-719 | The processed block moves to the window's end, the execution cursor to the maximum of its old value and the L1 blocks of the posted batches |
| Outcome.ContextMoves | crates/based-rollup/src/derivation.rs:705-713 | The context becomes that of the last submission taken, and every new cursor entry records a submission's number, L1 block and hash |
| Outcome.NothingToDerive | crates/based-rollup/src/derivation.rs:213-226 | With no new L1 block nothing changes |
| StableOrder.SortDedupKeepsFirst | crates/based-rollup/src/derivation.rs:716-731 | Stable sort then dedup leaves strictly increasing keys, each with the first element pushed for it |
| Contiguity.DerivedBlocksAreContiguous | crates/based-rollup/src/derivation.rs:556-757 | Success returns exactly the next consecutive blocks up to the new head, each first pushed and on the exact clock, for any logs |
| Contiguity.DerivedCursorEntries | crates/based-rollup/src/derivation.rs:697-748 | New cursor entries are strictly increasing between the two heads; the execution cursor stays within the window (their blocks: `EntryMatchesBlockIff`) |
| Contiguity.GapFillIsComplete | crates/based-rollup/src/derivation.rs:619-649 | Gap filling below a block whose timestamp fits never breaks off |
| Provenance.EveryBlockComesFromL1 | crates/based-rollup/src/derivation.rs:542-695 | The order in which numbers were submitted fixes every returned block: the submission of its number, in the context, with the root, entries and filtering data that follow from L1, or, if a larger number came first, a filler in the context of the submission before that one |
| Provenance.EntryMatchesBlockIff | crates/based-rollup/src/derivation.rs:716-750 | A new cursor entry is that of the returned block of its number if its number arrived before any larger one, and otherwise names a discarded submission; exact when no submission is empty |
| Provenance.IncreasingEntriesMatch | crates/based-rollup/src/derivation.rs:747-750 | With increasing submitted numbers every new cursor entry is that of its block |
| WindowIndependence.CuttingAWindowChangesNothing | crates/based-rollup/src/derivation.rs:224-231 | With increasing submitted numbers, one window succeeds exactly when two with a commit between do, with the same blocks, cursor entries and cursors |
| WindowIndependence.CuttingKeepsReorgAnswers | crates/based-rollup/src/derivation.rs:828-884 | After one commit and after two, reorg detection reads the same stored entries and gives the same answer, on every L1 |
| WindowIndependence.CapsAgreeIff | crates/based-rollup/src/derivation.rs:798-804 | Capping once and capping twice leave the same cursor exactly when the first commit stays within the cap, or the second adds nothing or more than the cap keeps |
| CursorRuns.RunsAreSound | crates/based-rollup/src/derivation.rs:790-933 | In every reachable state the cursor is strictly increasing, bounded by the head, by the processed L1 block and by 128 entries, and execution never leads processing |
| CursorRuns.KeptMembers | crates/based-rollup/src/derivation.rs:890-933 | Rolling back keeps exactly the entries at or below the block, pruning exactly those above |
| CursorRuns.NewEntriesAreNew | crates/based-rollup/src/derivation.rs:224-231 | New cursor entries name L1 blocks past the processed one and within the window |
| CursorRuns.RollbackComposes | crates/based-rollup/src/derivation.rs:890-900 | Each execution cursor becomes the minimum of its old value and the block, never more, and two rollbacks are one |
| CursorRuns.ReorgPointIs | crates/based-rollup/src/derivation.rs:828-884 | What reorg detection answers: the newest of the last 64 entries not shown to be orphaned decides between no reorg, its block and a missing header; the deployment block if all are |
| CursorRuns.RollbackLeavesOnlyCanonical | crates/based-rollup/src/derivation.rs:852-891 | After detection and rollback every retained entry is canonical |
| CursorRuns.RollbackIsMinimal | crates/based-rollup/src/derivation.rs:862-891 | With ordered L1 numbers and a canonical entry in reach, an entry is retained exactly when it is canonical |
| CursorRuns.NoReorgIsTrustworthyIff | crates/based-rollup/src/derivation.rs:837-852 | Silence vouches for all entries, on every L1, if and only if the last entry has the highest L1 block |
| CursorRuns.OutOfOrderCursorIsReachable | crates/based-rollup/src/derivation.rs:716-748 | One derivation of out-of-order submissions reaches a cursor violating that condition |
| CursorRuns.EntryOfDiscardedBlockIsReachable | crates/based-rollup/src/derivation.rs:716-750 | The same derivation leaves an entry for block 1 whose submission was discarded: the block is a filler in the deployment context |
| AfterRollback.SameBlocksIff | crates/based-rollup/src/derivation.rs:598-650 | Two states at the same L1 block derive the same blocks exactly when there are none, or heads agree and either contexts agree or the first new submission leaves nothing to fill |
| AfterRollback.UndoneCursor | crates/based-rollup/src/derivation.rs:890-900 | Rolling a commit back restores the cursor, but for what the cap dropped, and the processed block |
| AfterRollback.DerivingAfterRollbackIff | crates/based-rollup/src/derivation.rs:890-919 | After a commit is rolled back, any window gives the blocks of a node that never committed it exactly under that condition |
| AfterRollback.CommitSettles | crates/based-rollup/src/derivation.rs:652-714 | After committing an increasing window the last cursor entry is the head's and the context is the parent of its L1 block |
| AfterRollback.SettledRollbackIff | crates/based-rollup/src/derivation.rs:909-919 | From there, the rolled back node derives the same windows, and the same blocks exactly when there are none or the first new submission is the next number |
| AfterRollback.RollbackChangesAFiller | crates/based-rollup/src/derivation.rs:909-919 | A rollback that drops nothing changes the context of the next filler |
| EntryQueues.EntryQueue.Push | crates/based-rollup/src/entry_queue.rs:117-124 | Hands out the next identifier as Pending; the counter wraps |
| EntryQueues.EntryQueue.DrainPending | crates/based-rollup/src/entry_queue.rs:159-172 | Returns the specified receipts and moves exactly those to Reserved |
| EntryQueues.EntryQueue.Confirm | crates/based-rollup/src/entry_queue.rs:178-190 | Moves exactly the listed Reserved receipts to Confirmed |
| EntryQueues.EntryQueue.Rollback | crates/based-rollup/src/entry_queue.rs:197-206 | Moves exactly the listed Reserved receipts to Pending |
| EntryQueues.EntryQueue.Remove | crates/based-rollup/src/entry_queue.rs:214-220 | Forgets exactly one receipt |
| EntryQueues.EntryQueue.WaitConfirmationPass | crates/based-rollup/src/entry_queue.rs:131-148 | One locked pass: granted, keep waiting, or evicted |
| EntryQueues.DrainTakesTheOldest | crates/based-rollup/src/entry_queue.rs:159-172 | Draining takes the min(max, pending) oldest pending receipts in increasing order |
| EntryQueues.DrainThenRollbackRestores | crates/based-rollup/src/entry_queue.rs:192-206 | Rolling back exactly what was drained restores the queue |
| EntryQueues.PermitIffDrainedThenConfirmed | crates/based-rollup/src/entry_queue.rs:44-57 | Over every interleaving, a permit is granted exactly for a receipt drained, confirmed with nothing between, and not removed since |
| EntryQueues.QueuedIffPushed | crates/based-rollup/src/entry_queue.rs:117-124 | Over every interleaving a receipt is queued exactly when the push that hands it out has happened and nothing has removed it since |
| EntryQueues.PendingIff | crates/based-rollup/src/entry_queue.rs:57-75 | It is Pending exactly when queued and neither held nor permitted, and a waiter is evicted exactly when it is not queued |
| EntryQueues.ReservedIffHeld | crates/based-rollup/src/entry_queue.rs:66-75 | Reserved exactly when drained and not confirmed, rolled back or removed since |
| EntryQueues.NoDoubleDrain | crates/based-rollup/src/entry_queue.rs:154-172 | Two drains of a receipt are separated by a rollback of it |
| EntryQueues.RemovedNeverReturns | crates/based-rollup/src/entry_queue.rs:208-220 | A removed receipt is evicted for ever |
| CallDedup.FilterNewByCount | crates/based-rollup/src/cross_chain.rs:1529-1548 | For any `eq`, the used-flags loop gives each new item the first unused match, or keeps it |
| CallDedup.ScanKeepsSurplus | crates/based-rollup/src/cross_chain.rs:1523-1528 | When `eq` compares an identity, exactly the items beyond the existing count of their identity survive |
| CallDedup.SurplusIsSubtraction | crates/based-rollup/src/cross_chain.rs:1523-1528 | Per identity, survivors number new minus existing |
| CallDedup.SurplusIsSubsequence | crates/based-rollup/src/cross_chain.rs:1536-1547 | Survivors keep their order |
| CallDedup.MergeTakesLargerCount | crates/based-rollup/src/cross_chain.rs:1516-1528 | Merging gives the pointwise maximum of counts |
| CallDedup.KnownCallsAddNothing | crates/based-rollup/src/cross_chain.rs:1518-1521 | A pass keeps nothing exactly when all calls are known, so re-detection adds nothing |
| Timestamps.SaturatingTimestampIsCapped | crates/based-rollup/src/config.rs:450-456 | The saturating form is the exact value capped at 2^64 - 1 |
| Timestamps.CheckedTimestampIsExact | crates/based-rollup/src/config.rs:460-464 | The checked form is exact, and Some exactly when it fits, with the one corner |
| Timestamps.NumberFromTimestampInverts | crates/based-rollup/src/config.rs:466-478 | The block number of a block's own timestamp is that block |
| Timestamps.NumberFromTimestampIsFloor | crates/based-rollup/src/config.rs:473-478 | It is the floor adjoint of the clock exactly from the first block's timestamp on |
| Timestamps.AcceptedChainIsTheClock | crates/based-rollup/src/consensus.rs:54-89 | A header chain is accepted link by link exactly when it is hash-linked, counts by one, and follows the formula |
| Timestamps.AcceptedChainSteps | crates/based-rollup/src/consensus.rs:54-89 | Accepted headers are one block time apart |
| Timestamps.RefusedBecause | crates/based-rollup/src/consensus.rs:54-89 | What a header is refused for, and in which order the checks come |

## Left out

- Driver, proposer, composer RPC and table builder: their sources are not part of this model; `EndToEnd.ExecutedBlock` follows the description at crates/based-rollup/src/derivation.rs:60-87 for a node without a signer.
- EntryQueues.EntryQueue.WaitConfirmationPass: models the decision of one pass under the lock, not parking and waking between passes.
- WindowIndependence.CuttingAWindowChangesNothing: covers blocks without entries, roots and filtering data, which depend on which consumed events fall into the window, and cursor entries as derived; for the stored cursor see `CuttingKeepsReorgAnswers`.
- TriggerFilter.FilteringIsAFixpoint: takes kept transactions to produce the same receipts when re-executed.
- ABI, RLP, keccak, signing, bytecode loading, RPC and database access, checkpoints, cursor rebuild from headers, logging.
- Undecodable `ExecutionConsumed` events and their placeholders: all events are taken to decode.
- Header checks other than number, parent and timestamp (difficulty, nonce, extra data, gas).
- `is_simulation_artifact`, `has_duplicate_calls`, `execution_planner.rs`, newtype wrappers, config validation: no property proved here involves them.
- L1 contract scope navigation: only the consumption rule visible in the Rust code is used.
- The L2 table entries of an L2-to-L1 call and the parsing of entries the builder fetches: no property spans them.
