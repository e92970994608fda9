# Nox Indexer: a verified model of its sync, counters, seed cache and settlements

The indexer keeps a local copy of on-chain membership, lifetime counters and settlements,
over unreliable RPC endpoints, crashes and self-reported numbers. This project models the
parts where that is hard and proves what they keep over whole runs.

Block ranges are half open: a checkpoint at block c is `next == c + 1`. What the network,
the clock, the database and random numbers may do is a parameter (`Rpc.World`,
`Discovery.SyncEnv`, `SettlementRun.Life`) that every theorem ranges over. Code that updates
fields is a class, a loop stays a loop, and each method is proved against a function or
predicate whose own properties are proved beside it.

| file | content |
|---|---|
| `Registry.dfy` | membership as a replay of events; resuming, the live loop, reconciliation, crash runs |
| `Fingerprint.dfy` | XOR fingerprint and the membership check |
| `Retry.dfy` | backoff, the bounded retry loop, adaptive range size |
| `ErrorText.dfy` | classifying error texts and joined failover summaries |
| `Rpc.dfy` | sticky failover, the head check, the chunk fetch: completeness, liveness, termination |
| `Discovery.dfy` | plans, checks, the live loop and the endless supervisor |
| `Offsets.dfy`, `Subscriber.dfy` | token bucket, restart banking, crash runs, flushing, network totals |
| `SeedCache.dfy` | stale-while-revalidate as a step system; age while idle |
| `Settlement.dfy`, `SettlementRun.dfy`, `SettlementTotals.dfy` | exactly-once rows over many lives; totals |

## Main results

- **Membership.** A resumed replay equals the full replay if and only if the stored set is
  right wherever the replayed events do not decide (`Registry.ResumeIsFullReplay`). Whatever
  the supervisor did until it is shut down, through failed requests and writes, lagging
  checkpoints, kept progress and retries, the next process ends in the full replay
  (`Discovery.RegistrySync.RunChainSync`) if the environment was calm (`Discovery.Calm`): no live
  event was dropped and every profile was read at or after each safe head reported so far, for
  which reading at a latest block that does not fall is enough
  (`Discovery.SteadyReadsAreCalm`). Writes may fail at any time; the one failure excepted is a
  reconciliation that pruned below the checkpoint and failed before moving it
  (`Discovery.PrunedBelow`, an entry of the history), which needs a safe head that fell
  (`Discovery.BelowOnlyWhenHeadsFell`). What each exception costs is characterised exactly in
  `Registry`. Each method's writes are steps of `Registry.EveryRunCanResume`, which adds deaths
  inside a chunk and any number of processes.
- **Supervisor.** Every history is disciplined and rebuilds flag, served set, block, checkpoint and
  stored set (`Discovery.ShownBy`): what is reconciled or rejected is the last plan's starting set
  folded over exactly its blocks; every verdict is a comparison of a named set with a reading of the
  registry, a live one of the set served just then. A replay is forced exactly when the live loop
  drifted: at once after the second failed check, ten minutes or more after the last one
  (`Discovery.DriftForcesAFullReplay`, `Discovery.ForcedOnlyAfterTwoFailedChecks`). A checkpoint is
  resumed whenever nothing has spoken against it (`Discovery.CheckpointsAreResumed`). After two
  rejected full replays the next is served, unverified. With a working network and database and a
  truthful registry a single sync attempt ends verified, whatever was stored; and on a working
  network the live loop follows the head and lets no check become overdue.
- **Fetching.** An accepted chunk is complete; one caught-up endpoint and at most seven lagging
  ones make a fetch succeed, whatever limit on the range they have, named or not; free retries are
  bounded by the sizes.
- **Counters.** A node's reports are taken unchanged exactly when their growth was earned: by
  allowance left and refills, over any restarts (`Offsets.TakenAsReportedExactly`). Growth between
  any two readings is bounded by time at the rate ceiling plus one minute, whatever is reported;
  and no saved row a crashed indexer resumes from makes a node counted twice.
- **Settlements.** Over any number of lives, with failures at any write and other contracts in
  any life, the rows of each checkpointed source are exactly the rows of its logs, each once, and
  the served totals are theirs plus the rows a half-stored chunk left above the checkpoint; the
  checkpoint is at or past every safe head a poll of the last life succeeded with.

## Where the code does less than it or its comments say

- The live loop is not a plain replay: a chunk with dropped events or profiles read too early that
  is passed drifts, exactly as `Registry.DriftsExactly` says, until a membership check fails
  (`Registry.LostEventDriftsExactly`, `Registry.StaleReadDrifts`).
- A forced full replay to a head below the checkpoint that stops between pruning and checkpointing
  can leave a stored set that later resumes get wrong (`Registry.PruningBelowTheCheckpointDrifts`),
  exactly as `Registry.PruningBelowTheCheckpointExactly` says.
- After one forced replay, or one rejected full replay, the process never resumes a checkpoint again,
  although it reconciled since: `force_full` is not reset (`Discovery.CheckpointsAreResumed`).
- The comment at `src/chain/rpc.rs:105-106` says one task fetches logs, but the settlement task
  fetches too (`src/main.rs:95-101`). One fetching task is an assumption of `Rpc`, and with two
  tasks `size <= ceiling` fails (`Retry.TwoTasksCanPassTheCeiling`) and a cut chunk can pass the
  head check (`Rpc.TwoTasksCanAcceptACutChunk`).
- A lagging endpoint's error is classified as transient exactly when neither block number in it
  contains "429" (`ErrorText.LagIsTransientExactly`).
- The comment of `seed_warm_loop` says it keeps the copy under five minutes. The configuration
  allows intervals that do not (`SeedCache.AllowedIntervalsCanBreakIt`); the exact condition on
  interval, longest check and failures in a row is `SeedCache.IdleCopyStaysServableExactly`.
- A settlement start block raised above the checkpoint leaves a gap
  (`SettlementRun.RaisedStartLeavesGapExactly`, `SettlementRun.RaisedStartLosesALog`).
- The served settlement totals are read without block bounds, so they include the rows that a chunk
  left above the checkpoint when it failed half way (`SettlementTotals.ServedTotalsAreTheChains`).

## Model

| member | source | states |
|---|---|---|
| Registry.LastEventWins | src/chain/mod.rs:136-144 | membership after a replay is what the last membership event about the address says, and the old membership if there is none |
| Registry.ResumeIsFullReplay | src/chain/discovery.rs:267-346 | replaying from the checkpoint gives the full replay's set if and only if the stored set is right on every address the replayed events leave alone |
| Registry.GoodExtends | src/chain/discovery.rs:267-290 | a stored set that can be resumed up to some block can be resumed up to any later block |
| Registry.GoodEarlier | src/chain/discovery.rs:267-290 | a stored set that can be resumed from a block can be resumed from any earlier block, so a checkpoint may lag what was followed |
| Registry.ReplayKeepsGood | src/chain/discovery.rs:314-346 | a resumed replay that stopped short of the horizon still holds a set that can be resumed |
| Registry.InterruptedChunkStaysGood | src/chain/discovery.rs:477-508 | stopping the live loop after any part of a chunk, with any events dropped, keeps the old checkpoint resumable |
| Registry.HandledAddress | src/chain/discovery.rs:548-619 | when every event about an address was handled with its profile as at the chunk's end, its membership is right after the chunk |
| Registry.CommittedChunkIsGood | src/chain/discovery.rs:484-498 | a chunk handled without a dropped event may be checkpointed although profiles are read at the latest block |
| Registry.LiveEventWins | src/chain/discovery.rs:548-619 | after the live loop handled a chunk, the last event about an address that took effect decides its membership |
| Registry.DriftsExactly | src/chain/discovery.rs:484-508 | for any stored set, any chunk and any handling, with events dropped and profiles read at any blocks, a later resume is the full replay if and only if every address the later events leave alone was decided as its last membership event says |
| Registry.LostEventDriftsExactly | src/chain/discovery.rs:588-619 | so checkpointing past one lost event corrupts a later resume exactly when the event mattered and no later event decides the address |
| Registry.StaleReadDrifts | src/chain/discovery.rs:588-619 | and a witness that a profile read a block too early does |
| Registry.ReconciledIsGood | src/chain/discovery.rs:354-442 | a checkpointed reconciliation is resumable wherever the old checkpoint stood, even when what it was handed was only resumable itself |
| Registry.InterruptedReconciliationStaysGood | src/chain/discovery.rs:399-424 | with profiles no older than the checkpoint, a reconciliation stopped while upserting keeps the old checkpoint resumable at whatever block, and one stopped after pruning does if it replayed past it |
| Registry.PruningBelowTheCheckpointExactly | src/chain/discovery.rs:407-424 | stopping after pruning below the checkpoint is harmless if and only if every member that joined in between has a later membership event |
| Registry.UpsertingBelowTheCheckpointExactly | src/chain/discovery.rs:399-404 | stopping while upserting is harmless, whatever was upserted, if and only if every upserted address no later event decides is a member at the checkpoint |
| Registry.PruningBelowTheCheckpointDrifts | src/chain/discovery.rs:407-424 | a witness that a replay below the checkpoint, stopped after pruning, breaks every later resume |
| Registry.StepKeepsStoreGood | src/chain/discovery.rs:101-508 | deaths, plans, chunks with or without a checkpoint write, parts of chunks, and complete or stopped reconciliations keep the store resumable |
| Registry.GoodStoreResumes | src/chain/discovery.rs:267-346 | a process that starts on a good store, resuming or not, and replays past the horizon holds the full replay |
| Registry.EveryRunCanResume | src/chain/discovery.rs:101-508 | so it does after any run of such steps, from a store with or without a checkpoint, however far resumed replays got |
| Fingerprint.XorAlgebra | src/chain/mod.rs:598-601 | XOR of digests is commutative, associative, self-inverse and zero only on equal digests |
| Fingerprint.OrderIndependent | src/chain/mod.rs:591-602 | any list of a set's members has the same fingerprint and the set's size |
| Fingerprint.FingerprintOfDifference | src/chain/mod.rs:591-602 | two sets' fingerprints XOR to the fingerprint of their symmetric difference |
| Fingerprint.ValidatePinnedMembership | src/chain/mod.rs:585-613 | accepts exactly duplicate-free lists with the expected count and fingerprint; names the first duplicate; count is checked before fingerprint |
| Fingerprint.XorInto | src/chain/mod.rs:598-601 | the byte loop XORs the digest into the accumulator in place |
| Fingerprint.VerifyMembership | src/chain/mod.rs:500-508 | a set passes exactly with the reported count and fingerprint, in whatever order it is listed |
| Fingerprint.PassesExactly | src/chain/mod.rs:585-613 | against a registry's own values a set passes if and only if sizes agree and the differing hashes cancel |
| Fingerprint.OneOffNeverPasses | src/chain/mod.rs:603-608 | one missing or one extra member is always rejected |
| Fingerprint.OneSwapPassesOnlyOnCollision | src/chain/mod.rs:609-611 | one swapped member passes exactly when the two hashes collide |
| Retry.DelayWithinWindow | src/chain/retry.rs:96-107 | for every entropy the delay lies in the upper half of min(cap, base * 2^(attempt-1)), from attempt 21 on of that attempt's window |
| Retry.TotalDelayWithin | src/chain/mod.rs:160-190 | the sleep before giving up after n attempts is at most (n-1) * cap and, up to n = 22, base * (2^(n-1) - 1) |
| Retry.RetryRpcAttempts | src/chain/mod.rs:160-190 | returns the first success, the error of the last allowed attempt, or stops at a cancelled sleep; sleeps the backoff delays of the failed attempts, within the bounds |
| Retry.AdaptiveChunk.constructor | src/chain/retry.rs:149-158 | any configured sizes give 1 <= min <= size <= ceiling |
| Retry.AdaptiveChunk.OnSuccess | src/chain/retry.rs:164-170 | the new state on values; the streak keeps counting at the ceiling |
| Retry.AdaptiveChunk.OnRangeError | src/chain/retry.rs:178-190 | the new state on values; a span at the floor changes only the streak |
| Retry.AdaptiveChunk.OnRateLimited | src/chain/retry.rs:192-195 | the new state on values |
| Retry.OneTaskKeepsOrder | src/chain/retry.rs:148-196 | with one task, min <= size <= ceiling in every run and the ceiling never rises |
| Retry.LearnedLimitHolds | src/chain/retry.rs:135-139 | after a usable limit was named, no run asks for more again |
| Retry.RangeErrorKeepsOrderExactly | src/chain/retry.rs:178-190 | a range error for any span keeps size <= ceiling exactly when the span is at the floor or its next size is within the floor or the ceiling as it stands |
| Retry.SuccessesDouble | src/chain/retry.rs:164-170 | after n successes in a row the size is exactly its double for every second one, up to the ceiling |
| Retry.RateLimitsHalve | src/chain/retry.rs:192-195 | after n rate limits the size is exactly its n-fold half, down to the floor, and the ceiling is as it was |
| Retry.RangeErrorsSettleNearTheLimit | src/chain/retry.rs:178-190 | against a provider that names no limit the size settles within the limit, gives up less than half of it, and becomes the ceiling |
| Retry.SharedRunsStayBounded | src/chain/mod.rs:272-316 | with any number of tasks, size stays between min and the configured maximum and the ceiling never rises |
| Retry.TwoTasksCanPassTheCeiling | src/chain/mod.rs:284-313 | two tasks reach size 25000 over ceiling 10000 |
| ErrorText.AdvertisedLimitIsRead | src/chain/retry.rs:53-91 | any limit up to 2^64 - 1 printed after any known prefix, no earlier prefix being present, is the hint of a message classified as a range error; with the first three prefixes it always is one |
| ErrorText.StripAround | src/chain/retry.rs:36-38 | removing a marker distributes over a separator that occurs in no marker |
| ErrorText.SeverityAround | src/chain/retry.rs:26-71 | the class of two texts joined by a separator is the worse of their classes |
| ErrorText.MarkersArePlain | src/chain/retry.rs:31-66 | no marker contains a bracket, colon or other separator a summary is built with, none starts with a space |
| ErrorText.SummaryIsAJoin | src/chain/rpc.rs:258-286 | a failover summary's class is the worst of its parts' classes, no better and no worse |
| ErrorText.AnyRangeErrorWins | src/chain/retry.rs:23-25 | one endpoint's range error makes the whole summary a range error |
| ErrorText.HeadErrorsAreIgnored | src/chain/retry.rs:28-38 | each text about a range past the head is transient although it may mention a block range, and as a part of an error adds nothing to its class |
| ErrorText.LagIsTransientExactly | src/chain/mod.rs:349-354 | when the host's own name is innocuous, the lagging-endpoint text is never a range error, and is transient if and only if neither block number contains "429" |
| Rpc.RouteIsFirst | src/chain/rpc.rs:237-277 | the endpoint that decides a request is the first in turn that does not hand it on |
| Rpc.FailoverHttp.Request | src/chain/rpc.rs:222-289 | which endpoint answers, what is preferred and recorded afterwards, and the error text, for a success, a deterministic error and a failure of all |
| Rpc.FailoverHttp.GetLogs | src/chain/mod.rs:289-298 | returns the serving endpoint's logs up to its own head, and records that endpoint |
| Rpc.FailoverHttp.Demote | src/chain/rpc.rs:147-157 | only a preferred endpoint among several is replaced, by the next in the ring |
| Rpc.CompleteExactly | src/chain/mod.rs:57-62 | a chunk an endpoint cut at its head is complete exactly when it holds no log above that head |
| Rpc.CutChunkCanBeAccepted | src/chain/mod.rs:339-355 | witnesses that a head read later, or a lag beyond the window, lets a cut chunk through |
| Rpc.TwoTasksCanAcceptACutChunk | src/chain/rpc.rs:105-109 | a run of two tasks on sound endpoints in which a cut chunk passes the head check, which asks the other task's endpoint |
| Rpc.PassedIsComplete | src/chain/mod.rs:339-355 | with heads read atomically and lags within the window, a chunk that passed holds exactly the logs of its blocks |
| Rpc.ServedBeforeGoal | src/chain/rpc.rs:222-289 | a request never rotates past a caught-up endpoint |
| Rpc.RejectionAdvances | src/chain/rpc.rs:147-157 | each lag rejection strictly shortens the ring distance to the caught-up endpoint and the lagging endpoints ahead |
| Rpc.TurnedIsProgress | src/chain/mod.rs:282-355 | every failed round under stable endpoints leaves fewer lagging endpoints ahead |
| Rpc.TooLongIsRangeError | src/chain/mod.rs:289-300 | when the endpoints refuse spans over a limit, in a refusal or a summary of failures in any order, the error of a longer span is a range error |
| Rpc.ErrorKeepsBound | src/chain/mod.rs:300-316 | a retry outside the attempt counter strictly shrinks the size, and at least halves it without a usable hint |
| Rpc.ChainConfig.SafeHead | src/chain/mod.rs:251-256 | the served head less the confirmations, not below zero; and with bounded lag every later answer reaches it within the window |
| Rpc.ChainConfig.CheckLogsEndpointHead | src/chain/mod.rs:339-355 | accepts exactly far from the target or with a head that reached the end; otherwise demotes the endpoint and names the lag |
| Rpc.ChainConfig.ReactTo | src/chain/mod.rs:300-316 | how an error's class changes the size, and when the range is retried at once |
| Rpc.ChainConfig.FetchFilteredLogsChunk | src/chain/mod.rs:275-335 | what is returned is complete; it succeeds if one endpoint has caught up and at most seven lag, also when they all refuse spans over any limit down to the smallest chunk, named or not, and then returns no more than the limit; retries outside the attempt counter are bounded by the sizes, logarithmically when no limit was named |
| Rpc.HealthySucceeds | src/chain/mod.rs:282-355 | on a network whose endpoints answer and never fall behind a reported head, the conditions for a successful fetch hold |
| Discovery.ReplayProgress.ApplyMembershipEvent | src/chain/mod.rs:136-144 | the set after one event, and whether it changed |
| Discovery.EveryEntryFollows | src/chain/discovery.rs:101-265 | in a disciplined history every set reconciled or rejected is its plan's starting set folded over exactly the plan's blocks, and its verdict is its comparison with a reading of the registry at its block |
| Discovery.UnverifiedOnlyAfterTwoMismatches | src/chain/discovery.rs:112-143 | an unverified set is a full replay, after two full replays whose sets differed from what the registry reported, with no reconciliation since |
| Discovery.FlagIsTheLastComparison | src/chain/discovery.rs:238-261 | the flag on the served set is the outcome of the last comparison with a reading of the registry: of the set last reconciled, or of the set served at that check at the block then followed to |
| Discovery.ForcedOnlyAfterTwoFailedChecks | src/chain/discovery.rs:516-541 | a drift-forced replay follows two checks in each of which the set served at the time, as the history rebuilds it, differed from a reading of the registry at the block then followed to, with no agreeing one and no new live loop between |
| Discovery.ForcedReplaysAreRare | src/chain/discovery.rs:120-134 | a stretch of T seconds holds at most 1 + T / 600 forced replays |
| Discovery.DriftForcesAFullReplay | src/chain/discovery.rs:112-135 | the second failed check since one that passed, ten minutes after every forced replay, is followed at once by a forced replay, and every plan from then on is a full one |
| Discovery.CheckpointsAreResumed | src/chain/discovery.rs:67-74 | a plan resumes the checkpoint with the set stored at the time unless there is none from the deployment on, a replay was forced or a full one disagreed before, or a set disagreed since the last reconciliation; without one, or after the former, it is a full one |
| Discovery.AtMostTwoRejections | src/chain/discovery.rs:112-143 | at most two full replays in a row are rejected; the next one is served |
| Discovery.FullPlanIsFullReplay | src/chain/discovery.rs:280-290 | what a full plan reconciles is the full replay up to its block |
| Discovery.TruthfulRegistry | src/chain/discovery.rs:238-261 | against a truthful registry a full plan is never rejected and always verified, and a reconciled resumed one is the full replay or differs by hashes that cancel |
| Discovery.ReconcileIsAStep | src/chain/discovery.rs:354-442 | whatever a reconciliation leaves, done or failed at any write, with or without a checkpoint, is a step of the crash runs, given profiles no older than block and checkpoint |
| Discovery.FollowedChunkIsAStep | src/chain/discovery.rs:477-508 | so is a chunk followed from wherever the live loop stands, its checkpoint written or not, and any part of a chunk |
| Discovery.SyncStaysSecure | src/chain/discovery.rs:354-442 | a reconciliation, done or failed at any write, leaves what can be resumed from in every calm environment, unless it pruned below the checkpoint; which it does in no environment whose safe heads do not fall or whose writes do not fail |
| Discovery.FollowingStaysSecure | src/chain/discovery.rs:477-508 | so does a chunk the live loop followed, with or without its checkpoint written |
| Discovery.BelowOnlyWhenHeadsFell | src/chain/discovery.rs:195-215 | a replay ends below the checkpoint only after some endpoint's safe head fell below an earlier one or the block the process started from |
| Discovery.SteadyReadsAreCalm | src/chain/discovery.rs:548-619 | reading profiles at a latest block that does not fall and that no safe head passes is calm, whatever else fails, and every block after the latest is a bound |
| Discovery.RegistrySync.FetchLogsChunk | src/chain/mod.rs:261-270 | the registry's logs of exactly the blocks the chunk covers; it succeeds on a working network |
| Discovery.RegistrySync.ScanMembership | src/chain/discovery.rs:314-346 | chunks tile the range without gap or overlap up to the target; a failure keeps the progress made |
| Discovery.RegistrySync.CheckMembers | src/chain/discovery.rs:195-236 | at most five rounds; the verdict is about the set folded to the verdict's block; on a working network it gives up only after five rounds, in each of which no attempt at some block could read the registry |
| Discovery.RegistrySync.NewProgress | src/chain/discovery.rs:267-312 | without force, a checkpoint not below the deployment block is resumed after its block with the stored set; otherwise everything is replayed from the empty set; it fails only if the database does |
| Discovery.RegistrySync.Reconcile | src/chain/discovery.rs:354-442 | done: stored, served, checkpoint and flag agree; failed: checkpoint and what is served are untouched and the stored set is partly upserted or pruned; in either case what is stored stays resumable in every calm environment, and pruning below the checkpoint is counted |
| Discovery.RegistrySync.Conclude | src/chain/discovery.rs:238-263 | only a set that failed its check is refused: a resumed one falls back, a full one is a mismatch unless it may be served unverified |
| Discovery.RegistrySync.InitialChainSync | src/chain/discovery.rs:168-265 | at most two plans, the first, when no replay was kept, from the checkpoint and stored set at the call; success stores and serves what was just reconciled; a mismatch is a full replay that differed from the registry; failure leaves checkpoint and served set alone; what is stored stays resumable in every calm environment; with a working network and database and a truthful registry one attempt ends synced and verified, whatever was stored |
| Discovery.RegistrySync.ProcessChunk | src/chain/discovery.rs:484-488 | the stored and the served set move by the live handling of each event in order; any event counts as a change |
| Discovery.RegistrySync.FollowChunk | src/chain/discovery.rs:477-508 | one chunk: stored and served follow exactly its logs; the checkpoint moves to its end or, if the write fails, not at all; both stay resumable in every calm environment |
| Discovery.RegistrySync.FollowChunks | src/chain/discovery.rs:477-508 | the live loop follows exactly the logs up to where it got, without gap or overlap, and stays resumable in every calm environment over failed checkpoint writes |
| Discovery.RegistrySync.CheckServed | src/chain/discovery.rs:519-543 | the flag and the record are the comparison of the served set with the reading; an unreadable registry changes nothing |
| Discovery.RegistrySync.Poll | src/chain/discovery.rs:469-511 | one poll follows exactly the blocks it got past, in the history with the safe head it read; an unreadable head changes nothing; if no fetch failed it reached that head, in one step and one for each chunk; on a working network none fails |
| Discovery.RegistrySync.LiveRound | src/chain/discovery.rs:460-544 | one pass: a check is a comparison of the served set with the registry at the block followed to, and on a working network is made whenever something changed or one is due and the registry can be read |
| Discovery.RegistrySync.ChainEventLoop | src/chain/discovery.rs:445-545 | over all polls the stored and served sets follow every block after the start once and in order and stay resumable in every calm environment; it leaves for a replay exactly when the served set drifted: the last check, of the set it leaves served, failed, the second since one that passed, and the last forced replay is ten minutes ago; on a working network all its steps but one for each block followed are polls, and with a readable registry no check is overdue |
| Discovery.RegistrySync.RunChainSync | src/chain/discovery.rs:101-166 | at every shutdown of a process in a calm environment, unless the history has a reconciliation that pruned below the checkpoint: for every block above those it started with, got to or read profiles at, the next process, resuming or not, ends in the full replay, and the served set is the full replay but for later events; with no falling safe head or no failing write there is no such reconciliation; the history is disciplined, does not end in a drift, and rebuilds flag, served set, block, checkpoint and stored set; when nothing fails it does reconcile, and again after every forced replay but the last |
| Offsets.AdvanceCounter | src/node/offsets.rs:143-164 | the in-place update for any report including NaN and infinity: what the growth does not spend of allowance and refill is kept, up to the capacity; the flag tells exactly whether the report was not taken as it is |
| Offsets.AdvanceConserves | src/node/offsets.rs:143-164 | value plus allowance grows by exactly the refill; never backwards, never past the report, never beyond capacity |
| Offsets.GapShrinks | src/node/offsets.rs:20-24 | while behind, the gap to the report falls by refill less growth at each reading |
| Offsets.CatchesUp | src/node/offsets.rs:20-24 | a gap D closes within ceil(D / (r - g)) readings and from then on reports are taken as is |
| Offsets.LastTakenExactly | src/node/offsets.rs:143-164 | with the reports before it taken, a report is taken as it is exactly when it does not fall and the growth since the start, and since any earlier report, can be afforded |
| Offsets.NodeOffset.ObserveReading | src/node/offsets.rs:255-300 | the whole new state, the restart and adjustment flags, and when the row becomes dirty |
| Offsets.NodeOffset.AdvanceToward | src/node/offsets.rs:93-109 | every field moves toward its own report under its own ceiling; the flag tells if any was held |
| Offsets.NodeOffset.Apply | src/node/offsets.rs:304-308 | serves banked plus accepted for every field |
| Offsets.ObserveBudget | src/node/offsets.rs:242-300 | a reading pays growth out of allowance and refill, with or without a restart |
| Offsets.GrowthIsBounded | src/node/offsets.rs:10-24 | between any two observations a lifetime never falls and grows by at most capacity plus the refills between them |
| Offsets.CreditIsTime | src/node/offsets.rs:281-290 | readings a second or more apart are credited no more than the time that passed |
| Offsets.GrowthIsBoundedByTime | src/node/offsets.rs:14-24 | growth is at most rate ceiling * 60 + rate ceiling * elapsed seconds |
| Offsets.EveryCounterIsBounded | src/node/offsets.rs:114-137 | so for every counter of the source |
| Offsets.TakenAsReportedExactly | src/node/offsets.rs:10-24 | over any readings and restarts of a node that names its start times, all are taken as reported exactly when what it counted never falls, grew by no more than the first allowance and the credited refills, and between any two readings by no more than a full allowance and the refills after the first; and then its lifetime is what it counted |
| Offsets.SteppedUptimeIsTaken | src/node/offsets.rs:17-20 | an uptime refreshed every 30 s and scraped every 5 s is never adjusted |
| Offsets.UntimedRestartCountsOn | src/node/offsets.rs:255-275 | without a start time a fall of the uptime banks what was counted and the lifetime goes on from there; otherwise nothing is banked |
| Offsets.StepKeepsWorldOk | src/node/offsets.rs:255-300 | incarnations, readings, saves and indexer crashes, onto a saved row, onto one without its last reading, or none, keep every row within what was reported |
| Offsets.NoDoubleCounting | src/db.rs:268-329 | whichever saved row a crashed indexer resumes from, whole or without its last reading, or none, a lifetime never exceeds the sum over incarnations of the highest value reported |
| Offsets.NoCounterIsDoubleCounted | src/node/offsets.rs:114-137 | so for every counter of the source |
| Subscriber.MetricOffsets.ApplyLifetimeOffsets | src/node/subscriber.rs:285-328 | the node's entry observes the raw reading, serves lifetimes and persists a restart at once; nothing persisted falls below what the node had; other nodes are untouched; an entry a flush may skip stays persisted |
| Subscriber.MetricOffsets.FlushDirtyOffsets | src/node/subscriber.rs:350-369 | with any readings arriving meanwhile: a pending node whose save worked is persisted with at least what it had when the flush began; a node without readings meanwhile is persisted as it stands; lifetimes never fall |
| Subscriber.ReadingAdvances | src/node/subscriber.rs:285-328 | a reading lets no lifetime fall, persists nothing below it, and leaves no skippable entry unpersisted |
| Subscriber.ReloadKeepsLifetimes | src/db.rs:268-329 | a fresh process serves the lifetimes of the row it loads |
| Subscriber.ObservedEntryIsFine | src/node/subscriber.rs:350-356 | an entry the flush may skip after a reading is what it was before it |
| Subscriber.NetworkTotals | src/node/offsets.rs:200-207 | each total is the sum of all nodes' lifetimes |
| Subscriber.TotalsIgnoreOrder | src/node/offsets.rs:196-207 | whatever order the nodes are visited in |
| SeedCache.StepKeepsInv | src/api.rs:348-401 | every step of requests, refreshes, warm ticks, bumps and cancellations keeps the invariant |
| SeedCache.CacheNeverGoesBack | src/api.rs:375-401 | no step moves the cached copy's build time backwards |
| SeedCache.EveryRunIsSafe | src/api.rs:342-401 | at most one verification runs, only verified copies are cached, each served copy was under 300 s old when chosen and is of an older version only after a failed rebuild |
| SeedCache.StaleIsServedAndRefreshed | src/api.rs:350-357 | a stale copy is served at once and, when nobody refreshes, starts a refresh that replaces it when its check passes |
| SeedCache.RebuildIsServed | src/api.rs:358-359 | a request that cannot be served from the cache gets the copy its own check built |
| SeedCache.FailedRebuildIsServedExactly | src/api.rs:360-370 | when that check fails it gets the older copy it saw, exactly if there was one still under 300 s old |
| SeedCache.OneTick | src/api.rs:403-420 | the steps of one warm tick, skipped, passed or failed, can be taken, lead to the next tick, and age the copy by no more than the check or the wait |
| SeedCache.IdleAgeIsBounded | src/api.rs:403-420 | along the steps of any number of warm ticks an idle copy stays younger than interval + 30 s + longest check, plus the longer of interval and check for each failed check in a row |
| SeedCache.IdleCopyStaysServableExactly | src/api.rs:403-420 | after every step of every such run a request is served from the cache if and only if that bound, for the failures in a row allowed, is at most 300 s |
| SeedCache.AllowedIntervalsCanBreakIt | src/main.rs:80-88 | at an allowed interval of 299 s a run from the start with instant checks that all pass comes to a copy that cannot be served |
| Settlement.SourceKeyTellsContractsApart | src/chain/settlement.rs:82-88 | two configurations share a checkpoint key exactly when both contracts agree |
| Settlement.FilterLosesNothing | src/chain/settlement.rs:90-100 | the log filter drops no log that would be decoded |
| Settlement.KeyNamesOneRow | src/chain/settlement.rs:5-6 | rows read from the chain under one key are the same row |
| Settlement.RowsAreDistinct | src/chain/settlement.rs:5-6 | a contract's rows over any block range have distinct keys |
| Settlement.InsertKeepsTable | src/db.rs:489-521 | insert-if-absent leaves the log's own row, changes no other, and adds one row exactly if the key was free |
| Settlement.HeldIsExactlyOnce | src/db.rs:488-521 | if a range's rows are all stored, the stored rows of the contract in the range are exactly these, each once |
| Settlement.TotalsAreTheChains | src/db.rs:552-611 | however a query lists all stored rows of a contract: each is a distinct log of it on the chain, their number and sums are those of the covered logs plus the rows from other blocks, and there are as many as covered logs if and only if there are none of these |
| SettlementRun.DecodedRow | src/chain/settlement.rs:164-208 | a log decodes to a row of a contract exactly when it is an unremoved, located, decodable log of that contract's event |
| SettlementRun.DecodedRows | src/chain/settlement.rs:405-427 | decoding and stamping a chunk yields the rows its logs are worth to the two contracts, and nothing else |
| SettlementRun.SettlementSync.StampEntries | src/chain/settlement.rs:410-427 | every entry gets its own block's timestamp, or the chunk fails |
| SettlementRun.SettlementSync.InsertEntry | src/chain/settlement.rs:428-446 | the entry's row is in its table under the configured contract, or the database failed; `true` exactly if it was new |
| SettlementRun.SettlementSync.InsertEntries | src/chain/settlement.rs:428-463 | after all inserts every row is stored and the count of new rows is exact; a failure leaves only rows from the chain |
| SettlementRun.SettlementSync.Begin | src/chain/settlement.rs:379-396 | where a poll starts: memory, else after the checkpoint but not below the start block |
| SettlementRun.SettlementSync.Commit | src/chain/settlement.rs:466-473 | the checkpoint covers only stored blocks, also when the write's reply is lost |
| SettlementRun.SettlementSync.SyncOnce | src/chain/settlement.rs:373-478 | success stores everything up to the safe head and counts the new rows; in every case rows are never lost or changed, only rows of blocks from the poll's start on are added, and the invariant holds; it fails only if something failed |
| SettlementRun.SettlementSync.Restart | src/chain/settlement.rs:309-332 | a crash anywhere and a restart with any configuration keep the invariant |
| SettlementRun.SettlementSync.PollAll | src/chain/settlement.rs:334-370 | every poll is made; each that succeeded read a safe head by a later request than the ones before and left the source's checkpoint at or past it, unless it is below the start block; in a life in which nothing goes wrong all succeed |
| SettlementRun.RunLives | src/chain/settlement.rs:308-370 | over any number of lives the rows of every checkpointed source are stored exactly once each from a configured start block to the checkpoint; the last life's source is checkpointed at or past every safe head its polls succeeded with, and in a life in which nothing goes wrong, past every block that all heads have passed |
| SettlementRun.RaisedStartLeavesGapExactly | src/chain/settlement.rs:389-391 | after a start block raised above the checkpoint the stretch from the old start is complete exactly if the gap's rows had been stored |
| SettlementRun.RaisedStartLosesALog | src/chain/settlement.rs:389-391 | a witness: a log between checkpoint and raised start that no poll from there on stores |
| SettlementTotals.MergeTotals | src/chain/settlement.rs:272-306 | one strictly ordered entry for each pair in either list, with that pair's settlements and claims |
| SettlementTotals.GroupsKeepTheSum | src/db.rs:552-611 | grouping loses and duplicates nothing when every pair is listed once |
| SettlementTotals.TotalsAreConserved | src/chain/settlement.rs:272-306 | executions, fees and claims of the joined entries add up to those of the listed rows |
| SettlementTotals.ServedTotalsAreTheChains | src/chain/settlement.rs:480-519 | the totals served for a source stored exactly once are what its covered logs say, each once, plus the rows stored from other blocks; executions equal the covered logs if and only if there are none |

## Left out

- HTTP, WebSocket, SSE, tokio scheduling, tracing and geolocation: only outcomes (answer, error, cancellation) appear.
- ABI decoding and the Keccak and SHA-256 hashes: a decoded event is a field of the log, the hash is a parameter.
- SQL, migrations and the scoring it computes: tables are maps with overwrite or insert-if-absent; a counter row whose totals cannot be decoded, which loading skips, is a start without a row, and one whose last reading alone cannot is `Offsets.RestartsOnTotals`.
- Floating-point rounding: accepted counters are reals, with NaN and the infinities kept for reports.
- Concurrency within one part: one task fetches logs with one `ChainConfig`, and reading logs and that endpoint's head is one atomic step. Persisting a restart is one step with the reading that detects it.
- Endless loops: the supervisor and the settlement loop run until a shutdown tick or poll count that the theorems quantify over; sleeps between attempts of the supervisor and its phase and error fields are not modelled.
- A chain that reorganises: blocks are fixed, so removed logs only appear as a flag that decoding ignores; the chain id is fixed and a failing chain-id read is a failing step.
- 64-bit saturation of block numbers in ranges and checkpoints, and clamping of row fields to signed 64-bit, beyond the configured chunk sizes and U64 limits that are modelled.
- Lower-casing of non-ASCII text in error messages, secrets redaction, and the request timeouts' texts.
- `AdaptiveChunk.streak` is unbounded: the source's 32-bit counter keeps counting while the size sits at the ceiling.
- Ticks of the warm loop that are skipped because the sync is not ready, in the idle-age bound.
- Registry.EveryRunCanResume: a passed chunk drops no event and profiles are read no earlier than the block got to; without these it is false exactly as `Registry.DriftsExactly` says.
- Discovery.RegistrySync.FollowChunk: handles a whole chunk; a death between two events is a step of `Registry.EveryRunCanResume` instead.
- Subscriber.MetricOffsets.FlushDirtyOffsets: for a node read while it is being flushed only the lower bound is promised, because the source then writes the row of the snapshot and marks the newer entry clean.
- SettlementRun.RunLives: a source's contracts are followed by one process at a time.
- Settlement pool balance reads and the summary refresh, subscription planning, multiaddr and public-address tests, layer assignment, liveness: easy members beside the above.
- Profile contents, node status and the pruning of nodes of other registries: a stored set is the registry's member addresses.
