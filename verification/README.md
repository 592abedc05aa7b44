# A verified model of the rollout router and its bounded training driver

This project models the parts of the router and its integrations in which a
wrong step would be expensive, and proves what they guarantee:

- **Weight updates** (`Versioning`, `Protocol`, `Executor`, `UpdateTerms`). The coordinator is
  a class tied, method by method, to functions on its state. Its calls, other
  traffic on the workers, update RPCs and crashes are the steps of a protocol,
  and the guarantees are about every legal run. The executor is proved to make
  only legal runs, whatever its adapters and other callers do, and to complete
  exactly if nothing goes wrong.
- **Bounded training** (`Buffer`, `Pipeline`, `Cluster`, `RolloutTrace`,
  `TraceVerifier`, `Acceptance`, `BoundedTrain`). The driver runs against
  engines and a trainer that may fail or answer anything. Its trace is proved
  acceptable to the separate offline checker exactly when the run completed and
  counted a token. On engines that never fail its course is fixed: which batches
  are prefetched, at which lag each is consumed, and how the run ends.
- **Placement** (`Ordering`, `Models`, `Scheduling`, `Placement`,
  `RelatedMachines`, `Adaptive`, `Objective`, `Routing`, `Guarantees`). The greedy
  policies are list scheduling on workers with initial loads, with its
  approximation and optimality theorems; what the adaptive policy minimises is
  told from the workers' queues, caches and rates.
- **The group barrier** (`Decimal`, `Groups`, `Tracker`, `Barrier`, `Restarts`,
  `Reports`, `Telemetry`, `Credits`, `Runtime`) and the counters that must count each
  group once.
- **The prefix-cache index** (`CacheIndex`).

Workers, groups and updates are values held in the fields of classes; times are
integers of nanoseconds handed in by the caller; remote calls, waits and other
coroutines are free choices; persisting is one write of a value. Rates, lengths
and scores are real numbers.

## What the proofs found

1. *A restarted group tracker is not always the tracker it was.* Failure
   reasons are filed under sample indices, come back from the snapshot under
   text keys, and a further failure report then mixes the two kinds of key,
   which the sorted JSON writer refuses with a type error: memory has changed,
   the file has not. One sample failed before and after a restart is enough
   (`Restarts.OneSampleIsEnough`). The file stays stale exactly until each such
   report is followed by the sample's response (`Restarts.StaleWhilePending`),
   and a restart meanwhile forgets what was not written
   (`Restarts.RefusedWritesAreForgotten`). A restart can never be noticed
   exactly if no group holds a failure reason filed since the last one
   (`Restarts.RestartIsNeverNoticedIff`); which continuations notice it is
   `Restarts.RestartIsTransparentIff`.
2. *While the file is stale a group can become READY uncounted.* Any other group
   whose last response arrives then is READY in memory, its response is answered
   with a type error, and `complete` counts nothing
   (`Credits.TwoSamplesAreEnough`, `Credits.OpeningIsMissedIff`,
   `Runtime.RLRouterRuntime.Complete`). A process counts all it makes READY
   exactly if the file it started on holds no failure reasons
   (`Credits.EverythingIsCountedIff`).
3. *A failure reported for a sample that has already arrived shuts its group
   for good.* The group can be complete and never become READY
   (`Barrier.LateFailureShutsTheGroup`, `Barrier.BlockedForGood`); it opens
   exactly when the last missing response finds no other sample marked as
   failed (`Barrier.OpensExactlyWith`).
4. *The order to recover does not survive a second restart.* The first restart
   writes ABORTED, and every later one leaves the participants as they report
   themselves (`Protocol.OnlyFirstRestartRecovers`).
5. *An update RPC that outlives its update is forgotten.* If somebody aborts
   while a worker is loading and the process then dies, the file says ABORTED,
   and the next process takes the worker at its word
   (`Protocol.AbortedRpcIsForgotten`, `Protocol.CrashDuringRpc`).
6. *Cancelling `execute_disk_update` can leave the update open.* A cancelled
   await is not an `Exception`, so the handler that aborts does not see it;
   every other way out finds the update ended all one way
   (`Executor.WeightUpdateExecutor.ExecuteDiskUpdate`). What is left stays: a
   participant out of service, and every further update refused, until someone
   aborts it or checks its deadline (`Executor.CancelledStaysStuck`,
   `Executor.OpenUntilEnded`).
7. *A call may commit somebody else's update.* `verify_worker` and `commit` are
   about whichever update is active. If another one to the same version is begun
   after the call's own was aborted, the call can go on with that and return
   COMMITTED (`Executor.AnotherUpdateIsCommitted`); if none is begun, everything
   promised holds.
8. *A trace file that an earlier run got anywhere with spoils the next run's
   verdict.* The writer appends and the checker reads the whole file. With the
   batch count checked, a completed run passes exactly if no other run in the
   file consumed a batch, failed or completed (`Acceptance.AppendedPassesGate`);
   without it earlier batches may stay if their ids are lower
   (`Acceptance.AppendedRunMeetsChecker`).
9. *Whether a group is mixed can depend on the order of its requests.* Sampling
   settings are compared with the first request's up to a relative tolerance,
   which is not transitive (`Models.OrderCanDecide`); the order is irrelevant
   exactly if they are pairwise close (`Models.HomogeneityIsCanonical`).
10. The greedy bounds hold with the classical constants: 2 - 1/m for
    least-queued-tokens with any initial loads, 4/3 - 1/(3m) for longest-first on
    idle workers of equal rate, 3/2 - 1/(2m) for longest-first on workers of
    equal rate with anything in their queues, and 1 + fast/slow - fast/total for
    any queues and any rates.

## Model

| member | source | states |
|---|---|---|
| Versioning.PolicyVersionCoordinator.Start | router/rl/versioning.py:55-69 | a coordinator is refused for repeated worker ids; otherwise it starts from its workers and whatever its state file says |
| Versioning.PolicyVersionCoordinator.RestoreAfterRestart | router/rl/versioning.py:96-117 | an unfinished update found on disk is aborted, its known participants are sent to RECOVERING, and the file is rewritten; a finished one changes nothing; an unknown schema is an error |
| Versioning.PolicyVersionCoordinator.BeginUpdate | router/rl/versioning.py:128-174 | which of the refusals applies, in order, and otherwise the new update, its participants in first-seen order, all or the first of them draining, and the snapshot |
| Versioning.PolicyVersionCoordinator.CheckFit | router/rl/versioning.py:147-152 | reports the first chosen worker that is unknown, not READY or at another version |
| Versioning.PolicyVersionCoordinator.MarkDrained | router/rl/versioning.py:176-188 | only a draining worker with nothing in flight moves to UPDATING, with its record, the update's status and the snapshot |
| Versioning.PolicyVersionCoordinator.VerifyWorker | router/rl/versioning.py:190-221 | a wrong version or checksum fails the worker; the right one makes it READY at the new version and, when rolling, starts draining the first pending participant |
| Versioning.PolicyVersionCoordinator.CommitUpdate | router/rl/versioning.py:223-234 | commits if every participant is verified, and is refused otherwise |
| Versioning.PolicyVersionCoordinator.FailWorker | router/rl/versioning.py:236-243 | the worker, its record and the update are failed, and the snapshot says so |
| Versioning.PolicyVersionCoordinator.AbortUpdate | router/rl/versioning.py:245-257 | verified participants are failed, draining and updating ones sent to recovery, the rest left, and the update is aborted on disk too |
| Versioning.PolicyVersionCoordinator.CheckDeadline | router/rl/versioning.py:259-265 | aborts exactly when the deadline has passed |
| Versioning.PolicyVersionCoordinator.Persist | router/rl/versioning.py:80-94 | the file, if there is one, holds the current update |
| Versioning.FreshTable | router/rl/versioning.py:61-64 | the worker table has one entry per distinct id, and as many entries as workers exactly if the ids are distinct |
| Protocol.StepKeepsInv | router/rl/versioning.py:128-265 | every legal step keeps each participant's record, lifecycle, version and load consistent with its stage, and the snapshot equal to the update |
| Protocol.RunKeepsInv | router/rl/versioning.py:48-53 | so does every legal run |
| Protocol.RestartIsSound | router/rl/versioning.py:55-69 | every process starts from a state with the invariant and no open update, whatever its workers claim and its file says |
| Protocol.LivesAreSound | router/rl/versioning.py:48-117 | over any number of processes one after another, with crashes anywhere, every reachable state has the invariant and the rolling shape |
| Protocol.VersionStableUnderLoad | router/rl/versioning.py:176-205 | in every reachable state, crashes included: a worker with work running or queued changes its version exactly if it reports another one itself from outside the update; the coordinator changes it only while it is UPDATING with nothing in flight |
| Protocol.VersionMonotone | router/rl/versioning.py:139-205 | over any run of any number of updates a worker's version never goes back, exactly if the worker reports no lower one itself from outside an update |
| Protocol.CommitIffAllServeNewVersion | router/rl/versioning.py:223-234 | an open update can be committed exactly if every participant is READY at its target version, whatever its status reads |
| Protocol.AbortIsClean | router/rl/versioning.py:245-257 | after an abort no participant is draining or updating, and one still READY is at the old version |
| Protocol.FailureBlocksCommit | router/rl/versioning.py:186-243 | once a participant failed, no later run of the update commits it, although the status may read UPDATING again |
| Protocol.RunKeepsShape | router/rl/versioning.py:167-220 | along every run of a rolling update the participants are a verified prefix, at most one out of service, and an untouched suffix READY at the old version |
| Protocol.InstalledAdvancesShape | router/rl/versioning.py:203-220 | verifying the participant at the frontier moves the frontier to the next one, which starts draining |
| Protocol.RollingKeepsServing | router/rl/versioning.py:167-220 | in every reachable state of a rolling update, crashes included, of any two participants at least one serves, at the old or the new version |
| Protocol.CrashSafety | router/rl/versioning.py:80-117 | around every step of every process, however many crashed before: the file is written at most once, an open update is on disk as unfinished, and a restart aborts it and sends every known participant to recovery; an RPC goes only to a drained participant of an open update |
| Protocol.CrashDuringRpc | router/rl/versioning.py:80-117 | over every life of processes and every run in which an update RPC was sent and neither settled nor overtaken by another update: if nobody ended the update since, it is on disk as unfinished and a restart sends every known participant to recovery; if somebody aborted it, the file says so and a restart takes every worker at its word |
| Protocol.AbortedRpcIsForgotten | router/rl/versioning.py:105-106 | an input for the latter: RPC sent, abort, crash |
| Protocol.OnlyFirstRestartRecovers | router/rl/versioning.py:105-117 | a participant is sent to recovery exactly if the update was open, and only by the first of any number of restarts; from the second on every worker starts as it claims |
| UpdateTerms.TermsAreTaken | router/rl/versioning.py:144-174 | exactly the workers asked for take part, or all of them if none is; stop-the-world takes all of them out of service, rolling only the first one given |
| UpdateTerms.BeginsIff | router/rl/versioning.py:137-152 | an update begins exactly if its mode is known, its version goes up, no other is open, and some workers are to be updated, all READY at the version it starts from; otherwise nothing changes |
| UpdateTerms.DeadlineIsKept | router/rl/versioning.py:153-165 | over every run that leaves the update open: a check of the deadline aborts it exactly if more than the timeout it was begun with has passed since, and changes nothing before |
| UpdateTerms.DrainAndFailDecide | router/rl/versioning.py:176-243 | a participant is marked drained exactly if it is draining with nothing in flight, and a failed one is failed, each with its record, the status and the file |
| UpdateTerms.EndsDecide | router/rl/versioning.py:223-257 | an abort fails the participants that serve the new version, sends those out of service to recovery and leaves every other worker alone; a commit leaves all alone |
| UpdateTerms.VerificationDecides | router/rl/versioning.py:190-205 | in every reachable state: a participant being updated is installed exactly if it reports the target version and, where a nonempty checksum is expected, that checksum; otherwise it is failed; any other participant is left alone |
| UpdateTerms.ChecksumsAgree | router/rl/versioning.py:200-209 | in every reachable state of an update with a nonempty expected checksum every participant recorded as verified, and all of them if it can be committed, bears exactly that checksum in its record and on the worker |
| Executor.WaitingIsDraining | integrations/weight_update_executor.py:125-126 | when the loop reaches a participant it is draining, in both modes, exactly if nobody else has moved it on; and it is out of service unless it is verified |
| Executor.WeightUpdateExecutor.WaitDrained | integrations/weight_update_executor.py:84-91 | with anybody calling the coordinator between the polls: ends drained only with nothing in flight and at the deadline only with something left; keeps the update as the call left it exactly if nobody else meddled |
| Executor.WeightUpdateExecutor.DrainPhase | integrations/weight_update_executor.py:121-128 | the participant is drained and marked; or there is no adapter for it, the wait for it ran out or was cancelled; or it was not selected, or refused, and then only because somebody else meddled with the update |
| Executor.WeightUpdateExecutor.LoadPhase | integrations/weight_update_executor.py:131-151 | which of RPC, probe and reading the answer failed is exactly how those calls turned out; the participant is verified only if its RPC, and its probe when probing, answered, and refused then only because somebody else meddled |
| Executor.WeightUpdateExecutor.Recover | integrations/weight_update_executor.py:169-176 | wherever an exception finds the loop and whatever others did, the handler leaves the update ended, all one way |
| Executor.WeightUpdateExecutor.Finish | integrations/weight_update_executor.py:153-168 | aborts exactly if two probes disagree, and commits otherwise |
| Executor.WeightUpdateExecutor.ExecuteDiskUpdate | integrations/weight_update_executor.py:93-176 | with others free to drain, verify, fail, commit, abort and check the update at every await, and unless one of them begins another: every execution is a legal run; it is refused exactly if begin_update refuses; completed, all participants serve the new version; with an error, the update is aborted with none there and none mid-update, or somebody else committed it; cancelled, it may still be open, with a participant out of service unless others verified it; it completes exactly if nobody else meddled with the update, every participant has an adapter, every wait, RPC and probe was answered, and the probes agree; and then each participant was drained, loaded and probed |
| Executor.CompletesIff | integrations/weight_update_executor.py:119-176 | every other ending has its cause: a deadline, an RPC, a probe or a cancelled wait that was the last thing the call waited for, an unreadable answer, a missing adapter, probes that differ, or somebody else |
| Executor.StepFollows | integrations/weight_update_executor.py:120-151 | over every legal step of others: the k-th participant is where the call took it and the later ones are untouched exactly if no step has changed the update |
| Executor.AnotherUpdateIsCommitted | integrations/weight_update_executor.py:150-158 | the condition is needed: a run in which another update is begun meanwhile, and the call's verification and commit succeed for that one although its own was aborted |
| Executor.OpenUntilEnded | router/rl/versioning.py:137-143 | an open update stays open exactly until a commit with all verified, an abort or a check past its deadline, and no other can begin before |
| Executor.CancelledAtFirstAwait | integrations/weight_update_executor.py:107-126 | a call cancelled at its first await leaves the update open and its first participant draining |
| Executor.CancelledStaysStuck | integrations/weight_update_executor.py:169-176 | over every run in which nobody ends the update or verifies or fails the participant held up, it stays out of service and every attempt to begin another update is refused |
| Buffer.BoundedRolloutBuffer.Create | router/rl/buffer.py:25-34 | refuses a capacity below one and a negative lag; otherwise an empty buffer |
| Buffer.BoundedRolloutBuffer.Put | router/rl/buffer.py:36-50 | which refusal applies, in order; otherwise the batch is queued last; keeps capacity, the id index and the conservation of batches and counters |
| Buffer.BoundedRolloutBuffer.Get | router/rl/buffer.py:52-62 | returns the first batch within the lag bound, drops exactly those before it, counts them as stale, and keeps the same invariant: accepted = left + queued, in order |
| Buffer.BoundedRolloutBuffer.PopFront | router/rl/buffer.py:54-61 | the oldest batch leaves the queue and the index, and counts as stale if it is not returned |
| Buffer.StaleFrontIsFirst | router/rl/buffer.py:54-61 | the number dropped is that of the batches before the first usable one |
| Pipeline.NormalizeWeightVersions | integrations/bounded_pipeline.py:12-29 | succeeds exactly if there is a report and all reports are the same version, which it returns |
| Pipeline.CountGeneratedTokens | integrations/bounded_pipeline.py:32-38 | the sum over partitions of the sums of their response lengths |
| Pipeline.TokensIgnorePartitioning | integrations/bounded_pipeline.py:32-38 | that sum does not depend on how the lengths are split into partitions |
| Pipeline.TokensChange | integrations/bounded_pipeline.py:32-38 | one response longer by some tokens raises it by just those, in whichever partition it is |
| Pipeline.BoundedPipelineStats.ObserveBatch | integrations/bounded_pipeline.py:57-63 | refuses a negative lag without counting; otherwise counts the batch, its tokens and the two maxima |
| Pipeline.BoundedPipelineStats.Summarize | integrations/bounded_pipeline.py:65-74 | the counters, an elapsed time never below a nanosecond, and tokens over it |
| TraceVerifier.AcceptsExactlyAcceptable | scripts/verify_bounded_async_trace.py:24-78 | the checker accepts exactly the traces with no failure row, one completion row, strictly ascending consumed ids, every lag true and bounded, and the expected totals; it raises a ValueError about any other |
| TraceVerifier.AscendingMeansNoComplaint | scripts/verify_bounded_async_trace.py:34-39 | no duplicate and equal to its sorted copy is the same as strictly ascending |
| TraceVerifier.SpoiltFileIsRefused | scripts/verify_bounded_async_trace.py:24-29 | a file with a failure row of any run, or without exactly one completion row, is refused |
| BoundedTrain.GenerateSync | integrations/slime_bounded_train.py:141-161 | one row and one batch at the expected version, or an error and no row; the generation has ended either way |
| BoundedTrain.StartPrefetch | integrations/slime_bounded_train.py:205-216 | starts one generation exactly if there is a next rollout, a lag of one is allowed and the observed version is the current one |
| BoundedTrain.AwaitPrefetch | integrations/slime_bounded_train.py:288-313 | a prefetch is used exactly if it arrived, its partitions could be read, the version observed afterwards is the one it was begun at, and it was not to be thrown away; the fault is injected exactly once, when the chosen rollout arrives |
| BoundedTrain.CollectPrefetch | integrations/slime_bounded_train.py:286-323 | a failed prefetch is counted and written down, and raised again exactly without strict fallback |
| BoundedTrain.Advance | integrations/slime_bounded_train.py:325-334 | goes on exactly if the version observed after the update is one higher |
| BoundedTrain.TakeWaiting | integrations/slime_bounded_train.py:191-193 | the buffer never turns out empty |
| BoundedTrain.PutFresh | integrations/slime_bounded_train.py:357-372 | put never raises, so the rejection branch is never taken |
| BoundedTrain.Iterate | integrations/slime_bounded_train.py:190-381 | one turn of the loop keeps the whole account of trace, engines, counters and buffer and advances it by one batch and one version, or stops with what was written still right; on engines that never fail it stops only for a result thrown away without fallback |
| BoundedTrain.Train | integrations/slime_bounded_train.py:75-406 | for every oracle: ids generated and consumed once in order, the k-th at the first version plus k, lag one exactly if prefetched, no update during a generation, honest engines' batches wholly at their stamped version, fallbacks plus prefetches = n - 1; the checker accepts this run's rows exactly if it completed and counted a token, and the file it appended them to exactly if besides no other run in it got as far as a batch or a last row; on honest engines that never fail, and raise the version by one, the run ends as the settings say, and completed, every batch after the first was prefetched and consumed at lag one, but for one thrown away, or without leave to prefetch all at lag zero |
| BoundedTrain.HeadIsPaced | integrations/slime_bounded_train.py:187-393 | on such engines: the k-th batch is generated as planned and consumed at that lag, and one prefetch failed exactly if one was to be thrown away |
| RolloutTrace.ModesAddUp | integrations/slime_bounded_train.py:356-378 | every batch after the first was prefetched or fallen back to, and with no lag allowed none was prefetched |
| RolloutTrace.FlownAfterOverlap | integrations/slime_bounded_train.py:206-327 | a generation that overlaps training is over before the update and held one version throughout |
| RolloutTrace.MidwayUpdates | integrations/slime_bounded_train.py:327-334 | an update keeps updates and generations apart whatever version it leaves, and keeps the account if that is the next one |
| Acceptance.ProducerMeetsChecker | scripts/verify_bounded_async_trace.py:11-78 | for every choice of checks: a completed trace is accepted exactly if the checks ask no more than the run did |
| Acceptance.CompletedPassesGate | scripts/verify_bounded_async_trace.py:31-59 | with the batch count, the configured lag and a buffer of one a completed trace is accepted exactly if it counted a token |
| Acceptance.ReportAgrees | scripts/verify_bounded_async_trace.py:126-138 | what the checker reports of an accepted run is what the run did: batches, tokens, largest lag, lagged batches = prefetched ones, prefetches = those + failures, fallbacks, buffer, throughput, version |
| Acceptance.AppendedRunMeetsChecker | scripts/verify_bounded_async_trace.py:11-78 | for every choice of checks and whatever earlier runs left in the file: a completed run's file is accepted exactly if they left no last row and only right batches with lower ids, and the checks ask no more than all the runs did |
| Acceptance.AppendedPassesGate | scripts/verify_bounded_async_trace.py:11-59 | gated on one run's batches, the file is accepted exactly if that run counted a token and no other run in it got as far as a batch or a last row |
| Models.GateIsSound | router/rl/routing.py:74-99 | a group that passes is homogeneous and comes out in sample order, with exactly the eligible workers in id order |
| Models.EligibleWorkersIsCanonical | router/rl/routing.py:74-99 | for permuted requests and workers the gate's answers are the same exactly if both or neither are refused, which they are if the settings are pairwise close |
| Models.HomogeneityIsCanonical | router/rl/models.py:254-280 | the test compares with the first request: in another order the group passes exactly if its settings are close to those of the new first one, and in all orders exactly if they are pairwise close |
| Models.OrderCanDecide | router/rl/models.py:272-276 | an input: three temperatures a tolerance apart pass with the middle one first and are refused with the lowest first |
| Placement.ListSchedule | router/rl/routing.py:196-199 | the loop gives each request to the first least loaded worker at the loads its predecessors made |
| Placement.AssignmentIsChoice | router/rl/routing.py:102-116 | every assignment of the group is a worker for each request in turn |
| Placement.LeastQueuedBound | router/rl/routing.py:187-199 | the heaviest final token load is at most 2 - 1/m times that of every other assignment, for any initial loads |
| Placement.LeastQueuedEqualPromptsBound | router/rl/routing.py:187-199 | for prompts of one length it is at most 3/2 - 1/(2m) times |
| Placement.LeastQueuedBalanced | router/rl/routing.py:187-199 | a worker that received work ends at most one of its requests above any other worker |
| Placement.LeastRequestsOptimal | router/rl/routing.py:208-217 | no other assignment has a smaller maximum final request count |
| Placement.LoadProportionalBound | router/rl/routing.py:278-289 | on idle workers of equal rate the makespan is at most 4/3 - 1/(3m) times that of every other assignment |
| Placement.LoadProportionalQueuedBound | router/rl/routing.py:278-289 | with anything in the queues and one decode rate it is at most 3/2 - 1/(2m) times |
| Placement.LeastQueuedPartitions | router/rl/routing.py:187-199 | each request is placed once, on a ready worker |
| Placement.LeastRequestsPartitions | router/rl/routing.py:208-217 | each request is placed once, on a ready worker |
| Placement.LoadProportionalPartitions | router/rl/routing.py:278-289 | each request is placed once, on a ready worker |
| Placement.RoundRobinPartitions | router/rl/routing.py:126-133 | each request is placed once, on a ready worker, at any offset |
| Placement.PackPartitions | router/rl/routing.py:142-163 | a pack places the whole group on one ready worker |
| Scheduling.ListSchedulingBound | router/rl/routing.py:196-199 | greedy list scheduling with initial loads is a (2 - 1/m)-approximation |
| Scheduling.LongestFirstBound | router/rl/routing.py:284-288 | longest-first greedy scheduling on idle machines is a (4/3 - 1/(3m))-approximation |
| Scheduling.LoadedLongestFirstBound | router/rl/routing.py:284-288 | longest-first greedy scheduling on machines with any initial loads is a (3/2 - 1/(2m))-approximation |
| Scheduling.UnitJobsOptimal | router/rl/routing.py:213-216 | greedy scheduling of unit jobs on whole initial loads is optimal |
| RelatedMachines.RelatedMachinesBound | router/rl/routing.py:278-289 | giving each job to the machine done soonest, with any initial loads and any rates between slow and fast, is a (1 + fast/slow - fast/total)-approximation |
| RelatedMachines.LoadProportionalRatesBound | router/rl/routing.py:278-289 | with anything in the queues and any decode rates the makespan is at most 1 + fast/slow - fast/total times that of every other assignment, total being the sum of the rates |
| Adaptive.Scan | router/rl/routing.py:332-372 | one pass collects the finish times, loads, waits and duplicated prefill of the used workers |
| Adaptive.PlaceAdaptive | router/rl/routing.py:388-412 | the loop over the candidates takes the first of least score |
| Adaptive.AdaptiveIsScoreNameMinimum | router/rl/routing.py:395-396 | which is the minimum by score, then name |
| Adaptive.AdaptiveDominates | router/rl/routing.py:303-412 | the choice scores no worse than fixed pack, even split and load-proportional on the same input |
| Adaptive.AdaptivePartitions | router/rl/routing.py:303-412 | every candidate, so the choice too, places each request once and uses a worker |
| Adaptive.DuplicatedBound | router/rl/routing.py:360-372 | duplicated prefill is between 0 and (k - 1) prompts for k used workers, and 0 for a pack |
| Objective.ScoreIsWeightedSum | router/rl/routing.py:340-377 | the score is the weighted sum of: when the last used worker is done, the prompt tokens prefilled besides the least, the heaviest load over the mean one or over one token, and the longest queue |
| Objective.FinishIsDone | router/rl/routing.py:334-352 | a worker is done when everything queued and missing of the prompt is prefilled at its prefill rate, and everything active and expected decoded at its decode rate, each request expected between its prediction and its upper estimate as risk says |
| Objective.QueueTimeIsBacklog | router/rl/models.py:147-151 | the queue time is what its queued and active tokens take at its own rates |
| Objective.PrefillIsMissing | router/rl/models.py:144-145 | a worker prefills the prompt but for what it has cached of it, which is never less than nothing nor more than the prompt |
| Objective.OnlyTimeCounts | router/rl/routing.py:366-396 | with a weight on the makespan alone no candidate has its last worker done before the choice |
| Objective.OnlyExtraCounts | router/rl/routing.py:355-396 | with one on duplicated prefill alone no candidate prefills less again |
| Objective.OnlySkewCounts | router/rl/routing.py:367-396 | with one on skew alone no candidate is more even |
| Objective.OnlyWaitCounts | router/rl/routing.py:339-396 | with one on the wait alone no candidate keeps to shorter queues |
| Objective.NoWorkerAloneIsSooner | router/rl/routing.py:309-310 | with a weight on the makespan alone no single worker would be done with the whole group before the choice is |
| Routing.PlacementServesTheGroup | router/rl/routing.py:102-412 | for each policy modelled: placement fails exactly for a mixed group or with no eligible worker, and otherwise places each request once, on eligible workers listed once |
| Routing.PlacementIsCanonical | router/rl/routing.py:74-412 | for each policy modelled: permuting the requests or the workers gives the same placement exactly if both or neither orders are refused, which they are if the settings are pairwise close |
| Guarantees.PlacedIff | router/rl/routing.py:74-99 | for each policy: placement fails exactly for an empty or mixed group, a repeated sample, or no worker READY at the version and heard of in time; otherwise it is the decision on the requests in sample order and exactly those workers in id order |
| Guarantees.GroupIsMixedIff | router/rl/models.py:254-280 | a group is refused exactly if it is empty, differs from its first request in one of ten respects, the two real ones by more than a billionth of the larger, or repeats a sample |
| Guarantees.LeastQueuedDelivers | router/rl/routing.py:187-199 | the policy of that name: counting queued, active, prompt and whole expected tokens, no worker ends with more than 2 - 1/m times the most in any other assignment |
| Guarantees.LeastRequestsDelivers | router/rl/routing.py:208-217 | the policy of that name: counting running, queued and new requests, no other assignment has a smaller maximum |
| Guarantees.LoadProportionalDelivers | router/rl/routing.py:278-289 | the policy of that name: with each worker decoding at its own rate, the last is done within 1 + fast/slow - fast/total times the time of any other assignment |
| Guarantees.PackDelivers | router/rl/routing.py:142-163 | the policy of that name: the group goes to the worker that would have its queue and the prompt done first, then to the one running fewest requests, then to the first |
| Guarantees.RotationDelivers | router/rl/routing.py:126-178 | round-robin gives the k-th request to the worker k places after the one whose turn it is, the even split to the one k places after the first |
| Guarantees.AdaptiveDelivers | router/rl/routing.py:388-412 | the policy of that name: no candidate has a lower weighted sum of the four measures |
| Routing.GroupPolicy.PlaceGroup | router/rl/routing.py:119-412 | the decision is the policy's function of the gated group, and round-robin's offset advances once per placement |
| Routing.GroupPolicy.Deal | router/rl/routing.py:131-132 | the round-robin loop |
| Decimal.RoundTrips | router/rl/models.py:239-249 | an index printed as a key reads back as itself |
| Decimal.ShowAppends | router/rl/models.py:239 | the text is decimal: one more digit is appended for ten times as much |
| Groups.RekeyRoundTrips | router/rl/models.py:239-249 | a mapping whose keys are written out and read back is the same mapping |
| Groups.StoreRoundTrips | router/rl/models.py:234-251 | a group comes back from its snapshot as it was, except that failure reasons come back under text keys |
| Tracker.GroupTracker.Enroll | router/rl/tracker.py:42-71 | a mixed or incomplete group is refused, a conflicting re-registration too, a matching one returns the group there is, and a new one is created open and written |
| Tracker.GroupTracker.AssignWorkers | router/rl/tracker.py:73-77 | the sorted workers that were given requests are recorded |
| Tracker.GroupTracker.RecordResponse | router/rl/tracker.py:79-114 | which refusal applies, when a response is a repeat, and otherwise the group with it, READY if complete |
| Tracker.GroupTracker.RecordFailure | router/rl/tracker.py:116-124 | the sample is failed with its reason, and the group too if terminal |
| Tracker.GroupTracker.Sweep | router/rl/tracker.py:130-135 | exactly the open groups past their deadline are marked and returned |
| Tracker.GroupTracker.ExpireOverdue | router/rl/tracker.py:126-138 | and written if there are any |
| Tracker.GroupTracker.Write | router/rl/tracker.py:156-167 | the file becomes the snapshot, unless some group's reasons mix numbers and text, which raises and leaves it alone |
| Tracker.GroupTracker.Reopen | router/rl/tracker.py:35-40 | a new tracker holds what the file holds |
| Reports.RegistrationAnswers | router/rl/tracker.py:42-71 | a complete group of one kind is registered as its requests say, with its window and nothing recorded; one that is there is returned if version and size agree; any other is refused |
| Reports.DeadlineIsKept | router/rl/tracker.py:126-138 | over every history, restarts included: a group that was registered and written is swept exactly if it is still open and the window it was registered with is over (five minutes should its end come out as zero), and then dropped or failed as the sweep says |
| Reports.SweepDecides | router/rl/tracker.py:130-135 | exactly the open groups at or past their deadline are swept and named |
| Reports.ResponseAnswers | router/rl/tracker.py:79-114 | refused for a wrong index or version; a repeat exactly if the sample has a response to the same request, and otherwise refused; refused for another tokenizer or template; or recorded, with the failure of the sample cleared |
| Reports.FailureAnswers | router/rl/tracker.py:116-124 | the sample is failed with its reason and the group exactly if terminal, or refused for a wrong index |
| Reports.AssignmentAnswers | router/rl/tracker.py:73-77 | the workers recorded are exactly those given requests, in order |
| Barrier.RunKeepsSound | router/rl/tracker.py:79-138 | over every run: indices in range, responses of the group's version under their own index with one tokenizer and template, completed = recorded, and a READY group has all of 0..n-1 |
| Barrier.ResponsesAreWriteOnce | router/rl/tracker.py:90-107 | over every run no recorded response is changed or lost |
| Barrier.FullMeansAll | router/rl/models.py:225-227 | counting completed samples is as good as comparing them with 0..n-1 |
| Barrier.OpensExactlyWith | router/rl/tracker.py:97-112 | a group becomes READY exactly with its last missing response, if no other sample is marked as failed |
| Barrier.OpensAtMostOnce | router/rl/tracker.py:90-112 | and at most once in a run, never if it is already complete |
| Barrier.BlockedForGood | router/rl/tracker.py:107-124 | a complete group that is not READY never becomes so |
| Barrier.LateFailureShutsTheGroup | router/rl/tracker.py:116-124 | an input on which that happens: the first of two samples failed after it arrived |
| Barrier.OpensExactlyWhenCovered | router/rl/tracker.py:79-138 | without failure reports a group is READY exactly when the responses sent cover all its samples, in any order, repeated, and even if expired meanwhile |
| Restarts.RunIsSynced | router/rl/tracker.py:156-167 | a tracker never restarted always has its current state on disk |
| Restarts.WritesOrNothing | router/rl/tracker.py:156-167 | an accepted report changes memory whether or not it can be written, and is answered with a type error exactly if it cannot; any other changes nothing |
| Restarts.RecordIsFaithful | router/rl/tracker.py:156-179 | a sound group read back from its record is sound and is recorded the same again |
| Restarts.RestartIsSound | router/rl/tracker.py:156-179 | over every history with any number of restarts: groups are sound, the file can be read and brings back sound groups, and it is up to date exactly if what is in memory can be written |
| Restarts.RefusedWritesAreForgotten | router/rl/tracker.py:156-179 | reports since the last write that succeeded do not survive a restart |
| Restarts.WritableIffSettled | router/rl/tracker.py:116-167 | over any run the state can be written exactly if every failure reported for a group with reasons read from a file was followed by the sample's response |
| Restarts.StaleWhilePending | router/rl/tracker.py:116-167 | after a restart, whatever was before, the file is stale exactly while a failure reported since, about a group the file held reasons of, awaits its response |
| Restarts.RestartIsNeverNoticedIff | router/rl/tracker.py:156-179 | for every history, with the file stale or not: no continuation can tell a restarted tracker from the other one exactly if no group holds a failure reason filed since the last restart |
| Restarts.RestartIsTransparentIff | router/rl/tracker.py:156-179 | after every history, restarts included, whose last state could be written, and for all continuations: both trackers keep the same groups, and a restart goes unnoticed exactly if no report is accepted while failures reported since await responses and all of them are about groups whose reasons were first written by this snapshot; without a valid failure report about a group with reasons it always does, and if no group had been through a restart before it is noticed with the first such report |
| Restarts.NeverRestarted | router/rl/tracker.py:35-40 | a tracker never restarted always can be written and has no reasons from a file, so the above covers all its histories |
| Restarts.TroubleTellsThemApart | router/rl/tracker.py:116-167 | right after a restart such a report raises a type error and is not written; without the restart it is taken, unless its group had been through one before |
| Restarts.RestartedTrackerRefuses | router/rl/tracker.py:116-167 | the history: any group registered, any sample failed, a restart, any sample failed again, ends in the type error |
| Restarts.OneSampleIsEnough | router/rl/tracker.py:116-167 | the same with a concrete group of one sample |
| Telemetry.RLRouterMetrics.RecordDecision | router/rl/telemetry.py:32-39 | one more group routed, and the total of the per-worker counts grows by the number of requests |
| Telemetry.RLRouterMetrics.RecordGroup | router/rl/telemetry.py:41-52 | which counters a finished group adds to |
| Credits.StepCredits | router/rl/runtime.py:102-112 | each READY group is either counted, once, or known as missed: ready at the start, or made READY in a state that could not be written; what was counted stays complete with the same tokens |
| Credits.LedgerEntry | router/rl/runtime.py:106-111 | crediting the group a response made READY with its responses' tokens keeps the ledger balanced |
| Credits.LedgerMiss | router/rl/runtime.py:102-112 | and so does noting it as missed |
| Credits.OpeningIsAnsweredIff | router/rl/tracker.py:107-112 | a response that makes its group READY is answered with the group exactly if the state can be written, and with a type error otherwise |
| Credits.OpeningIsMissedIff | router/rl/tracker.py:107-124 | after a restart, whatever was before, that is exactly while a failure reported since, about a group the file held reasons of, awaits its response |
| Credits.EverythingIsCountedIff | router/rl/runtime.py:102-112 | for every file a process may start on: it answers, and so counts, every group it makes READY, whatever is reported to it, exactly if the file holds no failure reasons |
| Credits.TakenCounts | router/rl/runtime.py:108 | a response taken adds the tokens it says it generated to its group |
| Credits.TwoSamplesAreEnough | router/rl/tracker.py:107-124 | a concrete history: two groups of one sample, the first failed before and after a restart, and the second becomes READY with a type error for an answer |
| Runtime.RLRouterRuntime.constructor | router/rl/runtime.py:39-41 | starts from an empty state directory or from any file a tracker wrote, with nothing counted and the groups READY by then known as missed |
| Runtime.RLRouterRuntime.Route | router/rl/runtime.py:79-100 | which answer and which state, in order: refused by the tracker, not placed, placed and written, or placed and not writable; only a group placed and written is counted, and per-worker counts still sum to the sizes of the groups routed; the prefill the adaptive choice duplicates is counted with it |
| Runtime.RLRouterRuntime.Complete | router/rl/runtime.py:102-112 | a group is counted exactly if this response made it READY and the state could be written, and is missed if it could not; completed groups and tokens are those of exactly the groups counted, on whatever file the process started; its tokens count as fresh exactly if it is consumed at its own version or the next one |
| Runtime.PlacementCountsGroup | router/rl/routing.py:102-116 | a decision lists as many request ids as the group has requests |
| Runtime.PlacementListsGroup | router/rl/routing.py:102-116 | and lists each id as often as the requests of the group bear it |
| Runtime.StrategyNamesDiffer | router/rl/telemetry.py:35 | decisions of different policies are counted under different names |
| CacheIndex.CacheTracker.Record | router/policy.py:19-27 | the queue is the most recent entries recorded and the index counts exactly those; a negative bound raises an index error |
| CacheIndex.CacheTracker.EvictIfNeeded | router/policy.py:32-39 | entries leave oldest first until the queue fits, and none keeps a zero count |
| CacheIndex.CacheTracker.Score | router/policy.py:29-30 | the number of occurrences among the last max_entries recorded |

## Left out

- HTTP, Ray, slime, SGLang, iptables and subprocess code: their calls appear as free outcomes.
- Chaos injection other than the prefetch fault (actor death, network partition) and the checker's optional chaos sequences with their recovery times.
- Aliasing: the source shares worker, group and update objects between the runtime, the coordinator and its callers; here they are values in fields, so a caller holding an old reference is not modelled, except for the update an executor call began, which the model follows after another replaces it.
- `register_worker`, heartbeats that overwrite a worker's checksum, and those that overwrite a participant's lifecycle or version during an update: the protocol theorems are about runs without them; heartbeats of workers outside the update may report anything.
- Failures of the trace, state and audit files themselves, temp-file renames and fsync: a write is one step that succeeds, except for the type error of mixed keys.
- The audit log, the summary file, logging, and worker snapshots kept for audit only.
- JSON text: only the conversion of integer keys to text and back is modelled. Prefixed or padded version texts are read elsewhere: an engine report is a version, malformed, or missing.
- Hashes (sampling signature, retry seed, probe digests, fingerprints): values that can only be compared.
- The cache-aware and power-of-two group policies and the offline oracle, whose placements add no bound to prove, and the single-request policies of `router/policy.py`.
- Floating-point rounding: rates, lengths, scores and settings are reals, and `math.isclose` is its formula on them with the default tolerance.
- `asyncio` cancellation inside a thread call, and keyboard interrupts of the training driver.
- Threads: each lock-protected call is one step.
- Metrics snapshots, quantiles, latencies and the Prometheus text; dictionary order of restored groups, which no result depends on.
- The training driver's engines change version only in weight updates; whether they report the version they hold, and whether any call may fail, are parameters of the model.
- Evaluations, weight comparisons, saves and memory management of the training driver: calls that may fail; nothing is promised about when they are made.
- Objective weights are any reals; their defaults are not fixed.
- Executor.WeightUpdateExecutor.WaitDrained: the deadline comes after an arbitrary number of polls rather than at a clock time.
- Placement.LoadProportionalBound: stated for workers with empty queues and one decode rate; LoadProportionalQueuedBound and LoadProportionalRatesBound cover queues and unequal rates with larger factors.
- Restarts.RestartIsTransparentIff: compares answers without the failure reasons of the groups they carry, and characterises single continuations when the file is up to date; RestartIsNeverNoticedIff covers a stale file too, for all continuations at once.
- Executor.WeightUpdateExecutor.ExecuteDiskUpdate: participants do not report to the router themselves while the update is the coordinator's; once somebody begins another update nothing is promised.
