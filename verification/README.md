# Incidentary operator: a verified model

A Kubernetes operator watches workloads, turns changes into wire-format events, filters
and batches them, and sends them to an ingest service under an API key that can rotate.
This project models its decision logic in Dafny and proves what each part guarantees over
all inputs, all runs and all interleavings. `dafny verify dfyconfig.toml` checks it.

| part | modules |
|---|---|
| service matching and discovery | `EditDistance`, `Durations`, `Discovery`, `DiscoveryLoop` |
| change mappers, one call and whole runs | `Text`, `Sequences`, `Wire`, `Mapper`, `Conditions`, `Runs`, `DeploymentRuns`, `Rollbacks`, `Pairing`, `StatefulSetRuns`, `DaemonSetRuns`, `InfrastructureRuns`, `Naming` |
| owner walk to a service identity | `Identity` |
| filter and hand-off | `Filter`, `Pipeline`, `Delivery` |
| batcher, sequential and concurrent | `Batching`, `BatcherProtocol` |
| retry loop | `Retry` |
| credential rotation, one call and the whole protocol | `Rotation`, `RotationProtocol` |
| list-valued settings | `EnvList` |

Code that updates things in place is modelled by classes and methods (`Batcher`, `Handler`,
`HTTPClient`, `Reconciler`, `Provider`, `ConfigObject`, and the array loops of the edit
distance and of the filter). The rest is functions and lemmas. The concurrent batcher and the
rotation are step systems: taking a lock, touching the buffer, releasing, signalling, reading
a Secret, rotating and writing a status are separate steps, in any order the code allows.

What the outside world does is a parameter: the server's replies, elapsed time, jitter,
cancellation, list and read results, the cached objects, Secret contents, and the current time.

## Where the code differs from its documentation or from itself

The model follows the code in each case.

- Following the logged hint repairs the workload unless the suggested id is empty and the
  workload's name is not registered (`Discovery.HintRepairsIff`).
- Both backoffs double in 64 bits. For durations of 2^62 ns or more they wrap and become
  negative (`Durations.BackoffScheduleIff`, `DiscoveryLoop.WaitAfterEveryRunIff`).
- `internal/mapper/deployment.go:57-58` speaks of a scale to zero during an active rollout; the
  detector also fires for a completed one and stays silent when the same change is a rollback
  (`DeploymentRuns.ScaleToZeroMatchesRuleIff`). It speaks of a deletion while Progressing is
  True; a completed rollout is excluded (`DeploymentRuns.DeleteMatchesRuleIff`).
- `internal/mapper/deployment.go:49-50` ties DEPLOY_STARTED to a new revision together with the
  reason NewReplicaSetCreated; the detector fires on either one while a Progressing condition
  exists (`DeploymentRuns.StartMatchesRuleIff`, `DeploymentRuns.StartOutsideRule`).
- A DaemonSet reports a success whenever its Pods catch up, also when a node joined and nothing
  was started (`DaemonSetRuns.RunIsPairedIff`, `DaemonSetRuns.NewNodeUnpairs`).
- A failed lookup drops a whole notification, and later ones do not make up for it
  (`DeploymentRuns.RolloutRunIff`, `InfrastructureRuns.PodEventsCountEntriesIff`,
  `StatefulSetRuns.RunTracksIff`, `StatefulSetRuns.LostStartUnpairs`).
- `internal/client/ingest.go:217-219` calls 4xx other than 429 permanent; so is every other
  unexpected status that reaches the switch, a 204 or a 304 included (`Retry.VerdictMatchesRuleIff`).
- A Secret event that meets a failed list is forgotten until the periodic reconcile
  (`RotationProtocol.FailedListLeavesStaleKey`). With nothing queued the key in use is stale
  exactly when the Secret's key is not the one that a reconcile last read
  (`RotationProtocol.IdleConvergedIff`).
- A StatefulSet whose revisions meet before its last replica is ready is never reported as
  succeeded (`StatefulSetRuns.SuccessesCountIff`, `StatefulSetRuns.LateReadinessIsNotReported`).
- A Node resolves differently by object and by key (`Identity.ResolveRefAgreesIff`).
- A Running status write records the time and is itself an event on the watched config. With a key
  present and no Secret event lost, the operator always has a step left to do for as long as the
  recorded time keeps moving, instead of waiting out its interval (`RotationProtocol.NeverRests`,
  `RotationProtocol.WriteIsSilentIff`); it rests when a write repeats the recorded time
  (`RotationProtocol.EveryScheduleRests`), or on an outdated read after a lost event
  (`RotationProtocol.WorkingStepRestsIff`, `RotationProtocol.LostEventAllowsRest`).

## Model

| member | source | states |
|---|---|---|
| `EditDistance.Levenshtein` | internal/discovery/reconciler.go:364-392 | for all byte strings, the two exchanged rows yield the length of a shortest insert/delete/substitute script: such a script exists and none is shorter |
| `EditDistance.TwoRows` | internal/discovery/reconciler.go:373-391 | the table after every byte of `a` is the row of distances from that prefix, so the last cell is the distance; rows are arrays, swapped |
| `EditDistance.FillRow` | internal/discovery/reconciler.go:379-388 | the inner loop overwrites `curr` with the row that follows `prev`, `prev` untouched |
| `EditDistance.Min3` | internal/discovery/reconciler.go:394-405 | the result is one of the three arguments and at most each of them |
| `EditDistance.DistIsEditDistance` | internal/discovery/reconciler.go:364-392 | the recurrence is the minimum over all edit scripts, both halves |
| `EditDistance.NoScriptIsShorter` | internal/discovery/reconciler.go:364-392 | every script that turns `a` into `b` is at least as long as the distance |
| `EditDistance.ShortestScript` | internal/discovery/reconciler.go:364-392 | a script of exactly that length exists, constructed from the recurrence |
| `EditDistance.DistZeroIffEqual` | internal/discovery/reconciler.go:364-392 | metric law: zero exactly for equal strings |
| `EditDistance.DistSymmetric` | internal/discovery/reconciler.go:364-392 | metric law: symmetry |
| `EditDistance.DistTriangle` | internal/discovery/reconciler.go:364-392 | metric law: the triangle inequality |
| `EditDistance.DistBounds` | internal/discovery/reconciler.go:364-392 | the distance lies between the length difference and the longer length |
| `Durations.BackoffIsCappedPower` | internal/discovery/reconciler.go:172-175 | below 2^62 ns, doubling in 64 bits and capping k times is min(initial * 2^k, cap) |
| `Durations.BackoffWraps` | internal/client/ingest.go:192-195 | once the value or the cap reaches 2^62 ns, a later doubling wraps to a negative backoff |
| `Durations.BackoffScheduleIff` | internal/client/ingest.go:192-195 | the capped exponential describes every step if and only if both durations are below 2^62 ns |
| `Discovery.BuildIndex` | internal/discovery/reconciler.go:182-187 | the loop builds the last-wins lookup map and the list of all ids in order |
| `Discovery.IndexFindsLast` | internal/discovery/reconciler.go:182-187 | looking up an id finds the last entry registered under it |
| `Discovery.IndexedIsRegistered` | internal/discovery/reconciler.go:182-187 | only registered ids are found |
| `Discovery.FuzzyMatch` | internal/discovery/reconciler.go:346-360 | a suggestion is the first candidate at minimum distance and within the threshold; false is returned if and only if no candidate is within it |
| `Discovery.ClassifyByLastEntry` | internal/discovery/reconciler.go:306-342 | each of the four classes if and only if its condition on the registered list: the last entry under the id decides matched or ghost, otherwise the age decides new or mismatched |
| `Discovery.ClassifyWithHint` | internal/discovery/reconciler.go:306-342 | a hint is given exactly to mismatched workloads with a registered id at distance two or less, and it is the suggestion |
| `Discovery.HintRepairsIff` | internal/discovery/reconciler.go:298-360 | a suggestion is one or two edits away, and annotating the workload with it makes it matched or ghost if and only if it is non-empty or the workload name itself is registered |
| `Discovery.EmptyHintRepairsNothing` | internal/discovery/reconciler.go:298-360 | a concrete workload whose suggested id is empty and that stays mismatched after following it |
| `Discovery.TopologyAgreesIff` | internal/discovery/loop.go:282-329 | the topology id and the reconciler id agree if and only if the cached object leads to the listed id, or it cannot be read and the listed id is the name |
| `Discovery.TopologyAgreesOnStored` | internal/discovery/loop.go:282-297 | they agree, and agree with the resolver, when the cache holds what was listed |
| `DiscoveryLoop.Reconciler.constructor` | internal/discovery/reconciler.go:90-114 | a new reconciler waits its interval and has zero gauges |
| `DiscoveryLoop.Reconciler.RunOnce` | internal/discovery/reconciler.go:157-229 | one poll changes the backoff as the cycle function says; each gauge is set to the number of workloads that meet its own condition in a complete cycle and kept otherwise; it fails exactly when a list fails |
| `DiscoveryLoop.Tally` | internal/discovery/reconciler.go:194-207 | the counting loop counts each class |
| `DiscoveryLoop.BackoffAfterRun` | internal/discovery/reconciler.go:163-180 | after any sequence of polls the backoff is the doubling schedule at the number of empty lists since the last non-empty one; list errors do not count |
| `DiscoveryLoop.WaitAfterEveryRunIff` | internal/discovery/reconciler.go:163-180 | after every run the wait is the interval, or min(interval * 2^k, 30 min) after k empty lists, if and only if the interval is below 2^62 ns |
| `DiscoveryLoop.CountsPartition` | internal/discovery/reconciler.go:194-214 | the four counts add up to the number of workloads |
| `DiscoveryLoop.GaugesAfterRun` | internal/discovery/reconciler.go:157-229 | after any run the gauges are the four class counts of the last complete cycle and add up to its workloads; failed and empty cycles leave them alone |
| `DiscoveryLoop.GaugesCountClasses` | internal/discovery/reconciler.go:194-214 | after any run each gauge counts the workloads of the last complete cycle by condition: last entry under the id instrumented, or not; id not registered and at least the interval and 30 seconds old, or younger |
| `Batching.AdmitCount` | internal/batch/batcher.go:171-204 | how many events fit: never past the drop threshold, and something is refused only when the threshold is reached |
| `Batching.Batcher.constructor` | internal/batch/batcher.go:125-148 | an empty buffer, no signal, default batch size |
| `Batching.Batcher.WithMaxBatchSize` | internal/batch/batcher.go:109-119 | non-positive sizes are ignored, large ones clamped |
| `Batching.Batcher.Enqueue` | internal/batch/batcher.go:171-204 | a prefix joins the end of the buffer, the rest is counted as dropped, and the signal is raised when the batch size is reached |
| `Batching.Batcher.FlushNow` | internal/batch/batcher.go:252-313 | the whole buffer leaves as one batch and is not put back on failure; the capture mode changes only on a sent batch that asks for it |
| `BatcherProtocol.StepKeepsInv` | internal/batch/batcher.go:171-260 | each of the sixteen goroutine steps keeps the conjunction of mutex, flow, accounting, batch, wakeup and drain invariants |
| `BatcherProtocol.StepKeepsMutex` | internal/batch/batcher.go:171-260 | every step keeps: exactly the holder of the mutex is inside a critical section |
| `BatcherProtocol.StepKeepsFlow` | internal/batch/batcher.go:171-260 | every step keeps: batches taken, in order, then the buffer, are the admitted events, each call having admitted a prefix |
| `BatcherProtocol.StepKeepsAccount` | internal/batch/batcher.go:171-204 | every step keeps: offered = admitted + counted drops + drops about to be counted |
| `BatcherProtocol.StepKeepsBatches` | internal/batch/batcher.go:252-279 | every step keeps: taken batches are those with an outcome followed by the one in flight, none empty |
| `BatcherProtocol.StepKeepsWakeup` | internal/batch/batcher.go:190-248 | every step keeps the no-lost-wakeup invariant |
| `BatcherProtocol.StepKeepsDrain` | internal/batch/batcher.go:217-260 | every step keeps: after the final drain looked, exactly what was admitted until then has been taken |
| `BatcherProtocol.RunKeepsInv` | internal/batch/batcher.go:171-260 | every run, of any length and interleaving, keeps the invariants |
| `BatcherProtocol.ReachableInv` | internal/batch/batcher.go:125-260 | they hold in every state reachable with any number of enqueuers and any positive batch size |
| `BatcherProtocol.NoLostWakeup` | internal/batch/batcher.go:190-248 | in every reachable state with a full batch buffered there is a token in the channel, an enqueuer about to send one, or a flush committed to looking at the buffer |
| `BatcherProtocol.FifoConservation` | internal/batch/batcher.go:171-260 | in every reachable state: FIFO, nothing lost or invented after admission, prefixes admitted, drops accounted for, buffer bounded |
| `BatcherProtocol.BatchesSentOnce` | internal/batch/batcher.go:252-279 | each taken batch is in flight or has exactly one outcome; none is empty or above the drop threshold |
| `BatcherProtocol.MutualExclusion` | internal/batch/batcher.go:171-260 | two goroutines are never both inside a critical section |
| `BatcherProtocol.DrainGuarantee` | internal/batch/batcher.go:217-248 | when Start has returned, everything admitted before the cancellation was taken and only events admitted after the final drain looked remain |
| `BatcherProtocol.QuietStepDescends` | internal/batch/batcher.go:171-260 | every step other than a tick, a new call or a cancellation lowers the rank |
| `BatcherProtocol.QuietRunsAreFinite` | internal/batch/batcher.go:171-260 | so every schedule without them is finite, no longer than the rank of its start |
| `BatcherProtocol.SomeScheduleSettles` | internal/batch/batcher.go:171-260 | and some schedule goes on until no such step is left |
| `BatcherProtocol.SettledMeans` | internal/batch/batcher.go:171-260 | where none is left, no call is in progress, and Start has returned, or is not cancelled and selects without a token on less than a full batch |
| `BatcherProtocol.EveryScheduleFlushes` | internal/batch/batcher.go:190-260 | from every reachable state, every schedule without ticks, new calls and cancellations ends; at its end Start has returned or less than a full batch is buffered, and if a flush was due, by cancellation, a full batch or a select case taken, everything admitted by then has been taken |
| `BatcherProtocol.EagerFlushNeedsNoTick` | internal/batch/batcher.go:190-248 | in particular a full batch can always be flushed without a tick |
| `BatcherProtocol.EveryTickFlushes` | internal/batch/batcher.go:226-248 | from every reachable state in which the loop selects, a tick leads every schedule to take everything admitted so far |
| `BatcherProtocol.TickTakesBuffer` | internal/batch/batcher.go:226-248 | and some run from there takes it without ever receiving a token |
| `BatcherProtocol.CancellationDrains` | internal/batch/batcher.go:228-237 | after a cancellation every schedule makes Start return, with everything admitted before the cancellation taken, and everything admitted until now if the final drain has not looked |
| `BatcherProtocol.StartCanReturn` | internal/batch/batcher.go:217-248 | from every reachable state some run makes Start return |
| `BatcherProtocol.StepKeepsOwnOrder` | internal/batch/batcher.go:171-204 | every step keeps: the decided calls of a goroutine, then the one it is in the middle of, are the calls it made |
| `BatcherProtocol.OwnPartOfLog` | internal/batch/batcher.go:171-204 | the part of the admitted events that came from one goroutine is what its own calls admitted |
| `BatcherProtocol.EachGoroutineInOrder` | internal/batch/batcher.go:171-260 | in every reachable state and for every goroutine: among the batches taken and the buffer its events are those its own calls admitted, in the order of the calls, each a prefix of what was offered |
| `BatcherProtocol.SoloEnqueue` | internal/batch/batcher.go:171-204 | an undisturbed call, step by step, has the effect that the sequential Enqueue promises, whether it is empty, fits, is cut short or finds the buffer full |
| `Pipeline.Handler.constructor` | cmd/pipeline.go:36-45 | threshold and batcher as given, both counters zero |
| `Pipeline.Handler.Compact` | cmd/pipeline.go:77-88 | writing survivors through the array being read leaves exactly the accepted subsequence in order, the tail untouched, and only the tier 2 counter moves, by the number removed |
| `Pipeline.Handler.Emit` | cmd/pipeline.go:59-93 | every mapped event is filtered, buffered or counted as dropped, in order; a mapper error changes nothing; tier 1 is never filtered |
| `Filter.KeepExactly` | cmd/pipeline.go:77-88 | the kept elements are those at exactly the accepted positions, in increasing order |
| `Filter.HigherThresholdShrinks` | internal/filter/severity.go:94-102 | raising the threshold only removes events, and filtering twice is filtering at the higher one |
| `Filter.ThresholdByName` | internal/filter/severity.go:49-102 | a named severity passes a named threshold if and only if it is not milder in the documented order; unknown names count as warning |
| `Filter.MappedEventPasses` | internal/filter/severity.go:70-102 | with the severities the mappers assign, tier 1 and DEPLOY_* always pass and exactly pod lifecycle and rollout progress are silenced, exactly above info |
| `Filter.DeployKindsHaveDeployDomain` | internal/wireformat/v2.go:125-137 | the five DEPLOY_* kinds are in the deployment domain |
| `Filter.DomainByPrefix` | internal/wireformat/v2.go:125-137 | the domain of every kind with one of the known prefixes |
| `Filter.LifecycleKindsAreInfrastructure` | internal/wireformat/v2.go:125-137 | DEPLOY_ROLLOUT, despite its name, and the pod lifecycle kinds are infrastructure, tier 2 and info |
| `Retry.HTTPClient.constructor` | internal/client/ingest.go:144-160 | the documented defaults |
| `Retry.HTTPClient.WithMaxRetries` | internal/client/ingest.go:118-124 | a negative ceiling is ignored |
| `Retry.HTTPClient.WithRetryBackoff` | internal/client/ingest.go:127-139 | each non-positive duration is ignored on its own |
| `Retry.HTTPClient.Flush` | internal/client/ingest.go:166-215 | for every server, clock, jitter and cancellation: an honest result, and requested sleeps that sum to at most the retry window; a nil batch sends nothing |
| `Retry.RetryLoop` | internal/client/ingest.go:175-214 | the loop ends with an honest result, number of attempts and list of sleeps |
| `Retry.Rest` | internal/client/ingest.go:177-195 | the sleep before an attempt: refused past the deadline, interrupted by the context, or slept and the backoff doubled |
| `Retry.TryIsHonest` | internal/client/ingest.go:197-210 | what an attempt leads to: accepted, permanent, cancelled, or one more failure |
| `Retry.StopIsHonest` | internal/client/ingest.go:177-190 | running out of attempts, passing the deadline, or a cancelled sleep ends honestly |
| `Retry.HonestMeans` | internal/client/ingest.go:166-215 | at least one and at most maxRetries + 1 attempts; success or rejection if and only if the last attempt ended so, nothing sent after either; all earlier attempts retryable; each sleep is the scheduled one |
| `Retry.HonestIsUnique` | internal/client/ingest.go:166-215 | for given settings and world there is one honest result, number of attempts and list of sleeps, so the contract of Flush determines it |
| `Retry.HonestStopsOnce` | internal/client/ingest.go:166-215 | no honest run stops before another |
| `Retry.JitterFormulaInRange` | internal/client/ingest.go:179-180 | the jitter factor, over the reals, stays within 20% of the backoff |
| `Retry.DrawsStayInRange` | internal/client/ingest.go:179-180 | draws in [0, 1) put into the formula keep every jittered backoff in the 20% band |
| `Retry.SleepsNearSchedule` | internal/client/ingest.go:179-195 | for durations below 2^62 ns, every sleep of every call is within 20% of min(initial * 2^k, cap) and never above the cap |
| `Retry.VerdictIs` | internal/client/ingest.go:220-266 | accepted if and only if 200 or 202 with an empty or readable body; worth a retry if and only if a network or read error, 429 or at least 500; permanent otherwise |
| `Retry.AttemptMadeIff` | internal/client/ingest.go:175-214 | attempt k is made if and only if the ceiling allows it and every attempt before it was worth a retry and slept through |
| `Retry.SecondAttemptIff` | internal/client/ingest.go:175-214 | a second request is sent if and only if retries are allowed, the first answer is worth one, the context lives on and the first sleep fits into the window |
| `Retry.ResultByReply` | internal/client/ingest.go:197-214 | success and rejection in terms of the last answer, all earlier answers worth a retry |
| `Retry.VerdictMatchesRuleIff` | internal/client/ingest.go:217-266 | an attempt gets the documented verdict if and only if it is a network error, a 200 or 202 with an empty or readable body, or a status from 400 to 599 |
| `Retry.NoContentIsRejected` | internal/client/ingest.go:217-266 | a 204 and a 304 are rejected for good although the rule does not call them permanent |
| `Identity.ResolveReachesTop` | internal/identity/resolver.go:116-283 | the walk fails if and only if a read on the owner path fails; otherwise it returns the identity of the top of the path |
| `Identity.OwnerHasSameIdentity` | internal/identity/resolver.go:218-283 | identity does not change along an owner edge |
| `Identity.PodReplicaSetDeploymentAgree` | internal/identity/resolver.go:116-283 | a Pod, its ReplicaSet and its Deployment share the identity of the Deployment |
| `Identity.ResolveRefAgreesIff` | internal/identity/resolver.go:116-193 | resolving a stored object and resolving its key agree if and only if it is not a Node |
| `Identity.ControllerOwnerIsFirstMarked` | internal/identity/resolver.go:288-300 | the first reference marked as controller wins; otherwise the first reference; none only without references |
| `Identity.ResolveRefMeans` | internal/identity/resolver.go:143-193 | resolving a key in full: found like the object, missing is no service, unreadable is an error, a Node is its own name, an empty name or another kind is no service |
| `Naming.OwnNames` | internal/identity/resolver.go:197-214 | an object is named by its non-empty annotation, else by its own name |
| `Naming.PodEventsNameTop` | internal/mapper/infrastructure.go:542-552 | a Pod event names the top of the owner path, and is lost only when the path cannot be read |
| `Naming.PodEventsSay` | internal/mapper/infrastructure.go:485-580 | a Pod event gives the reason: started, that of the first terminated container, or completed, OOMKilled or failed |
| `Naming.SetEventsNameCached` | internal/mapper/deployment.go:538-547 | StatefulSet and DaemonSet events name the service by the cached object |
| `Naming.NodeEventsNameNode` | internal/mapper/infrastructure.go:373-403 | Node events name the Node |
| `Naming.ScaleEventsSay` | internal/mapper/infrastructure.go:422-473 | a scale event names the target, or the autoscaler without one, and says which way and to what count |
| `Naming.SeverityByKind` | internal/mapper/infrastructure.go:94-120 | the severity of every kind |
| `Mapper.FromNodeConditionChange` | internal/mapper/infrastructure.go:333-371 | the loop yields the pressure events of the specification that the next rows fix, not-ready last |
| `Conditions.FindConditionMeans` | internal/mapper/infrastructure.go:406-413 | the search finds the first condition of its type, and nothing if and only if there is none |
| `Conditions.UnhealthyMeans` | internal/mapper/infrastructure.go:333-371 | not ready means that the first Ready condition exists and is anything but True; a pressure means that its first condition is True |
| `Conditions.RolloutStatusMeans` | internal/mapper/infrastructure.go:700-715 | each of the five rollout statuses if and only if its condition on the first Progressing condition holds |
| `DeploymentRuns.DispatchShape` | internal/mapper/mapper.go:101-111 | a Deployment dispatch is lost if and only if the lookup fails; otherwise it is the rollout event, if the status changed, then the DEPLOY_* events |
| `DeploymentRuns.DispatchReportsStatus` | internal/mapper/infrastructure.go:643-653 | the one rollout status reported by a dispatch, if any |
| `DeploymentRuns.RolloutRunIff` | internal/mapper/infrastructure.go:643-715 | over every run the emitted rollout statuses are the observed statuses without repetitions, from "", if and only if no status change coincides with a failed lookup |
| `DeploymentRuns.LastRolloutIsLastStatus` | internal/mapper/infrastructure.go:643-715 | the last emitted status is then the status of the last observation |
| `DeploymentRuns.DeleteResult` | internal/mapper/deployment.go:154-185 | deleting a Deployment yields one cancellation exactly while its status is progressing |
| `DeploymentRuns.DeleteCancelsIffProgressing` | internal/mapper/mapper.go:126-135 | after a run without lost changes, deleting the last observed object emits one DEPLOY_CANCELLED if the last emitted status is progressing, and nothing otherwise |
| `DeploymentRuns.FailedMeansStatusFailed` | internal/mapper/deployment.go:419-435 | the failure detector and the separately written rollout status agree: failed now, not before, and not a success |
| `DeploymentRuns.FailureReportedIff` | internal/mapper/deployment.go:419-435 | a failure is reported if and only if the status failed is entered, the change is no rollback and the deadline was not the reason before |
| `DeploymentRuns.FailuresCountIff` | internal/mapper/deployment.go:419-435 | over every run the DEPLOY_FAILED number the entries into the status failed if and only if none meets a failed lookup, a rollback or an earlier deadline reason |
| `DeploymentRuns.SuccessesCountIff` | internal/mapper/deployment.go:391-415 | over every run the DEPLOY_SUCCEEDED number the completions, the first Progressing condition having just come to say NewReplicaSetAvailable, and never exceed them, if and only if none meets a failed lookup, a rollback, an unavailable Deployment or a replica not updated or not ready |
| `DeploymentRuns.DispatchIsConsistent` | internal/mapper/mapper.go:101-111 | in every dispatch DEPLOY_FAILED follows a rollout event "failed" and never comes with DEPLOY_SUCCEEDED; DEPLOY_ROLLED_BACK is the only DEPLOY_* event |
| `DeploymentRuns.TerminalStep` | internal/mapper/deployment.go:391-435 | a success or failure is emitted only when its Progressing reason has just appeared |
| `DeploymentRuns.DispatchEmitsKindOnce` | internal/mapper/mapper.go:101-111 | a dispatch emits each kind at most once |
| `DeploymentRuns.TerminalEventsAreSeparated` | internal/mapper/deployment.go:391-435 | two successes, or two failures, among the events of any run come from different notifications, with an observation between them that has another Progressing reason |
| `DeploymentRuns.SuccessCanRepeat` | internal/mapper/deployment.go:391-415 | a concrete run with two successes and no new revision: the reason only has to leave and come back |
| `DeploymentRuns.RollbackIsAlone` | internal/mapper/deployment.go:80-97 | a rollback is emitted if and only if it is detected, and then it is the only event |
| `Rollbacks.ParsesNumber` | internal/mapper/deployment.go:331-352 | blanks, a sign, a decimal number and anything after it parse as that number when it fits 64 bits |
| `Rollbacks.ParsesNoNumber` | internal/mapper/deployment.go:331-352 | blanks, perhaps a sign, and then no digit parse as no number |
| `Rollbacks.FallingRevisionIff` | internal/mapper/deployment.go:319-339 | with decimal revisions and an unchanged change-cause, DEPLOY_ROLLED_BACK is emitted if and only if the new number is smaller |
| `Rollbacks.WordyRevisionIff` | internal/mapper/deployment.go:319-339 | with a revision that is no number, if and only if the new text comes first in dictionary order |
| `Rollbacks.RollbackCauseIff` | internal/mapper/deployment.go:319-327 | with no revision to compare, or the same one, if and only if the change-cause is new and spells rollback in any case |
| `Rollbacks.RollbackCauseSuffices` | internal/mapper/deployment.go:319-327 | a new change-cause that spells rollback is enough whatever the revisions |
| `Rollbacks.TenFollowsNine` | internal/mapper/deployment.go:331-339 | ten after nine is no rollback, two after three is one |
| `Rollbacks.DeployEventsSay` | internal/mapper/deployment.go:355-360 | every DEPLOY_* event carries its reason and the revision, as a number when it is one, as text when it starts like none, not at all when empty |
| `DeploymentRuns.DeployEmitsKind` | internal/mapper/deployment.go:99-150 | without a rollback, a kind is emitted if and only if its own detector fires |
| `DeploymentRuns.DispatchIdsAgreeIff` | internal/mapper/deployment.go:538-547 | all events of a dispatch carry one service id if and only if the status did not change, no detector fires, or the cached and the observed annotations call for the same id |
| `DeploymentRuns.TwoIDsInOneDispatch` | internal/mapper/deployment.go:538-547 | a concrete dispatch whose two events name two services |
| `DeploymentRuns.TrueStatusMeans` | internal/mapper/infrastructure.go:700-715 | the Progressing condition is True exactly in the two statuses progressing and complete |
| `DeploymentRuns.ScaleToZeroMatchesRuleIff` | internal/mapper/deployment.go:439-453 | for every change, the cancellation follows the documented rule if and only if it is neither a completed rollout scaled to zero without a rollback nor a progressing one scaled to zero by a rollback |
| `DeploymentRuns.RolledBackScaleToZeroIsSilent` | internal/mapper/deployment.go:82-97 | a concrete progressing Deployment scaled to zero by a rollback, not reported as cancelled |
| `DeploymentRuns.DeleteMatchesRuleIff` | internal/mapper/deployment.go:154-185 | a deletion is reported as documented if and only if the rollout is not complete and no report meets a failed lookup |
| `DeploymentRuns.OnlyDeploymentsReportDeletion` | internal/mapper/mapper.go:126-135 | deletions of anything else are silent |
| `DeploymentRuns.StartMatchesRuleIff` | internal/mapper/deployment.go:363-388 | for every change, adds and rollbacks included, DEPLOY_STARTED is emitted as documented if and only if the annotations and Progressing conditions satisfy StartFollowsRule |
| `DeploymentRuns.StartOutsideRule` | internal/mapper/deployment.go:363-388 | two concrete changes reported as starts that the documented rule does not cover |
| `DeploymentRuns.StableScaleToZeroIsReported` | internal/mapper/deployment.go:439-453 | a concrete stable Deployment whose scale to zero is reported as cancelled although its deletion is not |
| `StatefulSetRuns.OpenStartIsOpenRevision` | internal/mapper/deployment.go:189-253 | over every run the open start among the events is the one that observations and failed lookups call for |
| `StatefulSetRuns.StepIs` | internal/mapper/deployment.go:189-253 | one notification emits nothing when its lookup fails, otherwise at most one start or one success, with the update revision |
| `StatefulSetRuns.RunTracksIff` | internal/mapper/deployment.go:189-253 | in every run, while the revisions differ the latest DEPLOY_STARTED with no success after it names the update revision, after every notification, if and only if each start lost to a failed lookup had its revision open already |
| `StatefulSetRuns.RunIsPairedIff` | internal/mapper/deployment.go:189-253 | in every run each DEPLOY_SUCCEEDED has its own DEPLOY_STARTED if and only if every reported success finds a reported rollout under way |
| `StatefulSetRuns.TrackingPairs` | internal/mapper/deployment.go:189-253 | the first condition implies the pairing |
| `StatefulSetRuns.LostStartUnpairs` | internal/mapper/deployment.go:189-253 | a concrete run in which a start lost to a failed lookup leaves a success without a start |
| `StatefulSetRuns.StartsCountIff` | internal/mapper/deployment.go:206-229 | over every run the DEPLOY_STARTED number the beginnings of rollouts if and only if none coincides with a failed lookup |
| `StatefulSetRuns.SuccessesCountIff` | internal/mapper/deployment.go:235-250 | over every run the DEPLOY_SUCCEEDED number the convergences of the revisions, and never exceed them, if and only if none coincides with a failed lookup or a replica that is not ready |
| `StatefulSetRuns.LateReadinessIsNotReported` | internal/mapper/deployment.go:235-250 | a concrete rollout that finishes with its last replica late and is never reported, every lookup working |
| `Pairing.PairedAppendIff` | internal/mapper/deployment.go:189-311 | appending an event keeps the pairing if and only if a success finds an open start |
| `DaemonSetRuns.StepIs` | internal/mapper/deployment.go:257-311 | one notification emits nothing when its lookup fails, otherwise at most one start or one success |
| `DaemonSetRuns.RunIsPairedIff` | internal/mapper/deployment.go:257-311 | in every run each DEPLOY_SUCCEEDED has its own DEPLOY_STARTED if and only if every reported success finds a reported rollout under way |
| `DaemonSetRuns.NewNodeUnpairs` | internal/mapper/deployment.go:257-311 | a concrete run, every lookup working, in which a node joins and a success is reported without a start |
| `DaemonSetRuns.EventsCountIff` | internal/mapper/deployment.go:257-311 | over every run starts number the risen generations with Pods to update, and successes the times its Pods caught up, if and only if none coincides with a failed lookup |
| `InfrastructureRuns.PressureEventsCount` | internal/mapper/infrastructure.go:333-371 | one notification reports a condition once if it turned unhealthy, and not otherwise |
| `InfrastructureRuns.NodePressureCountsRisingEdges` | internal/mapper/infrastructure.go:323-413 | over every Node run the events for memory, disk, PID and not-ready each number the rising edges of that condition, an unhealthy first observation included |
| `InfrastructureRuns.NotReadyEventsCount` | internal/mapper/infrastructure.go:354-367 | over every Node run the NotReady events number the observations whose first Ready condition exists and is not True, Unknown included, while the one before had none such |
| `InfrastructureRuns.PressureEventsOverRun` | internal/mapper/infrastructure.go:338-352 | over every Node run the events of each pressure number the observations whose first condition of that type is True while the one before had none such |
| `InfrastructureRuns.PodEventsCountEntriesIff` | internal/mapper/infrastructure.go:485-540 | over every Pod run the started, terminated and OOM events each number the entries into the phases they describe, if and only if no such entry coincides with an unreadable owner |
| `InfrastructureRuns.ScaleRunIsCompressed` | internal/mapper/infrastructure.go:422-473 | over every autoscaler run the reported replica counts are the observed ones without repetitions and without the baseline |
| `Runs.RepeatIsQuiet` | internal/mapper/mapper.go:87-117 | dispatching an object of any kind against itself emits nothing, under any store |
| `Runs.StutterInsensitive` | internal/mapper/mapper.go:87-117 | what a run emits depends only on the run without repetitions |
| `Runs.ResyncChangesNothing` | internal/mapper/mapper.go:87-117 | inserting a resync anywhere in a run, under any store, changes nothing that is emitted |
| `Runs.RevisionLessIrreflexive` | internal/mapper/deployment.go:331-339 | no revision precedes itself |
| `Runs.CountsMarksIff` | internal/mapper/mapper.go:72-121 | events that mark steps number the marks if and only if no marked step is lost (generic in the detector) |
| `Runs.ReportedIsCompressedIff` | internal/mapper/mapper.go:72-121 | values reported on change are the compressed values if and only if no change is lost (generic in the detector) |
| `Delivery.RunBuilt` | internal/mapper/infrastructure.go:94-120 | every event of every run has a known kind and the severity fixed for that kind |
| `Delivery.DeliveredRun` | cmd/pipeline.go:59-93 | of every run the filter passes everything at info and below, and above it exactly what is neither pod lifecycle nor rollout progress |
| `Delivery.FilterPerNotification` | cmd/pipeline.go:59-93 | filtering notification by notification is filtering the whole run |
| `Delivery.OfferedRun` | cmd/pipeline.go:47-93 | over every run the batcher is offered, notification by notification, exactly the events that pass by the rule above |
| `Delivery.AdmitInParts` | internal/batch/batcher.go:171-204 | offering events in parts or at once fills the buffer alike |
| `Delivery.HandleRun` | cmd/pipeline.go:47-93 | the handler called for every notification of a run leaves the offered events in the buffer, in order, until it is full, and accounts for each event of the run as buffered, dropped or filtered |
| `Rotation.Provider.constructor` | internal/client/provider.go:46-57 | the three clients as given, no workspace |
| `Rotation.Provider.Rotate` | internal/client/provider.go:94-114 | all three clients and the workspace come from the one call; an empty key installs three stubs |
| `Rotation.Provider.OnKeyRevoked` | internal/client/provider.go:75-82 | three stubs, workspace kept |
| `Rotation.ConfigObject.constructor` | internal/controller/incidentaryconfig_controller.go:148-160 | a fetched config object with its spec and status |
| `Rotation.ConfigObject.MarkDegraded` | internal/controller/incidentaryconfig_controller.go:266-291 | degraded with the reason, time of the last reconciliation kept, retried later |
| `Rotation.ConfigObject.Reconcile` | internal/controller/incidentaryconfig_controller.go:148-260 | with a non-empty key all three clients hold it, the phase is Running at the given time and the delay is the seconds of the spec or 300; otherwise three stubs, Degraded with the reason of the case, the time kept, 30 seconds |
| `Rotation.FindConfigsForSecret` | internal/controller/incidentaryconfig_controller.go:320-334 | exactly the listed configs that reference the Secret, in order; none when the list fails |
| `RotationProtocol.StepKeepsInv` | internal/controller/incidentaryconfig_controller.go:148-334 | each step of watches, queue, worker, users and failures keeps: work is pending, an event was lost, or what the worker has read and done fits the current objects |
| `RotationProtocol.StepKeepsSeenInv` | internal/controller/incidentaryconfig_controller.go:148-334 | each step keeps, lost events or not: while no config event or request is pending, the clients and, when idle, the phase follow what was last read |
| `RotationProtocol.RunKeepsInv` | internal/controller/incidentaryconfig_controller.go:148-334 | every run keeps both |
| `RotationProtocol.ReachableInv` | cmd/config.go:112-128 | both hold in every state reachable from startup, with or without an initial key |
| `RotationProtocol.IdleConvergedIff` | internal/controller/incidentaryconfig_controller.go:148-334 | in every reachable state with the worker idle and no config event or request pending, lost Secret events or not: phase and clients are those of what was last read, they are the ones the Secret calls for if and only if the key in the Secret is the one last read, and it differs only after a Secret event that was lost or is not delivered yet |
| `RotationProtocol.QuietMeansConverged` | internal/controller/incidentaryconfig_controller.go:148-334 | so in every reachable state at rest with no event lost: Running if and only if the Secret holds a key, and then all three clients hold it with the workspace of the spec; otherwise all three drop |
| `RotationProtocol.ClientsNeverMix` | internal/client/provider.go:75-114 | in every reachable state the three clients come from one rotation |
| `RotationProtocol.LastReconciliationMovesOnlyOnRunning` | internal/controller/incidentaryconfig_controller.go:230-291 | the recorded time moves only with a status write that reports Running |
| `RotationProtocol.OperatorKeepsSpec` | internal/controller/incidentaryconfig_controller.go:148-334 | no step of the operator, failing or not, edits the Secret or the spec |
| `RotationProtocol.FailuresAreRetried` | internal/controller/incidentaryconfig_controller.go:148-260 | a failed read of the config, a failed write and a conflict change nothing and ask for another reconcile |
| `RotationProtocol.UnreadableSecretDegrades` | internal/controller/incidentaryconfig_controller.go:170-200 | a Secret that cannot be read drops the clients, is reported as ReadError and tried again |
| `RotationProtocol.SecretEventQueuesIff` | internal/controller/incidentaryconfig_controller.go:320-334 | a Secret event asks for a reconcile if and only if the config refers to that Secret and the list works |
| `RotationProtocol.RevocationDrops` | internal/client/provider.go:75-82 | a revoked key drops all three clients and keeps the workspace |
| `RotationProtocol.ReconcileIsIdempotent` | internal/controller/incidentaryconfig_controller.go:148-260 | a second reconcile at the same time changes nothing but the version of the object |
| `RotationProtocol.WriteIsSilentIff` | internal/controller/incidentaryconfig_controller.go:232-291 | a successful status write causes no config event if and only if the stored status already says the same, for a Running one the very time included |
| `RotationProtocol.WorkingStepRestsIff` | internal/controller/incidentaryconfig_controller.go:148-291 | with a key present and a moving clock, a working step leads to rest, meaning that no step is left to do, if and only if it repeats a degraded status that an outdated read calls for, which takes a lost Secret event |
| `RotationProtocol.WorkingStepStaysRestless` | internal/controller/incidentaryconfig_controller.go:232-254 | with a key present and no Secret event lost, a working step whose status write moves the recorded time leaves a step to do |
| `RotationProtocol.NeverRests` | internal/controller/incidentaryconfig_controller.go:148-260 | with a key present and no Secret event lost, no run of working steps in which every status write moves the recorded time ever reaches a state with no step left to do |
| `RotationProtocol.RestNeedsRepeatedTime` | internal/controller/incidentaryconfig_controller.go:232-254 | from a state with a key, a step to do and no Secret event lost, a run of working steps that reaches rest contains a write that repeats the recorded time |
| `RotationProtocol.StartedOperatorChurns` | internal/controller/incidentaryconfig_controller.go:344-355 | from startup with a good Secret, for every n, a run of n reconciles, one per clock reading, that has not come to rest |
| `RotationProtocol.EveryScheduleRests` | internal/controller/incidentaryconfig_controller.go:148-334 | without edits and with working reads, lists and writes, every schedule ends and ends at rest: without a key always, with a key when all status writes carry one clock reading |
| `RotationProtocol.OperatorCanComeToRest` | internal/controller/incidentaryconfig_controller.go:148-334 | from every state with a config, with all status writes at one clock reading, a requeue and working steps lead to rest with nothing missed or revoked |
| `RotationProtocol.FailedListLeavesStaleKey` | internal/controller/incidentaryconfig_controller.go:320-334 | a concrete reachable state at rest that is not converged: the old key is still in use after a Secret event met a failed list |
| `RotationProtocol.LostEventAllowsRest` | internal/controller/incidentaryconfig_controller.go:320-334 | a concrete reachable state with a key and a lost Secret event from which a run with a moving clock does come to rest |
| `EnvList.ParseStringSliceEnv` | cmd/config.go:45-61 | the loop returns the trimmed, non-blank pieces, or nil for a blank variable or no piece |
| `EnvList.ParsedAreItems` | cmd/config.go:45-61 | whatever is parsed is a non-empty list of trimmed, non-blank, comma-free strings |
| `Text.SpaceCodePoints` | cmd/config.go:46-53 | what counts as space when trimming: the code points with the White_Space property |
| `EnvList.TrimDropsSpaces` | cmd/config.go:46-53 | spaces around a text with space-free edges: trimming gives the text |
| `EnvList.TrimPads` | cmd/config.go:46-53 | every string is its trimmed text with spaces around |
| `EnvList.ParseOfPieces` | cmd/config.go:45-61 | the parse of any comma-free pieces joined by commas is the trimmed pieces that are not blank, in order, or nil when there is none |
| `EnvList.BlanksAreDropped` | cmd/config.go:41-61 | the documented example with blanks around and between |
| `EnvList.SplitUndoesJoin` | cmd/config.go:50-58 | splitting a comma join of such strings gives them back |
| `EnvList.JoinUndoesSplit` | cmd/config.go:50-58 | joining the pieces of any string gives the string back |
| `EnvList.ParseUndoesJoin` | charts/incidentary-operator/templates/deployment.yaml:66-69 | what the chart joins, the operator reads back |
| `EnvList.ParseIsStable` | cmd/config.go:45-61 | parse, join, parse is parse |
| `EnvList.RoundTripIff` | charts/incidentary-operator/templates/deployment.yaml:66-69 | a non-empty list survives join and parse if and only if all its members are trimmed, non-blank and comma-free |

## Left out

- HTTP, JSON, TLS, logging, metrics registration, flags and manager wiring: input and output.
- Kubernetes Event objects, their reason table and series (`FromK8sEvent`, `FromCoreEvent`): table lookups with easy members only.
- Event ids, timestamps and attributes that no proved property mentions.
- Leader election: provided by the client library.
- Concurrent readers of the discovery gauges: the loop is modelled sequentially.
- Topology report contents other than the service id (workload exclusion, safe annotations, images).
- Workload listing in the reconciler: a poll carries the listed workloads or a failure.
- Endpoint URLs and the user agent of the rotated clients.
- Several configs at once: the rotation protocol has one config; `FindConfigsForSecret` handles any list.
- 32-bit wrap-around of gauges, counters and replica counts.
- Invalid UTF-8 in environment values, and the byte length of service ids: a `char` stands for one byte.
- The batch deadline of a flush and of the final drain: a request in flight ends with some outcome.
- The reply of a batch is read as sent or failed with its capture mode; accepted and dropped counts are not kept.
- A panic inside the mapper: the model's mapper is total.
- Marshalling failure of a batch: the modelled batches always marshal.
- The workload counts copied into the config status, and the resolution of its time: the model's status time is the time as stored.
- Retry.JitterFormulaInRange: the product is taken over the reals, because the rounding of 64-bit floats is not modelled.
- Retry.SleepsNearSchedule: the jittered backoff may be any value in the 20% band, which the real-valued formula stays in; the rounding of 64-bit floats is not modelled.
- Retry.DrawsStayInRange: over the reals as well, for the same reason.
