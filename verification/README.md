# Kubervisor in Dafny

Kubervisor is a circuit breaker for pods that works by relabelling them. This project models its
decision-making and proves what it keeps over whole runs:

- **Leader election.** N electors and one lock record as a transition system in which every call is split
  into reading the clock, `Get`, observing and deciding, the write, and its answer (`LeaseProtocol`). The
  elector object (`ElectorObject`) takes exactly these steps, whatever the others do in between.
  `LeaseGranularity` finds how far apart an elector's calls and which durations the lease needs;
  `CallSchedule`, `ScheduledRace` and `ScheduledLease` find which configurations keep that distance.
- **The circuit breaker.** Pods with their labels and annotations (`Pods`, `PodControl`), the discrete
  anomaly detector (`Detector`), the breaker's tick (`Breaker`), the activator's tick (`Activator`), and all
  of them interleaved over an unbounded fleet (`FleetRuns`).
- **The orphan collector** (`GarbageCollector`), **pod reconciliation** (`Reconciliation`, `ReconciledItems`),
  **configuration comparison** (`ItemConfig`) and **status conditions** (`StatusConditions`).

Objects whose methods update fields are classes, and loops are loops; each method is proved equal to a
specification function, and the lemmas about runs are lemmas about that function. Runs are sequences of
actions: a step that is not enabled changes nothing, so every sequence is a run.

## Environment

- Clocks run at the same rate with arbitrary offsets, as the package comment of leaderelection.go assumes.
  `Get` returns the record of one moment; a `Create` is applied only if there is no record, an `Update` only
  if no write was accepted since the `Get` it is based on. Calls may fail, answers may be lost, and a write
  that its elector gave up on may still be applied later.
- A stored record keeps whole seconds (`MarshalJSON` of metav1.Time in the vendored client), while an
  elector compares and renews with the exact clock. `gap` is the least distance between the clock readings of
  two calls of one elector, at least one tick. `CallSchedule` derives it from RetryPeriod and RenewDeadline:
  timers fire on time, calls may last arbitrarily long, and a restarted elector makes its first call at least
  a second after the last one of its predecessor.
- Pod listings are up to date. A pod update is accepted only if the stored pod is still the one it was
  computed from. A breaker tick and an activator step on one pod are atomic. The API may refuse any update;
  detectors may answer anything: duplicates, foreign pods, pods already cut.

## Where the code does less than it seems to

- The lease is only safe if calls of one elector read its clock at least a second apart
  (`LeaseGranularity.LeaseSafeIff`). A renewal within the second of the record it renews stores the same
  record again, so records recur (`LeaseGranularity.RecordsOrderedIff`), other electors do not see it, and one
  of them takes the lease over at the very moment it was renewed (`LeaseGranularity.LostRenewal`).
- Whether calls are that far apart is not a matter of RetryPeriod alone. `wait.Poll` calls once more when
  RenewDeadline is over, right after a failed call at its last tick. The lease is safe, and no record recurs,
  exactly if RenewDeadline modulo RetryPeriod is a second or more (`ScheduledLease.ScheduledSafeIff`,
  `ScheduledLease.ScheduledRecordsIff`). `NewLeaderElector` does not check this: 15s, 10s and 2s are accepted
  and fail (`ScheduledLease.AcceptedUnsafe`). The controller's own 15s, 5s and 3s are safe
  (`ScheduledLease.ControllerIsSafe`).
- Windows of RenewDeadline counted from the exact clock readings never meet exactly if RenewDeadline modulo
  RetryPeriod is a second or more, or RenewDeadline + 1s is at most LeaseDuration
  (`ScheduledLease.ScheduledClaimsIff`). Counted from the stored RenewTime they always need that second
  (`ScheduledLease.ScheduledWindowsIff`).
- Reconciliation settles in one pass exactly if the service does not select by `kubervisor/name`, or selects
  by the item's own name (`Reconciliation.SettlesIff`).
- MinPodsAvailableRatio bounds each tick, not the run: repeated cuts end at MinPodsAvailableCount
  (`Breaker.Convergence`).
- Several items settle together in two rounds if no two of the same name fight, and two items exactly then
  (`ReconciledItems.SettleTogether`, `ReconciledItems.SettleTogetherIff`): the cleaner looks at all namespaces, so it strips, round after round,
  the pods of an item of the same name elsewhere whose service does not select by `kubervisor/name` and lacks
  one of its own service's labels (`ReconciledItems.FightNeverEnds`).

## Model

| member | source | states |
|---|---|---|
| LeaderElection.NewLeaderElector | pkg/leaderelection/leaderelection.go:70-84 | a configuration is accepted exactly if it has a lock, RenewDeadline < LeaseDuration and 1.2 * RetryPeriod < RenewDeadline |
| LeaderElection.Trunc | vendor/k8s.io/apimachinery/pkg/apis/meta/v1/time.go:138-146 | a stored timestamp is at most the exact one and less than a second before it |
| LeaderElection.TruncWhole | vendor/k8s.io/apimachinery/pkg/apis/meta/v1/time.go:138-146 | a stored timestamp is a number of whole seconds |
| LeaderElection.SuccessorIs | pkg/leaderelection/leaderelection.go:235-276 | a written record names the elector, its lease in whole seconds and its time; a renewal keeps acquisition time and transitions, a takeover starts anew and counts one more transition |
| LeaseProtocol.LeaseWaitedOut | pkg/leaderelection/leaderelection.go:258-276 | an elector that is not blocked by another holder's lease sends a write only leaseDuration after a record equal to the one it replaces was accepted |
| LeaseProtocol.StepInv | pkg/leaderelection/leaderelection.go:233-286 | every step of every elector keeps the invariant over the lock's history, all writes ever sent and all electors' observations, however close calls are |
| LeaseProtocol.LeaseExclusion | pkg/leaderelection/leaderelection.go:233-286 | in every run of electors whose calls are a second apart, when one holder's record is replaced by another's, every earlier write is at least leaseDuration old, whatever calls failed and answers were lost |
| LeaseProtocol.TenureStartsLate | pkg/leaderelection/leaderelection.go:258-285 | every claim of a later holder, its renewals included, was made at least leaseDuration after the RenewTime of every record of an earlier one, and after that record was accepted if calls are a second apart |
| LeaseProtocol.ValidityWindows | pkg/leaderelection/leaderelection.go:70-84 | in every run the windows of RenewDeadline of different holders never meet, from the clock readings and from the stored RenewTime, if RenewDeadline + 1s <= LeaseDuration; from the clock readings also if only RenewDeadline < LeaseDuration but calls are a second apart |
| LeaseProtocol.LockHistory | pkg/leaderelection/leaderelection.go:234-285 | in every run LeaderTransitions counts the holder changes, AcquireTime is the RenewTime of the tenure's first record, (LeaderTransitions, RenewTime) never decreases; it strictly increases and no record recurs if calls are a second apart, and only then (RecordsOrderedIff) |
| LeaseProtocol.ObservationMovesForward | pkg/leaderelection/leaderelection.go:258-296 | from any reachable state on, the lock's history, an elector's place in it and its reports only grow; its observed record is the one at that place; leaders reported in a row differ |
| LeaseSteps.ClaimSucceeds | pkg/leaderelection/leaderelection.go:258-285 | any elector renews its own record, and takes over one it has seen stand for leaseDuration |
| LeaseSteps.BlockedCall | pkg/leaderelection/leaderelection.go:258-268 | a call that finds a changed record of another holder observes it from that moment and sends nothing |
| LeaseSuccess.SuccessHolds | pkg/leaderelection/leaderelection.go:233-286 | in every reachable state an elector whose last call succeeded is the writer of the record it has seen last, which that call wrote, observes it, and counts from the end of that call |
| LeaseGranularity.LostRenewal | pkg/leaderelection/leaderelection.go:258-285 | if calls may be less than a second apart, a run takes over a lease that was renewed at that moment |
| LeaseGranularity.LeaseSafeIff | pkg/leaderelection/leaderelection.go:233-286 | lease exclusion holds in all runs exactly if the clock readings of one elector's calls are at least a second apart |
| LeaseGranularity.RecordsOrderedIff | pkg/leaderelection/leaderelection.go:258-285 | (LeaderTransitions, RenewTime) strictly increases, and no record recurs, in all runs exactly if calls of one elector are at least a second apart |
| LeaseGranularity.ClaimedWindowsIff | pkg/leaderelection/leaderelection.go:70-84 | windows from the clock readings are disjoint in all runs exactly if calls are a second apart or RenewDeadline plus a second is at most LeaseDuration |
| LeaseGranularity.StoredWindowsIff | pkg/leaderelection/leaderelection.go:70-84 | windows from the stored RenewTime are disjoint for all clock offsets and runs exactly if RenewDeadline plus a second is at most LeaseDuration, however far apart calls are |
| CallSchedule.StartsApart | vendor/k8s.io/apimachinery/pkg/util/wait/wait.go:307-371 | consecutive calls on schedule start no closer than what is left of RenewDeadline after its last tick, or one right after the other if that is nothing |
| CallSchedule.ScheduledRun | pkg/leaderelection/leaderelection.go:189-226 | a run on schedule is one of electors whose calls are a second apart, if RenewDeadline modulo RetryPeriod is a second |
| ScheduledRace.RaceOnSchedule | pkg/leaderelection/leaderelection.go:189-286 | if RenewDeadline modulo RetryPeriod is less than a second, a renewal at the last tick whose answer is missed is followed on schedule by one at the deadline that stores the same record, and by a takeover |
| ScheduledLease.RaceFails | pkg/leaderelection/leaderelection.go:212-286 | that run violates lease exclusion and the order of the records |
| ScheduledLease.ScheduledSafeIff | pkg/leaderelection/leaderelection.go:189-286 | lease exclusion holds in all runs on schedule exactly if RenewDeadline modulo RetryPeriod is at least a second |
| ScheduledLease.ScheduledRecordsIff | pkg/leaderelection/leaderelection.go:189-286 | (LeaderTransitions, RenewTime) strictly increases, and no record recurs, in all runs on schedule exactly if RenewDeadline modulo RetryPeriod is at least a second |
| ScheduledLease.ScheduledClaimsIff | pkg/leaderelection/leaderelection.go:70-84 | windows from the clock readings are disjoint in all runs on schedule exactly if RenewDeadline modulo RetryPeriod is at least a second or RenewDeadline plus a second is at most LeaseDuration |
| ScheduledLease.ScheduledWindowsIff | pkg/leaderelection/leaderelection.go:70-84 | windows from the stored RenewTime are disjoint for all clock offsets and runs on schedule exactly if RenewDeadline plus a second is at most LeaseDuration |
| ScheduledLease.ControllerIsSafe | pkg/controller/controller.go:52-54 | the controller's durations are accepted and safe in all these respects |
| ScheduledLease.AcceptedUnsafe | pkg/leaderelection/leaderelection.go:70-84 | 15s, 10s and 2s are accepted, and on schedule the lease can be lost and records recur |
| ElectorObject.Lock.Write | vendor/k8s.io/client-go/tools/leaderelection/resourcelock/configmaplock.go:63-93 | a write is accepted only over the version it is based on, and its answer may be lost |
| ElectorObject.LeaderElector.TryAcquireOrRenew | pkg/leaderelection/leaderelection.go:233-286 | the fields and the lock after a call, with writes of others between `Get` and its own write and after it, are those of AfterCall; exactly when it succeeds; and after success the elector observes its own record, written by this call |
| ElectorObject.CallRuns | pkg/leaderelection/leaderelection.go:233-286 | a call that others interleave with in any way is a run of the transition system, and AfterCall is where it ends |
| ElectorObject.LeaderElector.IsLeader | pkg/leaderelection/leaderelection.go:184-186 | in every reachable world of this elector: true exactly if the record of the lock's history that it has seen last was its own |
| LeaseSteps.ObservesItself | pkg/leaderelection/leaderelection.go:184-286 | the same about any elector of a reachable world |
| ElectorObject.LeaderElector.MaybeReportTransition | pkg/leaderelection/leaderelection.go:288-296 | it takes the Report step and leaves the observed holder reported |
| Decimal.AtoiItoa | pkg/pod/control.go:80-87 | what Itoa writes Atoi reads back, for all integers |
| Decimal.AtoiAccepts | pkg/labeling/breaker.go:34-43 | what is accepted as a retry count: an optional sign and at least one digit |
| Decimal.AtoiReads | pkg/labeling/breaker.go:34-43 | digits are read as decimal places |
| Pods.BrokenReads | pkg/pod/control.go:72-94 | a break fails exactly on an unreadable retry count; otherwise the pod is out of traffic under the given name and strategy, one more break is counted and the time is kept to the second |
| Pods.OperationsWrite | pkg/pod/control.go:62-134 | the labels and annotations each operation writes or removes, whatever the pod carried, and that it changes nothing else |
| Pods.TrafficIsLabel | pkg/labeling/traffic.go:32-58 | the traffic state is the label's value yes, no or pause, and anything else is an error |
| Pods.ScanReady | pkg/pod/tools.go:30-39 | a pod is ready exactly if its phase is Running and the first of its conditions of type Ready has status True |
| Pods.FilterOut | pkg/pod/tools.go:10-22 | the loop returns the pods not excluded, or the first error |
| Pods.FirstError | pkg/pod/tools.go:10-22 | a filter that fails returns the error of the first pod its predicate fails on |
| Pods.FilteredOutKeeps | pkg/pod/tools.go:10-22 | a filter fails exactly if the predicate fails on some pod, and otherwise keeps exactly the pods not excluded, once each |
| Pods.FilterKeepsOrder | pkg/pod/tools.go:10-22 | the pods kept stay in order |
| Pods.PurgeAfterKeepRunning | pkg/pod/tools.go:25-44 | purging pods that are not ready after keeping the running ones is purging alone |
| Pods.WithTrafficKeeps | pkg/pod/tools.go:25-55 | the pods a breaker counts are those that run, whose first Ready condition is True and that are labelled traffic=yes; counting fails exactly on an unlabelled ready pod |
| Pods.ExcludedKeeps | pkg/pod/tools.go:58-73 | exactly the pods whose namespace and name do not occur in the other slice remain |
| PodControl.Control.InitBreakerAnnotationAndLabel | pkg/pod/control.go:62-69 | an accepted call stores the pod initialized; a refused one changes nothing |
| PodControl.Control.UpdateBreakerAnnotationAndLabel | pkg/pod/control.go:72-94 | an accepted call stores the pod broken; an unreadable retry count or a refused call changes nothing |
| PodControl.Control.UpdateActivationLabelsAndAnnotations | pkg/pod/control.go:97-108 | an accepted call stores the pod with traffic=yes and nothing else changed |
| PodControl.Control.UpdatePauseLabelsAndAnnotations | pkg/pod/control.go:111-122 | an accepted call stores the pod with traffic=pause and nothing else changed |
| PodControl.Control.RemoveBreakerAnnotationAndLabel | pkg/pod/control.go:125-134 | an accepted call stores the pod without name label and annotations |
| PodControl.Control.KillPod | pkg/pod/control.go:137-143 | an accepted call deletes the pod |
| PodControl.OperationsCount | pkg/pod/control.go:50-134 | no sequence of operations on an untouched pod fails; the retry annotation parses to the number of breaks since the last removal and everything else is as it was |
| PodControl.LabelRoundTrip | pkg/pod/control.go:50-134 | removal after any operations gives back the original pod except for the traffic and strategy labels |
| Detector.BuildCounters | pkg/anomalydetector/prometheus.go:42-59 | the loop counts exactly the pods the samples name, each with the sums of its good and bad samples |
| Detector.CountersByLabels | pkg/anomalydetector/factory.go:56-60 | a pod's good sum is that of its samples with a good value, or without a bad one if only those are configured, and its bad sum that of all others; with neither configured all are bad |
| Detector.CountersConserve | pkg/anomalydetector/prometheus.go:42-59 | the per-pod sums add up to the total of the vector |
| Detector.TotalPermuted | pkg/anomalydetector/prometheus.go:42-59 | sums do not depend on the order of the samples |
| Detector.RatioAbove | pkg/anomalydetector/discretevalueanalyser.go:77-80 | the truncated percentage exceeds the tolerance exactly if 100 * ko >= (tolerance + 1) * (ok + ko) |
| Detector.GetPodsOutOfBounds | pkg/anomalydetector/discretevalueanalyser.go:38-89 | exactly the ready traffic=yes pods of the listing with enough activity and too many bad samples, once each; fails exactly on an unlabelled ready pod, a failing query, or a division by zero |
| Detector.OutOfBoundsAre | pkg/anomalydetector/discretevalueanalyser.go:70-87 | what is out of bounds, in terms of pod, labels and configuration: traffic, enough activity, and a share of bad samples of more than the tolerance |
| Detector.GoodAndBadPods | pkg/anomalydetector/discretevalueanalyser.go:70-87 | a pod with only good values never is; one with only bad values and enough activity always is, if the tolerance is below 100 |
| Detector.OutOfBoundsPermuted | pkg/anomalydetector/discretevalueanalyser.go:70-87 | the same pods are out of bounds in any order of the samples |
| Breaker.BreakerImpl.ComputeMinAvailablePods | pkg/breaker/breaker.go:132-145 | the minimum covers the count and the ratio's whole number of pods, and is one of the two |
| Breaker.BreakerImpl.Tick | pkg/breaker/breaker.go:66-112 | one tick cuts the first pods detected, as many as the budget allows, and nothing if detection fails or a managed ready pod has no valid traffic label |
| Breaker.TrafficKeysAre | pkg/breaker/breaker.go:83-97 | the pods counted are those of the namespace and selector that run, are ready and are labelled traffic=yes |
| Breaker.CutWhichever | pkg/breaker/breaker.go:107-111 | whatever is detected among pods with traffic and whatever the API refuses, exactly the current pods that an update not refused names, and whose retry count can be read, are broken, once |
| Breaker.TickFloor | pkg/breaker/breaker.go:78-111 | a tick with any detected pods and any refusals leaves at least the minimum of pods with traffic, or as many as there were |
| Breaker.ExactCut | pkg/breaker/breaker.go:83-111 | with the built-in detector and no failing update a tick breaks exactly min(out of bounds, max(0, n - minimum)) distinct pods with traffic and changes no other |
| Breaker.DiscreteTick | pkg/breaker/breaker.go:66-112 | detection and cut in sequence: the pods broken are out of bounds, as many as the budget allows, and no other pod changes; none if detection fails |
| Breaker.Convergence | pkg/breaker/breaker.go:98-111 | if every pod with traffic is detected at each tick, their number strictly falls and stops at exactly MinPodsAvailableCount |
| Activator.ActivatorImpl.ApplyActivatorStrategy | pkg/activate/activator.go:105-168 | the store after the strategy was applied to a pod, with the paused pods listed anew before each pause |
| Activator.ActivatorImpl.Tick | pkg/activate/activator.go:74-86 | a tick applies the strategy to each pod listed with traffic=no in turn |
| ActivatorRuns.PeriodicStep | pkg/activate/activator.go:122-128 | Periodic: a broken pod is put back exactly if its break is longer ago than the period, and left alone otherwise |
| ActivatorRuns.RetryStep | pkg/activate/activator.go:134-139 | with retries left: put back exactly if the period times the breaks counted has passed, and left alone otherwise |
| ActivatorRuns.ExhaustedStep | pkg/activate/activator.go:129-158 | with retries used up: deleted, or in RetryAndPause paused while fewer than MaxPauseCount pods are |
| ActivatorRuns.OtherStep | pkg/activate/activator.go:105-168 | unreadable annotations, no period, an unknown mode or a refused update leave the pod alone, and every other pod is left alone in any case |
| ActivatorRuns.PausedKeysAre | pkg/activate/activator.go:140-147 | the paused pods that count are the managed ones labelled traffic=pause |
| ActivatorRuns.DeparturesAreExhausted | pkg/activate/activator.go:129-158 | in every run, whatever is detected and refused, a step that deletes or pauses a pod is one of a retrying activator that finds its retries used up, and within the pause budget exactly if it pauses |
| ActivatorRuns.PeriodicKeeps | pkg/activate/activator.go:122-128 | in every run with Periodic activators no pod is deleted or paused |
| FleetRuns.TickIsRun | pkg/activate/activator.go:74-86 | an activator tick is a run of single steps, each on a pod still as listed |
| FleetRuns.TrafficFloor | pkg/breaker/breaker.go:78-111 | in every run the managed ready traffic=yes pods never drop below min(initial number, smallest MinPodsAvailableCount) |
| FleetRuns.PauseBudget | pkg/activate/activator.go:140-158 | in every run the paused pods never exceed max(initial number, largest MaxPauseCount) |
| FleetRuns.ReactivationBound | pkg/activate/activator.go:105-168 | with retrying activators a pod that starts unbroken is put back in traffic at most MaxRetryCount times, even if detectors break cut or paused pods |
| FleetRuns.BrokenPodLeaves | pkg/activate/activator.go:129-166 | in every run a broken pod has changed once a retrying activator that finds it due has made an accepted step; if it is then as it was, it is put back, paused within the budget, or deleted when its retries are used up |
| FleetRuns.TickClears | pkg/activate/activator.go:74-168 | after a tick of a retrying activator that finds all broken pods due and whose updates are accepted, no managed pod has traffic=no and no other pod has changed |
| FleetRuns.LeftDecreases | pkg/activate/activator.go:129-166 | a measure of the transitions left to a pod falls with every transition |
| FleetRuns.Termination | pkg/activate/activator.go:129-166 | if only pods with traffic are cut, a fresh pod undergoes at most MaxRetryCount + 1 breaks, MaxRetryCount reactivations and one pause or deletion, and no other transition |
| FleetRuns.BackOffTotal | pkg/activate/activator.go:118-139 | a fresh pod put back r times was out of traffic for period + 2 * period + ... + r * period less at most 998 milliseconds for each time, which is more than that sum less r seconds |
| FleetRuns.BackOffSum | pkg/activate/activator.go:134-139 | that sum is period * r * (r + 1) / 2 |
| GarbageCollector.KeyRoundTrip | pkg/controller/gc.go:88-104 | building a key and splitting it again is a round trip exactly for slash-free namespaces and names |
| GarbageCollector.Collector.UpdateCounters | pkg/controller/gc.go:60-94 | the counters of the pods that name a missing service go up by one; a failing listing changes nothing |
| GarbageCollector.Collector.CleanPods | pkg/controller/gc.go:96-121 | exactly the due pods that can be looked up and updated are cleaned, and their counters removed |
| GarbageCollector.Collector.Tick | pkg/controller/gc.go:50-53 | the two in sequence |
| GarbageCollector.CounterCountsMisses | pkg/controller/gc.go:60-121 | in every run, whatever fails, a counter is the number of missed ticks since the last clean-up |
| GarbageCollector.OrphanCollection | pkg/controller/gc.go:60-121 | if calls succeed all counters stay below the threshold, and a pod is cleaned exactly at the miss that reaches it, while its service is missing |
| GarbageCollector.CleanedNamesMissing | pkg/controller/gc.go:60-121 | what is cleaned is a pod of the cluster that carries the name of a service of its namespace that is not listed |
| GarbageCollector.ServedNeverCleaned | pkg/controller/gc.go:80-94 | a pod without a name, or whose service is listed at every tick, is never counted or cleaned |
| GarbageCollector.OrphanCleaned | pkg/controller/gc.go:80-121 | a pod that names a missing service for threshold ticks in a row, counting from zero, is cleaned at the last |
| GarbageCollector.DueIs | pkg/controller/gc.go:96-115 | a pod is due exactly if it is counted up to the threshold and its lookup and clean-up do not fail |
| GarbageCollector.CleanedStoreIs | pkg/controller/gc.go:96-121 | a clean-up removes the name label and both annotations of the due pods and changes no other pod |
| Reconciliation.Controller.PodsCleaner | pkg/controller/controller.go:478-503 | exactly the pods that carry the item's name without being selected are cleaned |
| Reconciliation.Controller.InitializePods | pkg/controller/controller.go:505-544 | exactly the selected pods of the namespace that lack a label are initialized |
| Reconciliation.Controller.Reconcile | pkg/controller/controller.go:434-445 | the cleaner, then the initialization unless an update of the cleaner was refused, and whether all updates were accepted |
| Reconciliation.CleanerByLabels | pkg/controller/controller.go:478-503 | by labels: the cleaner strips, unless refused, exactly the pods that carry the item's name without the service's labels |
| Reconciliation.InitializeByLabels | pkg/controller/controller.go:505-544 | by labels: the initialization names, unless refused, exactly the pods of the namespace with the service's labels that lack one of Kubervisor's |
| Reconciliation.PassByLabels | pkg/controller/controller.go:434-544 | what a pass makes of every pod, by its labels; no pod outside the namespace is named |
| Reconciliation.FixedPoint | pkg/controller/controller.go:478-544 | one pass labels every selected pod and leaves the name only on selected ones, a second changes nothing, and labelled selected pods are never changed |
| Reconciliation.SettlesIff | pkg/controller/controller.go:478-544 | one pass settles every cluster exactly if the selector leaves the name label to the item |
| ReconciledItems.SettleTogether | pkg/controller/controller.go:434-544 | any number of items that do not fight settle every cluster in two rounds, in whatever order, and a third changes nothing |
| ReconciledItems.FightNeverEnds | pkg/controller/controller.go:478-544 | two items that fight have a cluster that no number of rounds settles |
| ReconciledItems.SettleTogetherIff | pkg/controller/controller.go:478-544 | two items that settle alone settle every cluster together exactly if they do not fight: they have different names, or each selects by kubervisor/name or by all other labels the other selects by |
| ItemConfig.GetBreakerByStrategyName | pkg/controller/item/types.go:121-128 | the first breaker of that name, or none |
| ItemConfig.AugmentedRequires | pkg/labeling/breaker.go:46-57 | an augmented selector requires what the input does, and the Kubervisor name |
| ItemConfig.AugmentedAgree | pkg/labeling/breaker.go:46-57 | augmented selectors agree exactly if the selectors have the same requirements |
| ItemConfig.CompareWithSpec | pkg/controller/item/types.go:131-148 | no difference exactly if the default activators agree, the lists are equally long and every new breaker matches the one of its name |
| ItemConfig.Pigeonhole | pkg/controller/item/types.go:135-147 | distinct elements of an equally long list, all from another, are a permutation of it |
| ItemConfig.SameConfiguration | pkg/controller/item/types.go:59-71 | that comparison holds exactly if the default activators are equal, the selectors have the same requirements and the new breakers are a permutation of the old |
| ItemConfig.CompareWithNewSpec | pkg/controller/item/types.go:131-148 | the same end to end, for an item built from a specification |
| StatusConditions.UpdateStatusCondition | pkg/controller/utils.go:86-103 | the loop refreshes every condition and appends the new one only if its type is absent |
| StatusConditions.UpdateLeaves | pkg/controller/utils.go:24-83 | the type, reason and message each of the three updates reports; every condition is probed and true exactly if it is of that type, and nothing else of it changes |
| StatusConditions.ConditionsInvariant | pkg/controller/utils.go:40-103 | any sequence of updates keeps types unique, in order and otherwise as they were, leaves exactly the last type true, and never touches start time and pod counts |

## Left out

- Kubernetes clients, informers, queues, the HTTP server, metrics, logging, the kubectl plugin and generated code: replaced by a store of pods, up-to-date listings and refused calls.
- Tickers, goroutines and wait groups: a tick is one step; `Start` and `Stop` of an item are not modelled.
- Mutual exclusion of leader callbacks: the package does not promise it and `renewWithStop` keeps looping after a failed renewal; only the lock record is modelled.
- Listings that lag behind the store: a stale activator could delete a pod by name that another one has put back.
- The continuous-deviation and custom detectors: their answers are arbitrary detected pods in `FleetRuns`.
- Defaulting, and validation other than unique breaker names: activator limits are taken as set; a missing one is a nil dereference in the code.
- Machine overflow: counts and sample amounts are unbounded; periods are whole milliseconds.
- Pods.BrokenReads: the breakAt annotation's text is its decimal number of seconds, not its calendar rendering, because only the precision matters here.
- Detector.Amount: what a negative sample is converted to is a parameter, because Go leaves it to the platform; the run-time panic of a division by zero is an error result.
- CallSchedule.Follows: timers do not fire late, so two calls may be closer than modelled on a busy node.
- GarbageCollector.OrphanCollection: with failing clean-ups a pod may also be cleaned later, when its service is back; `CounterCountsMisses` covers those runs.
- ItemConfig.SameConfiguration: detectors that cannot be built are left out; `item.New` fails on them before there is an item.
- API server no-ops: an update that stores the same object again still counts as a write of the lock.
