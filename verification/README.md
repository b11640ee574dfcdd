# Partitioned rollouts, verified

A Dafny model of the controller that releases a Deployment batch by batch, and proofs about it.
The controller pauses the Deployment, resizes its ReplicaSets itself and moves through the steps of
a BatchRelease. Three parts are modelled:

* **the scaling engine of one batch**: how the new replica set grows and the old ones shrink or are
  restored, under the partition limit L, the surge S, the tolerated unavailability U and the wanted
  replicas R;
* **proportional scaling**: how a change of R is spread over all active replica sets;
* **the release state machine**: `Do`, initialisation, rollback, steps, finalizing, the stable
  versions and the status write of a reconcile.

| files | contents |
|---|---|
| `Base`, `Limits`, `ReplicaSets`, `Ordering` | the four numbers of a batch; lists of replica sets, their totals and filters; the sort orders; the choice of the new set |
| `Scaling`, `ScalingFacts`, `UpgradeFacts`, `RolloutRuns`, `OldTotals` | one Upgrade reconcile as a function of the listing, what its passes keep, theorems over whole runs, and what it comes to in closed form |
| `Proportional`, `ProportionalFacts`, `ProportionalSync`, `ShrinkingSync` | the distribution with its int32 arithmetic and rounding; conservation, rounding error, settling; what shrinking takes from whom |
| `Store`, `PassFacts`, `Executor` | the same steps as methods over slices and a store written one set at a time, each proved against its function |
| `Revisions` | revision numbers and the bounded revision history |
| `Release`, `ReleaseRuns`, `BatchGate`, `FirstRelease`, `Reports` | the state machine over the stored objects, theorems over whole runs of it, the first record, and what a reconcile reports |
| `BatchProgress`, `JointRuns`, `ReleaseProgress` | where engine and state machine meet: when a batch passes, that it does, and theorems over runs of both together: safety, and that releases and rollbacks complete |
| `SharedSlices`, `RollbackRuns` | the reconcile with the lists of old and of all sets in one array: when it is the one of the theorems, and what is lost otherwise |
| `Controller` | executor and reconciler as objects that work on copies, proved against the state machine |

`dafny verify dfyconfig.toml` checks everything.

## How it is modelled

The executor's methods are methods with loops over arrays, on a class whose store the writes change;
the contract of each equates the new store with a function of the old one. The theorems are about
those functions. A replica set itself is a value, because the source never changes one in memory: it
copies it, changes the copy and writes that.

* Writes of replica sets stop at the first one that fails, so a `budget`, the number of writes still
  accepted, covers every store they can leave: one that is stored although an error comes back leaves
  what an accepted one does with none after it. Writes of the Deployment, the BatchRelease and its status
  are accepted, rejected, or *lost*: stored although an error comes back.
* A run of the engine is any sequence of Upgrade reconciles, each with its own budget; between two of
  them pods become available or not at will and the API server lists the sets in any order. The
  Deployment's replicas and template, the strategy and the step stay the same over such a run.
* A run of the state machine is any sequence of reconciles, template edits, resubmissions with other
  steps, rollback marks, continues of a blocking step, and changes of replicas and pod counts.

Assumptions: reads are current; a listing has no two sets of one name or uid and no negative size,
and available pods are not negative; templates are compared by identity and their hashes are
injective; a recorded stable template decodes to itself (and an empty text to one fixed template);
the hash and the raw text of a recorded template, written together, are one entry; percentages and
replica annotations are in canonical decimal form, and an annotation that is not a number counts as
absent.

Appending the new set to the slice of old ones can leave both lists in one array
(`internal/controller/partition/executor.go:623`); the lengths at which that happens are a parameter. The
executor's methods have it as it is. The theorems about runs of the engine drain such a slice in creation
order, as the code does when the new set is the youngest, and meet a found set whose annotations are up to
date; `SharedSlices` and `RollbackRuns` say when a reconcile is of that kind and what is lost otherwise.

## What turned out not to hold

Each is stated together with the condition under which the code does meet the property.

* The comment at `internal/controller/partition/executor.go:1176-1178` says that a new set is never created
  empty unless R is 0; the code guarantees that only without surge (`RolloutRuns.CreatedEmptyExactly`).
* A step above 100% asks for one pod fewer than 100% does (`Limits.LimitMonotoneInPercent`).
* Without old pods an unfinished batch does become a full rollout
  (`RolloutRuns.PartitionHoldsWhileOldPodsRemain`).
* Scaling down can end above the wanted total (`ProportionalSync.FourScaledToTwo`): exactly when the
  sets but the largest, each with its share, are more than it
  (`ProportionalSync.SyncExactly`, `ProportionalSync.OverfullBySum`).
* A single active set of the right size with a stale annotation keeps its scaling event, and the
  release does not move on (`ProportionalSync.SyncSettles`, `JointRuns.StuckIsReached`, `JointRuns.StuckForever`).
* The error of a refused drain is dropped, and the batch passes with old pods left over
  (`BatchProgress.PassesWithTooManyPods`), exactly when the drain needs more writes than are accepted
  (`BatchProgress.PassesExactlyAtGoal`).
* A batch can pass below its limit on a stale report (`BatchProgress.StaleReportPasses`); exactly when is
  `BatchProgress.PassesBelowLimitExactly`.
* On such a report a release can be finalized with one pod of a batch of five (`JointRuns.FinalizedTooEarly`);
  it cannot be without the pods of a batch when the reports are right at the reconciles that find batches
  ready (`JointRuns.FinalizedWithEveryBatch`).
* Where the lists are one array the old sets are not drained by revision: the oldest, of the lowest revision,
  can go first (`SharedSlices.OldestGoesFirst`); exactly when the order is kept is
  `SharedSlices.RevisionOrderExactly`.
* In a rollback to a set that is not the youngest that scale-down can drain the new set
  (`SharedSlices.RollbackDrainsNewSet`), and the rollback then need never complete
  (`RollbackRuns.RollbackNeverCompletes`); how much the new set loses is `SharedSlices.NewSetLoses`.
* A sync after the Deployment was scaled can take the new set past its batch
  (`ProportionalSync.SyncPassesBatch`), growing exactly when its share is more
  (`ProportionalSync.SyncGrowsNewSet`).
* A revision annotation that does not parse can make the revision order cyclic
  (`Ordering.GarbledRevisionCycle`), exactly when its set was created between one of a lower and a later
  one of a higher revision (`Ordering.TransitiveExactly`, `Ordering.OrderedExactly`).
* The highest int64 revision has no successor (`Revisions.NewRevisionIsHighest`,
  `Revisions.CreatedRevisionIsHighest`).
* Under a pending rollback mark a completed release can be left with its strategy cleared
  (`ReleaseRuns.CompletedStaysRestored`), and a template edited under the mark is recorded as stable
  without having been released (`ReleaseRuns.FinalizeRecordsReleased`).
* A resubmission with fewer steps, or an edit between the rollback steps being set and the index being
  reset, can make a reconcile index outside the steps (`BatchGate.FewerStepsPanic`,
  `BatchGate.EditUnderMarkPanics`); the runs in which none can are those of `BatchGate.NeverOutOfRange`, those
  whose own reconciles do not those of `BatchGate.OwnReconcilesExactly`.
* A mark set before an edit was noticed rolls back to the version before the current one
  (`ReleaseRuns.EditStartsRelease`).

## Model

| member | source | states |
|---|---|---|
| Limits.FencepostsLeaveRoom | pkg/util/deployment/deployment.go:123-142 | with a valid strategy surge and unavailability are usable bounds and never both zero |
| Limits.BothZeroOnlyOnError | pkg/util/deployment/deployment.go:123-142 | the resolved pair is never (0, 0), and there is none exactly when a threshold is malformed |
| Limits.FencepostsRound | pkg/util/deployment/deployment.go:123-142 | surge percentages are rounded up, unavailability down, and one pod may be unavailable when both come out as zero |
| Limits.ThresholdsAsGiven | pkg/util/deployment/deployment.go:123-142 | numbers are taken as given unless both are zero, a missing threshold counts as zero, a malformed one takes both away, and nothing may be unavailable of nothing |
| Limits.LimitInRange | pkg/util/deployment/deployment.go:295-303 | any partition asks for 0 to R pods |
| Limits.LimitAtEnds | pkg/util/deployment/deployment.go:295-303 | R at 100%, at most R - 1 at any other percentage once R > 1, 0 from 0% down |
| Limits.LimitIsRoundedShare | pkg/util/deployment/deployment.go:295-303 | between 0% and 100% the limit is the share of R rounded up, held at R - 1 |
| Limits.LimitMonotoneInPercent | pkg/util/deployment/deployment.go:295-303 | a later, larger percentage never asks for fewer pods, exactly unless it passes from 100% to above it with R > 1 |
| Limits.LimitMonotoneInReplicas | pkg/util/deployment/deployment.go:295-303 | growing the Deployment never lowers the limit of a percentage |
| Limits.LimitOfCount | pkg/util/deployment/deployment.go:295-303 | a step given as a number asks for that many pods, held within 0 and R; a malformed one for none |
| ReplicaSets.GetReplicaCountForReplicaSets | pkg/util/deployment/deployment.go:285-293 | the loop computes the total of the sizes |
| ReplicaSets.GetAvailableReplicaCountForReplicaSets | pkg/util/deployment/deployment.go:320-328 | the loop computes the total of the available pods |
| ReplicaSets.FilterActiveReplicaSets | pkg/util/deployment/deployment.go:445-463 | keeps exactly the sets with pods, in order |
| ReplicaSets.TotalPermuted | pkg/util/deployment/deployment.go:285-293 | a total does not depend on the order of the list |
| ReplicaSets.ActiveTotal | pkg/util/deployment/deployment.go:445-463 | dropping the empty sets loses no pod |
| Ordering.NamesPart | pkg/util/deployment/deployment.go:81-86 | names are compared at the first place where they part |
| Ordering.SameSecondByName | pkg/util/deployment/deployment.go:61-86 | of two matching sets created in the same second the one with the smaller name is chosen |
| Ordering.AbsentIsZero | pkg/util/deployment/deployment.go:429-442 | a set without a revision counts as revision 0 in the draining order |
| Ordering.StrictTotalOrder | pkg/util/deployment/deployment.go:76-86 | creation and size orders, and the revision order where no unparsable revision is straddled, are strict total orders on differently named sets |
| Ordering.GarbledRevisionCycle | pkg/util/deployment/deployment.go:429-442 | three sets of which the middle one's revision does not parse, ordered in a cycle |
| Ordering.TransitiveExactly | pkg/util/deployment/deployment.go:429-442 | the revision order is transitive on the sets of a deployment exactly when no unparsable revision lies, by creation, between a lower and a higher one |
| Ordering.OrderedExactly | pkg/util/deployment/deployment.go:429-442 | an ordered arrangement exists, and sorting finds it, exactly under that condition |
| Ordering.SortedOrdered | pkg/util/deployment/deployment.go:429-442 | sorting puts every pair in order |
| Ordering.SortedCanonical | pkg/util/deployment/deployment.go:465-474 | sorting yields the same list for every listing order |
| Ordering.SortInPlace | pkg/util/deployment/deployment.go:62 | the slice is rearranged in place into the ordered list |
| Ordering.FindNewReplicaSet | pkg/util/deployment/deployment.go:61-74 | returns the chosen set and leaves the slice sorted by creation |
| Ordering.FindOldReplicaSets | pkg/util/deployment/deployment.go:44-59 | returns the other sets, oldest first, and of them those with pods in the same order |
| Ordering.NewOfIsNew | pkg/util/deployment/deployment.go:61-74 | the chosen set is exactly the matching one created before every other matching one; none exactly when nothing matches |
| Ordering.NewOfPermuted | pkg/util/deployment/deployment.go:61-74 | the same new set and the same old list for every permutation of the listing |
| Ordering.OldsAreTheRest | pkg/util/deployment/deployment.go:44-59 | new set and old sets make up the listing: nothing lost, nothing twice |
| Ordering.NewOfSameIds | pkg/util/deployment/deployment.go:61-74 | the choice does not depend on sizes, pods or replica annotations |
| ScalingFacts.CleanupFacts | internal/controller/partition/executor.go:709-745 | cleanup counts exactly what it removes, within its allowance, and takes no available pod, on success and on failure |
| ScalingFacts.CleanupCompletes | internal/controller/partition/executor.go:709-745 | with sane availability and enough writes it removes the smaller of the allowance and all unhealthy replicas |
| ScalingFacts.CleanupOldestFirst | internal/controller/partition/executor.go:709-745 | a set is cleaned only when every older one has no unhealthy replica left |
| ScalingFacts.DrainFacts | internal/controller/partition/executor.go:683-706 | the drain counts what it removes, within its allowance, and takes at most that many available pods |
| ScalingFacts.DrainExact | internal/controller/partition/executor.go:683-706 | it succeeds exactly when it removes min(allowed, total old size), and removes less otherwise |
| ScalingFacts.DrainNeeds | internal/controller/partition/executor.go:683-706 | it succeeds exactly when as many writes are accepted as there are non-empty sets up to the allowed count |
| ScalingFacts.DrainAt | internal/controller/partition/executor.go:683-706 | each set loses what is allowed beyond the sets before it |
| ScalingFacts.DrainGreedy | internal/controller/partition/executor.go:683-706 | a set is touched only when all sets before it are emptied |
| ScalingFacts.DrainByRevision | internal/controller/partition/executor.go:683-706 | over a slice that is in order of revision min(allowed, total) pods go, one set after the other: at most one is left partly drained and all after it are untouched; the higher of two revisions that parse is emptied first |
| UpgradeFacts.ScaleUpFacts | internal/controller/partition/executor.go:648-657 | restoring old sets adds exactly the missing count, loses no set and no serving pod |
| UpgradeFacts.ScaleUpTakesLargest | internal/controller/partition/executor.go:648-657 | the whole missing count goes to the largest old set, the oldest of several |
| UpgradeFacts.ScaleDownFacts | internal/controller/partition/executor.go:659-707 | the scale-down keeps every set, counts what it removes, and stays within spare availability and the partition |
| UpgradeFacts.ReconcileOldFacts | internal/controller/partition/executor.go:553-634 | the old total moves towards what the partition leaves it, never past it; nothing is written unless the total changes |
| UpgradeFacts.TargetInRange | internal/controller/partition/executor.go:1401-1428 | the new set is never asked for a negative size or for more than R |
| UpgradeFacts.FoundSizes | internal/controller/partition/executor.go:216-246 | one reconcile either takes the new set to its target or moves the old total, never both |
| RolloutRuns.UpgradeSizes | internal/controller/partition/executor.go:216-246 | the same for any listing, the new set being created first when missing; unchanged sizes mean an unchanged listing |
| RolloutRuns.StepShortens | internal/controller/partition/executor.go:216-246 | every change of sizes strictly decreases max(0, L-n) + abs(O - (R - max(L, n))), whatever the availability |
| RolloutRuns.RemainingBound | internal/controller/partition/executor.go:216-246 | how many changes are left at most: the distance, and two more while the new set is still to be created |
| RolloutRuns.ChangesBounded | internal/controller/partition/executor.go:216-246 | a run changes sizes at most that often, creation included, with failing writes and any availability |
| RolloutRuns.QuietOnlyAtGoal | internal/controller/partition/executor.go:553-646 | with all pods available and a write accepted, a reconcile changes nothing exactly when n >= L and n + O = R |
| RolloutRuns.GoalIsStable | internal/controller/partition/executor.go:216-246 | at the goal nothing is written, whatever the pods and the writes do |
| RolloutRuns.GoalReached | internal/controller/partition/executor.go:216-246 | with all pods available and one write accepted per reconcile the goal is reached within so many reconciles, creation included, and kept |
| RolloutRuns.PartitionSafety | internal/controller/partition/executor.go:747-759 | every state of every run keeps n within M = max(L, first n) and O at least min(first O, R - M): no unfinished batch becomes a full rollout |
| RolloutRuns.PartitionHoldsWhileOldPodsRemain | internal/controller/partition/executor.go:1401-1428 | that bound holds for all runs from a listing, with or without a new set, exactly when it has old pods |
| RolloutRuns.StepWithinSurge | internal/controller/partition/executor.go:1401-1428 | no reconcile raises the total above R + S, and restoring old sets never raises it above R |
| RolloutRuns.CreatedEmptyExactly | internal/controller/partition/executor.go:1170-1181 | the new set is created empty exactly for R = 0, or with surge when old pods are there and the batch asks for none or there is no room |
| RolloutRuns.SurgeCeiling | internal/controller/partition/executor.go:1170-1181 | from no new set and at most R pods every run stays within R + max(S, 1 for the first pod without surge) |
| RolloutRuns.OldsFloor | internal/controller/partition/executor.go:604-633 | cleanup and scale-down together leave at least min(available before, R - U) serving pods, for any number of old sets and any failures |
| RolloutRuns.AvailabilityFloor | internal/controller/partition/executor.go:216-246 | the same for a whole reconcile, creation and the new set's own scaling included |
| OldTotals.PodsFloor | internal/controller/partition/executor.go:570-611 | old pods go only while, the new set's unavailable pods aside, more than R - U are there, whatever the writes do |
| OldTotals.UpgradeFloor | internal/controller/partition/executor.go:215-246 | the same for a whole reconcile, creation included |
| OldTotals.ReconcileOldExactly | internal/controller/partition/executor.go:553-634 | with no write refused one reconcile takes the old total to exactly R - max(L, n) if that is more, and otherwise down to the larger of that and R - U less the new set's available pods; it reports whether that was a change |
| OldTotals.TargetExactly | internal/controller/partition/executor.go:1008-1024 | the new set goes to R when it has more or is alone, and otherwise to the smaller of L and what R + S leaves it, never down |
| OldTotals.UpgradeExactly | internal/controller/partition/executor.go:215-246 | with no write refused a reconcile takes the new set to its target or, being there, the old sets to theirs, whatever is available |
| ProportionalFacts.AddedNeverPasses | internal/controller/partition/executor.go:468-486 | the running sum never passes what is to be added, for any annotations, overflow or division by zero |
| ProportionalFacts.FractionIsShare | internal/controller/partition/executor.go:531-551 | with representable numbers the fraction is the rounded share and never below minus the size |
| ProportionalFacts.FractionShrinks | internal/controller/partition/executor.go:531-551 | a set whose annotation is at least R + S takes a share between minus its size and 0 |
| ProportionalFacts.RoundedQuotient | internal/controller/partition/executor.go:549-550 | rounding is off by at most one half and never negative |
| ProportionalFacts.TargetsNonNegative | internal/controller/partition/executor.go:468-500 | no set is given a negative size |
| ProportionalFacts.ProportionsShrink | internal/controller/partition/executor.go:513-527 | shrinking, the sets together take the sum of their fractions, unless the first few already take everything |
| ProportionalFacts.FirstTargetExactly | internal/controller/partition/executor.go:492-500 | by how much the largest set would go below zero, in closed form over the fractions of the others |
| ProportionalFacts.FractionGrows | internal/controller/partition/executor.go:531-551 | a set whose annotation is at most R + S takes a share of at least 0 |
| ProportionalFacts.ProportionGrown | internal/controller/partition/executor.go:513-527 | growing, each set takes its fraction as far as those before it leave room |
| ProportionalFacts.GrownTarget | internal/controller/partition/executor.go:468-500 | the size each set of a growing distribution ends with, in closed form over the fractions |
| ProportionalFacts.TargetsTotal | internal/controller/partition/executor.go:468-500 | the new sizes add up to the old ones plus what was to be added, plus what the first set would have gone below zero |
| ProportionalFacts.WriteAllFacts | internal/controller/partition/executor.go:488-507 | on success every set has its target size and both annotations, and no set is lost |
| ProportionalFacts.LeftoverBound | internal/controller/partition/executor.go:492-500 | evenly annotated and without surge the leftover is at most half a replica per active set |
| ProportionalFacts.ScaleToZeroProportions | internal/controller/partition/executor.go:532-535 | R = 0 gives every set exactly minus its size |
| ProportionalSync.FirstIsLargest | internal/controller/partition/executor.go:452-466 | the set that takes the leftover is the largest one |
| ProportionalSync.ArrangedTies | internal/controller/partition/executor.go:452-466 | larger sets come first; of equal ones the newer when growing, the older when shrinking |
| ProportionalSync.LatestIsNewest | pkg/util/deployment/deployment.go:510-530 | with no active set the sync is about the new set, or else the newest old one |
| ProportionalSync.SpreadConserves | internal/controller/partition/executor.go:413-507 | one distribution keeps every set and ends at R plus what the largest set could not absorb |
| ProportionalSync.SpreadIsExactUpwards | internal/controller/partition/executor.go:413-507 | growing and level distributions end at exactly R, and no size is negative |
| ProportionalSync.CleanedFacts | internal/controller/partition/executor.go:437-449 | cleanup's count equals the replicas removed, so what is left to add is R less what is there |
| ProportionalSync.SyncConserves | internal/controller/partition/executor.go:388-509 | a distributing sync ends at R plus the overshoot of the largest set, exactly R upwards, all zero for R = 0, no set lost |
| ProportionalSync.OvershootExactly | internal/controller/partition/executor.go:488-500 | there is an overshoot exactly when the sets but the largest, each with its share, are more than R and do not take everything first |
| ProportionalSync.OverfullBySum | internal/controller/partition/executor.go:488-500 | when no fraction grows a set that is one sum of sizes and fractions |
| ProportionalSync.SyncExactly | internal/controller/partition/executor.go:388-509 | so a distributing sync that succeeds ends at exactly R or, under that condition, above it |
| ProportionalSync.FourScaledToTwo | internal/controller/partition/executor.go:388-509 | four sets of one available pod, evenly annotated, scaled from 4 to 2 end at 3 |
| ProportionalSync.SyncTotal | internal/controller/partition/executor.go:388-509 | every successful sync, in all three branches, ends at exactly R, plus the overshoot in a distribution |
| ProportionalSync.SyncGrowsNewSet | internal/controller/partition/executor.go:388-509 | a growing sync gives the new set that size whatever its batch asks for, so it ends above the batch exactly when that size is |
| ProportionalSync.SyncPassesBatch | internal/controller/partition/executor.go:388-509 | a batch of two that has four pods after scaling from 10 to 20 |
| ProportionalSync.SyncSettles | internal/controller/partition/executor.go:388-509 | after a successful sync there is no scaling event, exactly unless the only active set has size R and a stale annotation |
| ProportionalSync.StuckSingleStays | internal/controller/partition/executor.go:391-396 | in that case the sync succeeds and writes nothing, so the event is still there |
| ProportionalSync.UpgradeRaisesNoEvent | internal/controller/partition/executor.go:185-246 | a batch step never raises a scaling event, so steps and syncs do not chase each other |
| ShrinkingSync.ProportionShrunk | internal/controller/partition/executor.go:511-529 | shrinking, each set loses its fraction as far as those before it leave something to take |
| ShrinkingSync.ShrunkTarget | internal/controller/partition/executor.go:468-507 | the size each set of a shrinking or level distribution ends with, in closed form over the fractions |
| ShrinkingSync.SyncShrinks | internal/controller/partition/executor.go:388-509 | beside a new set that lacks size, annotation or available pods every fully available set, and the new one, ends at that size |
| ShrinkingSync.CompleteNewSetServes | internal/controller/partition/executor.go:398-408 | beside a new set of R available pods counted for R the old sets are emptied, the new one is left alone, and at least R pods serve throughout |
| ShrinkingSync.SyncCleans | internal/controller/partition/executor.go:423-452 | the cleanup of a sync removes the smaller of the excess and the unhealthy old replicas, of the oldest sets first, and no serving pod |
| ShrinkingSync.SyncTakesUnhealthyFirst | internal/controller/partition/executor.go:423-509 | with enough unhealthy old replicas a sync ends at R and as many pods serve as before |
| ShrinkingSync.SyncAnnotates | internal/controller/partition/executor.go:1041-1072 | after a distribution every set with pods is annotated with R and R + S |
| ScalingExecutor.Executor.ScaleReplicaSet | internal/controller/partition/executor.go:1041-1072 | written exactly when size or annotations differ, the copy is current and the API server accepts; otherwise nothing changes |
| ScalingExecutor.Executor.ScaleReplicaSetAndRecordEvent | internal/controller/partition/executor.go:1026-1039 | a set of the right size is never written |
| ScalingExecutor.Executor.CleanupUnhealthyReplicas | internal/controller/partition/executor.go:709-745 | slice, store and count are those of the cleanup pass over the sets in creation order |
| ScalingExecutor.Executor.ScaleDownOldReplicaSets | internal/controller/partition/executor.go:659-682 | with two arrays, store and count are those of the scale-down pass by revision |
| ScalingExecutor.Executor.ScaleDownSharedReplicaSets | internal/controller/partition/executor.go:659-682 | with one array for both lists, store and count are those of draining its front in creation order, the new set included |
| ScalingExecutor.Executor.ScaleDownAppended | internal/controller/partition/executor.go:622-624 | whether appending the new set shares the array or not, store and count are those of the scale-down of what is then in the slice |
| ScalingExecutor.Executor.DrainInOrder | internal/controller/partition/executor.go:683-707 | the loop drains the sorted slice front to back as the drain pass says |
| ScalingExecutor.Executor.ScaleUpOldReplicaSets | internal/controller/partition/executor.go:648-657 | the largest, then oldest set takes the whole missing count |
| ScalingExecutor.Executor.ReconcileOldReplicaSets | internal/controller/partition/executor.go:553-634 | result and store are those of reconciling the appended slice, errors of the two passes dropped |
| ScalingExecutor.Executor.ReconcileNewReplicaSet | internal/controller/partition/executor.go:1008-1024 | the new set, and only it, goes to its target |
| ScalingExecutor.Executor.GetNewReplicaSet | internal/controller/partition/executor.go:1086-1181 | the found set with its revision raised, written if that or its other annotations differ, or one created with the size the batch allows and the next revision |
| ScalingExecutor.Executor.FoundStep | internal/controller/partition/executor.go:223-246 | scale the new set, or else reconcile the active old ones with it: result and whole store |
| ScalingExecutor.Executor.UpgradeStep | internal/controller/partition/executor.go:216-246 | result and whole store of one Upgrade reconcile, sharing and the write of the found set included |
| ScalingExecutor.Executor.IsScalingEvent | internal/controller/partition/executor.go:315-331 | true exactly when some active set carries another replica count |
| ScalingExecutor.Executor.FindActiveOrLatest | pkg/util/deployment/deployment.go:510-530 | the only active set, or the newest when none is active; the slice ends newest first |
| ScalingExecutor.Executor.ScaleToZero | internal/controller/partition/executor.go:400-407 | every active old set goes to zero, stopping at the first refused write |
| ScalingExecutor.Executor.Estimate | internal/controller/partition/executor.go:468-486 | the map holds each set's size plus its proportion and the running sum is their total |
| ScalingExecutor.Executor.WithLeftover | internal/controller/partition/executor.go:492-500 | the first set also takes the leftover, held at zero |
| ScalingExecutor.Executor.Distribute | internal/controller/partition/executor.go:468-507 | the two loops write every set at its target size |
| ScalingExecutor.Executor.Spread | internal/controller/partition/executor.go:451-507 | sorting by the direction and distributing: result and whole store |
| ScalingExecutor.Executor.ScaleProportionally | internal/controller/partition/executor.go:413-507 | result and whole store of the proportional branch |
| ScalingExecutor.Executor.Scale | internal/controller/partition/executor.go:388-509 | result and whole store of a scaling sync |
| SharedSlices.SharedWhenYoungest | internal/controller/partition/executor.go:659-707 | in one array and with the new set the youngest only the order of draining changes |
| SharedSlices.RevisionOrderExactly | internal/controller/partition/executor.go:674-706 | the scale-down drains by revision, for every strategy, availability and fault, exactly when the lists are two arrays or no younger set with pods has a higher revision than an older one |
| SharedSlices.OldestGoesFirst | internal/controller/partition/executor.go:674-706 | three old sets in one array whose revisions rise with age: the lowest revision goes first |
| SharedSlices.UpgradeSame | internal/controller/partition/executor.go:216-246 | with the new set up to date, and the youngest where the array is shared, the reconcile is the one of the theorems about runs |
| SharedSlices.UpgradeAfterWrite | internal/controller/partition/executor.go:1101-1118 | otherwise, sharing aside, it is that of the listing with the found set's write done, of the same sizes, with one write fewer |
| SharedSlices.RefusedWriteFails | internal/controller/partition/executor.go:1099-1118 | a found set that has to be written and is refused ends the reconcile with an error |
| SharedSlices.NewSetLoses | internal/controller/partition/executor.go:659-707 | in one array the new set loses what is to go beyond the sets older than it, so nothing exactly when it is the youngest or those suffice |
| SharedSlices.SharedLimitSkipsYoungest | internal/controller/partition/executor.go:679-683 | in one array the limit of the scale-down counts the new set as an old one and leaves the youngest out |
| SharedSlices.RollbackDrainsNewSet | internal/controller/partition/executor.go:659-707 | a rollback to the oldest set in which the new set is emptied instead of an old one |
| RollbackRuns.RollbackNeverCompletes | internal/controller/partition/executor.go:216-246 | from there, with all pods available and no write refused, the new set has two pods and none in turn for as long as one looks, and the batch is never reached |
| RollbackRuns.PlainRunIsRun | internal/controller/partition/executor.go:216-246 | runs without sharing that matters and without a write of the found set are the runs of the theorems |
| Store.MergePermuted | internal/controller/partition/executor.go:1053-1065 | the order of writes to different sets does not show in the store |
| Revisions.FormatRoundTrip | internal/controller/partition/executor.go:1090-1092 | a formatted int64 parses back to itself |
| Revisions.SignsParse | internal/controller/partition/executor.go:1345-1361 | digits parse with and without a sign, exactly as long as the number fits int64 |
| Revisions.JoinSplit | internal/controller/partition/executor.go:1372-1373 | joining the split history gives it back |
| Revisions.SplitJoin | internal/controller/partition/executor.go:1385-1386 | splitting a joined list of revisions gives the list back |
| Revisions.AppendRevision | internal/controller/partition/executor.go:1372-1392 | the loop's running length is that of the joined result, so it stops at the first suffix that fits |
| Revisions.HistoryIsLongestSuffix | internal/controller/partition/executor.go:1372-1392 | the stored history is the longest suffix of old revisions that fits with the displaced one, which comes last |
| Revisions.HistoryStartsOrStays | internal/controller/partition/executor.go:1370-1393 | a history without a first entry starts anew with the displaced revision, and one without room even for that stays |
| Revisions.RevisionAnnotations.SetNewRevision | internal/controller/partition/executor.go:1338-1393 | the revision is raised exactly when both texts are numbers and it is lower; only then the displaced one enters the history |
| Revisions.MaxRevisionOf | pkg/util/deployment/deployment.go:97-108 | the loop computes the highest revision |
| Revisions.MaxRevisionIsMax | pkg/util/deployment/deployment.go:97-108 | an upper bound of all parsable revisions that is reached, or 0 |
| Revisions.CreatedRevisionIsHighest | internal/controller/partition/executor.go:1090-1092 | a created set is numbered above every old one, exactly while the highest is below the int64 maximum |
| Revisions.CreatedRevisionIsSuccessor | internal/controller/partition/executor.go:1338-1367 | its number is what raising a missing annotation comes to |
| Revisions.RenumberedIsSuccessor | internal/controller/partition/executor.go:1338-1367 | a found set's raised number is what raising its text comes to |
| Revisions.NewRevisionIsHighest | internal/controller/partition/executor.go:1338-1367 | the new set ends strictly above every parsable old revision, exactly while the highest one is below the int64 maximum |
| ReleaseRuns.StrategyStep | internal/controller/partition/executor.go:117-155 | every event keeps: a cleared strategy is saved in the status, a completed release has the original one back |
| ReleaseRuns.StrategyRoundTrip | internal/controller/partition/executor.go:290-311 | in every reachable store of a fresh release the same, through retargets, rollbacks and rejected or lost writes |
| ReleaseRuns.CompletedStaysRestored | internal/controller/partition/executor.go:157-183 | two further reconciles can leave a completed release with a cleared strategy exactly when the mark is set |
| ReleaseRuns.RecordsChangeOnlyInFinalize | internal/controller/partition/executor.go:1437-1476 | once recorded, the stable version changes only when finalizing, to the released template, the previous one becoming the last one |
| ReleaseRuns.RecordedOnceRestored | internal/controller/partition/executor.go:290-313 | a released version is recorded only when the Deployment has its strategy back by an accepted write |
| ReleaseRuns.InstalledAlways | internal/controller/partition/executor.go:101-110 | in every reachable store a finalizing release, one rolling back, and one rolling forward without a mark observe the template the Deployment has |
| ReleaseRuns.HeldAlways | internal/controller/partition/executor.go:135-148 | in every reachable store of a rolling release the Deployment is paused, without rolling strategy and marked as controlled |
| ReleaseRuns.RestartsExactlyOnEdit | internal/controller/partition/executor.go:101-110 | a release past its start returns to it exactly when its template was edited without a mark and the status is stored; nothing else changes and the edit is noticed once |
| ReleaseRuns.WritesAreSeparate | internal/controller/partition/executor.go:1306-1324 | Deployment, release and status each change only by their own write, and a rejected status write loses the status alone |
| ReleaseRuns.FinalizeRecordsReleased | internal/controller/partition/executor.go:290-313 | finalizing records only what the Deployment runs, exactly unless the template was edited under the mark |
| ReleaseRuns.OnlyReleasedVersionsAreStable | internal/controller/partition/executor.go:101-110 | in runs without edits under a mark a half-released version never becomes stable |
| ReleaseRuns.FinalizeRepeats | internal/controller/partition/executor.go:290-313 | finalizing again after a failed status write changes neither the records nor the Deployment |
| ReleaseRuns.RollbackInstallsStable | internal/controller/partition/executor.go:157-183 | wherever in a release the mark is set, the first template a rollback installs is the version stable before it |
| ReleaseRuns.RetargetKeepsTarget | internal/controller/partition/executor.go:101-110 | a retarget noticed in mid-release keeps the version a rollback leads to |
| ReleaseRuns.RollbackAfterRetargets | internal/controller/partition/executor.go:157-183 | however often a starting or rolling release is retargeted, the first template a rollback installs is the version stable before it all |
| ReleaseRuns.EditsLeadBack | internal/controller/partition/executor.go:101-110 | a release that an edit at rest starts, however often it is then retargeted, is rolled back to the version at rest |
| ReleaseRuns.RollbackSwaps | internal/controller/partition/executor.go:157-183 | whenever a rollback from rest has completed, the last version is installed and the two records have changed places |
| ReleaseRuns.TwoRollbacksRestore | internal/controller/partition/executor.go:64-94 | two completed rollbacks restore template, records and strategy |
| ReleaseRuns.RollbackMidRelease | internal/controller/partition/executor.go:157-183 | a rollback asked for before finalizing, once completed, has the stable version installed and both records unchanged |
| ReleaseRuns.RollbackAtFinalizing | internal/controller/partition/executor.go:157-183 | one asked for while finalizing or after records the release first and then installs the version before it |
| ReleaseRuns.EditStartsRelease | internal/controller/partition/executor.go:101-110 | a noticed edit, to any other template, starts a release that rolls back to the version at rest; a mark before that leads to the one before it |
| FirstRelease.FirstRecordIsDeployed | internal/controller/partition/executor.go:127-129 | until the Deployment is first taken over nothing is recorded or the version it runs, as current and as last, and with that record it is taken over |
| FirstRelease.FirstReleaseLeadsBack | internal/controller/partition/executor.go:157-183 | however often a first release is retargeted, the first template a rollback installs is the one deployed before it |
| FirstRelease.RollbackAsksForAll | internal/controller/partition/executor.go:165-176 | the only steps a reconcile stores ask for min(1, R) pods first and for R last, whatever R, and come with the recorded version |
| FirstRelease.RollbackStarts | internal/controller/partition/executor.go:157-183 | three reconciles with accepted writes ask for the stable version, take the Deployment over with it from the first step, and remove the mark |
| FirstRelease.MarkRemoved | internal/controller/partition/executor.go:281-288 | removing the mark changes nothing else |
| Reports.FailedWritesAreReported | internal/controller/partition/executor.go:57-95 | a write stored although it failed is an error, and without an error all was done as with accepted writes |
| Reports.StepReports | internal/controller/partition/executor.go:207-279 | a rolling reconcile reports an error exactly when reading, syncing, scaling or patching failed or its batch is not ready, and then stays at its step |
| Reports.ReadyPodsAreStored | internal/controller/batchrelease_controller.go:83-131 | the ready pods are stored even when the reconcile ends in an error because the batch is not ready |
| Reports.AsksForUserExactly | internal/controller/partition/executor.go:257-264 | the status asks for the user exactly after a reconcile that found a batch blocking and left it so, never the last one |
| Reports.SyncReopensBatch | internal/controller/partition/executor.go:196-202 | after a scaling event was dealt with the batch starts afresh, and changes nothing but that |
| Reports.ContinuedStepAdvances | internal/controller/partition/executor.go:265-275 | a continued batch that is not the last is followed by the next one from its start |
| Reports.NoStrategyIsReported | internal/controller/partition/executor.go:117-125 | without a saved strategy the Deployment's own is saved, and it is an error exactly when there is none |
| Reports.StartsInThree | internal/controller/partition/executor.go:117-155 | a fresh release whose writes are accepted has taken its Deployment over after three reconciles, two with a record, at its first step |
| BatchGate.GateStep | internal/controller/partition/executor.go:207-279 | every event keeps the gate: the index grows by at most one and never past the continues or the batches found ready |
| BatchGate.FinalizedOnlyThroughEveryStep | internal/controller/partition/executor.go:207-279 | finalizing is reached only after len(steps) - 1 continues and after the batch was ready at every index, with scaling events and lost writes between |
| BatchGate.PanicsExactly | internal/controller/partition/executor.go:333-350 | some reconcile of a store indexes outside the steps exactly when the index is outside and the next one does not take the Deployment over |
| BatchGate.LastReadIsStored | internal/controller/batchrelease_controller.go:83-131 | a reconcile that panics on its last read has its status stored and fails on the stored index |
| BatchGate.SafeExactly | internal/controller/partition/executor.go:117-139 | which events lead from a safe store to a safe one, in terms of the event |
| BatchGate.NeverOutOfRange | internal/controller/partition/executor.go:333-350 | no store along a run lets any reconcile index outside the steps exactly when each edit and resubmission is harmless when it is made |
| BatchGate.OwnReconcilesExactly | internal/controller/partition/executor.go:333-350 | the reconciles of the run itself, whatever their writes meet, do not exactly when each starts from a safe store |
| BatchGate.EditsComeTo | internal/controller/partition/executor.go:117-139 | safety after edits and marks depends only on the steps, template and mark they come to |
| BatchGate.FewerStepsPanic | internal/controller/batchrelease_controller.go:102 | a resubmission, of whatever template, makes an index fault possible exactly when its steps do not reach the index and no reset is to come |
| BatchGate.EditUnderMarkPanics | internal/controller/partition/executor.go:157-183 | an edit does exactly when the index is already outside, a reset being due, and it is not back to the version that reset is for |
| BatchProgress.GoalIsQuiet | internal/controller/partition/executor.go:216-246 | at the goal a reconcile reports neither a change nor an error |
| BatchProgress.PassesExactlyAtGoal | internal/controller/partition/executor.go:216-256 | with all pods available a batch passes exactly at the goal, or when draining the old sets takes more writes than are accepted, and then too many pods are left |
| BatchProgress.PassesWithTooManyPods | internal/controller/partition/executor.go:628-631 | a batch of 2 out of 4 that passes with five pods left |
| BatchProgress.PassedBatchReachedItsLimit | internal/controller/partition/executor.go:333-350 | a batch passes below its limit only on a report of more updated pods than its new set was given; as many pods are ready as U leaves, and one at least |
| BatchProgress.PassesBelowLimitExactly | internal/controller/partition/executor.go:216-256 | a batch below its limit can pass exactly when its new set has no room to grow and the reported pods reach the limit and make up, as tolerated unavailable ones, for the missing ready ones |
| BatchProgress.TolerationRounds | internal/controller/partition/executor.go:352-358 | a tolerated percentage counts of the updated pods and is rounded up; no usable threshold tolerates none |
| BatchProgress.StaleReportPasses | internal/controller/partition/executor.go:333-350 | on the report of the previous release a batch of five passes with one new pod |
| BatchProgress.BatchCompletes | internal/controller/partition/executor.go:207-256 | with all pods available and one write accepted per reconcile the batch passes within as many reconciles, creation included |
| JointRuns.TakeOverStarts | internal/controller/partition/executor.go:117-155 | the reconcile that takes a Deployment over starts such a run, whatever the Deployment still reports |
| JointRuns.PartitionedRelease | internal/controller/partition/executor.go:185-279 | in runs of engine and state machine together, whatever is reported, the new set never has more pods than the batches reached ask for, the old ones keep the rest, and batches are reached only by continues |
| JointRuns.FinalizedWithEveryBatch | internal/controller/partition/executor.go:185-279 | a release is finalized only with the pods of every batch, provided no reconcile that finds a batch ready is told of more updated pods than the new set was given |
| JointRuns.FinalizedTooEarly | internal/controller/partition/executor.go:185-279 | a run that is finalized on a stale report with one new pod for a batch of five |
| JointRuns.FailedSyncRepeats | internal/controller/partition/executor.go:185-205 | sets that cannot be listed, or a sync that failed or was not recorded, leave the release where it is |
| JointRuns.StuckForever | internal/controller/partition/executor.go:185-205 | a release whose only active set has size R and a stale annotation stays at its step, whatever pods, writes and continues |
| JointRuns.StuckIsReached | internal/controller/partition/executor.go:185-205 | ten available pods, half of them new, one reconcile and a change of the size to five lead there |
| ReleaseProgress.StepGoes | internal/controller/partition/executor.go:207-279 | a rolling reconcile without scaling event gets further exactly from a batch found ready or continued |
| ReleaseProgress.RoundNearer | internal/controller/partition/executor.go:207-313 | each round, a reconcile that sees all pods available and rightly reported, gets a write accepted and finds a blocking step continued, brings the release strictly nearer to completion; its reconcile being of the kind of `SharedSlices.UpgradeSame` |
| ReleaseProgress.RoundsGoOn | internal/controller/partition/executor.go:57-95 | such a round can follow any state of a release whose new set is up to date |
| ReleaseProgress.ReleaseCompletes | internal/controller/partition/executor.go:207-313 | a release that took its Deployment over completes within 1 + steps * (R + max(O, R) + 5) rounds, O old pods at the start, with the pods of every batch |
| ReleaseProgress.FreshReleaseCompletes | internal/controller/partition/executor.go:57-313 | so does a fresh release once the writes of its first reconciles are accepted |
| ReleaseProgress.FinalizedWhole | internal/controller/partition/executor.go:207-279 | a release whose last step asks for all is finalized with exactly R pods of its version, provided no reconcile that finds a batch ready is told of more updated pods than the new set was given |
| ReleaseProgress.RollbackCompletes | internal/controller/partition/executor.go:157-313 | a rollback in mid-release or after completion, its three writes accepted, completes within that many rounds with exactly R pods of the version gone back to |
| Controller.Executor.RecordStableVersion | internal/controller/partition/executor.go:1437-1476 | store and error of recording a stable version |
| Controller.Executor.Init | internal/controller/partition/executor.go:117-155 | store, status and result of taking the Deployment over |
| Controller.Executor.PreRollback | internal/controller/partition/executor.go:157-183 | store, status and error of a rollback step |
| Controller.Executor.RollingUpdate | internal/controller/partition/executor.go:185-205 | status and error of a rolling phase |
| Controller.Executor.StepByStep | internal/controller/partition/executor.go:207-279 | status and error of a batch step |
| Controller.Executor.RemoveRollbackMark | internal/controller/partition/executor.go:281-288 | the mark goes, and the copy of the release is the stored one again |
| Controller.Executor.IsBatchReady | internal/controller/partition/executor.go:333-358 | ready exactly when enough pods are updated, enough of them ready up to the tolerance, and not none |
| Controller.Executor.Finalize | internal/controller/partition/executor.go:290-313 | store, status and error of finalizing |
| Controller.Executor.Do | internal/controller/partition/executor.go:57-95 | store, status, error and index fault of one pass of the executor |
| Controller.Reconcile | internal/controller/batchrelease_controller.go:59-131 | the store after a reconcile, the status written last and only if it changed; the reconcile panics exactly when an index is outside the steps |

## Left out

- ScalingExecutor.Executor.GetNewReplicaSet: the Deployment's annotations and the minReadySeconds that the write of a found set copies (whether they differ is an input), its revision history, and the writes of the Deployment's own revision annotation and conditions; the history is modelled by itself in `Revisions`.
- ScalingExecutor.Executor.UpgradeStep: starts from a current list; after the scaling check has written the found set in the same reconcile the source meets its own stale list here and ends with an error.
- Creation of a replica set when its name exists already, after a hash collision, or in a terminating namespace; a created set always gets an unused name.
- int32 wrap-around of sums of sizes; it is modelled where sizes are multiplied and converted, in the fraction of a set. What a platform makes of a quotient without an int32 value is a parameter.
- Floating point: the quotient is rounded exactly, half away from zero.
- sort.Sort is modelled by its result, which is unique for the orders used unless a revision does not parse; then one arrangement is fixed.
- Negative replicas and negative available pods, which the API server does not admit.
- Conditions, progress deadlines, timeouts and the rest of the status of the Deployment; only the ready pods of the new set reach the release.
- ObservedGeneration and LastUpdateTime of the release; of its reason and message only the blocking step is kept.
- The requeue decision at the end of a reconcile, apart from its read of the current step.
- Users removing the mark or changing the Deployment's strategy; a Deployment or release that is not found.
- Events, logging, caches, retries on conflict, hashing and serialization.
- Controller.Executor.RollingUpdate: takes the scaling check and the sync as an observation; `JointRuns` computes them from the replica sets.
- Controller.Executor.StepByStep: takes what reconciling the replica sets came to as an observation; `JointRuns` computes it too, ready pods and the patch of the Deployment's status staying inputs. An index outside the steps is a panic at once, where the source may return an error of the replica sets first.
- JointRuns.PartitionedRelease: runs without template edits, resubmissions, rollback marks or changes of the Deployment's size, from the moment the Deployment was taken over; the write of a found set's annotations, which takes a reconcile of its own, is not among the events.
- ReleaseProgress.RollbackCompletes: rounds in which the found set needs no write of its own and no shared array matters; where one does, a rollback need not complete (`RollbackRuns.RollbackNeverCompletes`).
