/**
  Where the two halves meet: the state machine of a release asks whether its batch is ready only
  after the replica sets were reconciled. When does a batch pass, and must it ever pass?
 */
module BatchProgress {
  import opened Base
  import opened Limits
  import opened ReplicaSets
  import opened Ordering
  import opened Scaling
  import opened ScalingFacts
  import opened UpgradeFacts
  import opened RolloutRuns
  import R = Release

  /** The release is in the middle of a step, and what it reads about deployment and strategy is
      what the reconcile of the replica sets works with. */
  predicate InStep(c: R.Cluster, s: R.Status, cfg: Config) {
    && s.state == R.StepUpgrade && R.IndexInRange(c, s)
    && c.spec.steps[s.index] == cfg.partition
    && c.deployment.replicas == cfg.replicas && c.deployment.template == cfg.template
    && s.maxSurge == cfg.surge && s.maxUnavailable == cfg.unavailable
  }

  /** And the deployment reports exactly the pods of its new set as updated. */
  ghost predicate Sees(c: R.Cluster, s: R.Status, cfg: Config, rss: seq<ReplicaSet>) {
    InStep(c, s, cfg) && c.deployment.updatedReplicas == NewSize(cfg.template, rss)
  }

  /** The step after the replica sets were reconciled: whether the batch passes. */
  predicate Passes(c: R.Cluster, s: R.Status, cfg: Config, rss: seq<ReplicaSet>, id: Identity, budget: nat,
          ready: int) {
    var d := R.StepByStep(c, s, Upgrade(cfg, rss, id, budget).outcome, ready, true);
    !d.failed && !d.panicked && d.status.state == R.StepBlocking
  }

  lemma TolerationNonNegative(threshold: Option<IntOrString>, n: nat)
    requires ValidThreshold(threshold)
    ensures R.AllowedUnavailable(threshold, n) >= 0
  {
    if threshold.Some? && threshold.value.Percent? {
      ScaleMonotone(0, threshold.value.p, n);
    }
  }

  /** Tolerated unavailable pods: a percentage counts of the updated pods and is rounded up, and without
      a usable threshold none are tolerated. */
  lemma TolerationRounds(p: int, updated: int)
    ensures var a := R.AllowedUnavailable(Some(Percent(p)), updated); 100 * a - 100 < p * updated <= 100 * a
    ensures forall i :: R.AllowedUnavailable(Some(Int(i)), updated) == i
    ensures R.AllowedUnavailable(None, updated) == 0 == R.AllowedUnavailable(Some(Malformed), updated)
  {
    ScaledValueRounds(p, updated, true);
  }

  /** At the goal a reconcile reports neither a change nor an error, whatever the pods and the
      writes do. */
  lemma GoalIsQuiet(cfg: Config, rss: seq<ReplicaSet>, id: Identity, budget: nat)
    requires Listing(rss) && NewOf(cfg.template, rss).Some? && Settled(cfg, rss)
    ensures Upgrade(cfg, rss, id, budget).outcome == Quiet
  {
    hide Total, Sorted, NewOf, OldsOf, NewRSReplicasLimit, Active, Inactive;
    var olds := OldsOf(cfg.template, rss);
    OldsAreTheRest(cfg.template, rss);
    SizesNonNegative(cfg.template, rss);
    LimitInRange(cfg.partition, cfg.replicas);
    ActiveTotal(olds);
  }

  lemma ActiveLength(rss: seq<ReplicaSet>)
    ensures |Active(rss)| <= |rss|
  {
  }

  lemma ActiveAvailable(rss: seq<ReplicaSet>)
    requires AllAvailable(rss)
    ensures AllAvailable(Active(rss)) && NonNegative(Active(rss)) && |Active(rss)| <= |rss|
    ensures Total(Size, Active(rss)) == Total(Size, rss) >= 0
  {
    hide Total, Active;
    AvailableTotal(rss);
    ActiveTotal(rss);
    ActiveLength(rss);
    TotalNonNegative(rss);
  }

  lemma AllowedDrain(cfg: Config, newRS: ReplicaSet, olds: seq<ReplicaSet>, budget: nat)
    requires AllAvailable(olds) && newRS.available == newRS.size && ValidStrategy(cfg)
    requires BatchLimit(cfg) <= newRS.size <= cfg.replicas < newRS.size + Total(Size, olds)
    ensures ScaleDownOld(cfg, newRS, olds, budget)
            == Drain(cfg, Sorted(DrainOrder(cfg, olds), olds), newRS.size + Total(Size, olds) - cfg.replicas, budget)
  {
    hide Sorted, Drain, Total, MaxUnavailable, BatchLimit, DrainOrder;
    AvailableTotal(olds);
    FencepostsLeaveRoom(cfg);
  }

  /** With all pods available the drain pass of a new set at its limit takes the old sets down to
      the rest exactly when it gets the writes it needs, and leaves too many otherwise. */
  lemma DrainOutcome(cfg: Config, newRS: ReplicaSet, olds: seq<ReplicaSet>, budget: nat)
    requires AllAvailable(olds) && newRS.available == newRS.size && ValidStrategy(cfg)
    requires BatchLimit(cfg) <= newRS.size <= cfg.replicas < newRS.size + Total(Size, olds)
    ensures var p := ScaleDownOld(cfg, newRS, olds, budget);
            var needed := Needed(Sorted(DrainOrder(cfg, olds), olds), newRS.size + Total(Size, olds) - cfg.replicas);
            && (p.ok <==> budget >= needed) && needed <= |olds|
            && (if p.ok then newRS.size + Total(Size, p.list) == cfg.replicas && p.removed > 0
                else newRS.size + Total(Size, p.list) > cfg.replicas)
  {
    hide Sorted, Drain, Total, BatchLimit, Lowered, Ids, DrainOrder, ScaleDownOld, ValidStrategy, AllAvailable, NonNegative;
    AllowedDrain(cfg, newRS, olds, budget);
    AvailableTotal(olds);
    var t := Sorted(DrainOrder(cfg, olds), olds);
    SortedKeeps(DrainOrder(cfg, olds), olds);
    SortedPermutes(DrainOrder(cfg, olds), olds);
    var most := newRS.size + Total(Size, olds) - cfg.replicas;
    DrainExact(cfg, t, most, budget);
    DrainNeeds(cfg, t, most, budget);
    DrainFacts(cfg, t, most, budget);
  }

  lemma ShrinkOutcome(cfg: Config, newRS: ReplicaSet, olds: seq<ReplicaSet>, budget: nat)
    requires AllAvailable(olds) && newRS.available == newRS.size && ValidStrategy(cfg)
    requires BatchLimit(cfg) <= newRS.size <= cfg.replicas < newRS.size + Total(Size, olds)
    ensures var r := ReconcileOld(cfg, newRS, olds, Total(Size, olds) + newRS.size, budget);
            var needed := Needed(Sorted(DrainOrder(cfg, olds), Sorted(ByCreation, olds)), newRS.size + Total(Size, olds) - cfg.replicas);
            && r.ok && (r.scaled <==> budget >= needed) && needed <= |olds|
            && (if r.scaled then newRS.size + Total(Size, r.list) == cfg.replicas
                else newRS.size + Total(Size, r.list) > cfg.replicas)
  {
    hide Sorted, Cleanup, Total, MaxUnavailable, BatchLimit, ScaleDownOld, ScaleUpOld, Ids, NonNegative;
    FencepostsLeaveRoom(cfg);
    AvailableTotal(olds);
    TotalNonNegative(olds);
    var s := Sorted(ByCreation, olds);
    SortedKeeps(ByCreation, olds);
    SortedPermutes(ByCreation, olds);
    CleanupIdle(cfg, s, MaxScaledDown(cfg, newRS, Total(Size, olds), Total(Size, olds) + newRS.size), budget);
    DrainOutcome(cfg, newRS, s, budget);
  }

  lemma GrowOutcome(cfg: Config, newRS: ReplicaSet, olds: seq<ReplicaSet>, allPods: int, budget: nat)
    requires NonNegative(olds) && Total(Size, olds) > 0
    requires ScaleDownLimitForOld(cfg, Total(Size, olds), newRS.size) < 0
    ensures var r := ReconcileOld(cfg, newRS, olds, allPods, budget);
            if budget == 0 then !r.ok else r.ok && r.scaled
  {
    hide Sorted, Total, MaxUnavailable, NewRSReplicasLimit;
    TotalNonNegative(olds);
    SortedPermutes(BySizeOlder, olds);
    ScaleUpFacts(cfg, olds, -ScaleDownLimitForOld(cfg, Total(Size, olds), newRS.size), budget);
  }

  /** The active old sets in the order in which they are drained. */
  function Drained(cfg: Config, olds: seq<ReplicaSet>): seq<ReplicaSet> {
    Sorted(DrainOrder(cfg, Active(olds)), Sorted(ByCreation, Active(olds)))
  }

  /** The batch leaves too many old pods, and draining them takes more writes than are accepted. */
  predicate DrainRefused(cfg: Config, newRS: ReplicaSet, olds: seq<ReplicaSet>, budget: nat) {
    && newRS.size <= cfg.replicas < newRS.size + Total(Size, olds)
    && budget < Needed(Drained(cfg, olds), newRS.size + Total(Size, olds) - cfg.replicas)
  }

  /** A new set that reached its limit is left alone unless it is beyond the deployment or alone. */
  lemma TargetAtLimit(cfg: Config, n: int, o: int)
    requires n >= BatchLimit(cfg) && n >= 0 && o >= 0 && n + o != cfg.replicas
    ensures NewTarget(cfg, n, o + n) == n <==> n <= cfg.replicas && o > 0
  {
  }

  lemma OutcomeOf(cfg: Config, newRS: ReplicaSet, olds: seq<ReplicaSet>, budget: nat)
    ensures var o := Total(Size, olds);
            var r := ReconcileOld(cfg, newRS, Active(olds), o + newRS.size, budget);
            UpgradeFound(cfg, newRS, olds, budget).outcome
            == if NewTarget(cfg, newRS.size, o + newRS.size) != newRS.size then if budget == 0 then Failed else Scaled
               else if !r.ok then Failed else if r.scaled then Scaled else Quiet
  {
    hide Total, Active, Inactive, ReconcileOld, NewTarget, Resized, MaxSurge, MaxUnavailable, BatchLimit;
  }

  /** What a reconcile leaves, in numbers. */
  lemma LeftTotal(cfg: Config, newRS: ReplicaSet, olds: seq<ReplicaSet>, budget: nat)
    requires NonNegative(olds) && NewTarget(cfg, newRS.size, Total(Size, olds) + newRS.size) == newRS.size
    ensures Total(Size, UpgradeFound(cfg, newRS, olds, budget).list)
            == newRS.size + Total(Size, ReconcileOld(cfg, newRS, Active(olds), Total(Size, olds) + newRS.size, budget).list)
  {
    hide Total, Active, Inactive, ReconcileOld, NewTarget, Resized, MaxSurge, MaxUnavailable, BatchLimit;
    var list := ReconcileOld(cfg, newRS, Active(olds), Total(Size, olds) + newRS.size, budget).list;
    ActiveTotal(olds);
    TotalAppend(Size, Inactive(olds), list);
    TotalAppend(Size, Inactive(olds) + list, [newRS]);
    TotalOfOne(newRS);
  }

  /** Away from the goal, with all pods available and the new set at its limit, a reconcile
      reports a change or an error, unless it drops the error of the drain pass; and then it
      leaves more pods than wanted. */
  lemma MovesAreReported(cfg: Config, newRS: ReplicaSet, olds: seq<ReplicaSet>, budget: nat)
    requires AllAvailable(olds) && newRS.available == newRS.size && ValidStrategy(cfg)
    requires newRS.size >= BatchLimit(cfg) && newRS.size + Total(Size, olds) != cfg.replicas
    ensures UpgradeFound(cfg, newRS, olds, budget).outcome == Quiet <==> DrainRefused(cfg, newRS, olds, budget)
    ensures budget >= |olds| ==> !DrainRefused(cfg, newRS, olds, budget)
    ensures DrainRefused(cfg, newRS, olds, budget) ==> Total(Size, UpgradeFound(cfg, newRS, olds, budget).list) > cfg.replicas
  {
    hide Sorted, Total, Active, Inactive, ReconcileOld, MaxUnavailable, MaxSurge, BatchLimit, NewTarget, UpgradeFound,
         NonNegative, AllAvailable, DrainOrder, Needed;
    OutcomeOf(cfg, newRS, olds, budget);
    var o := Total(Size, olds);
    var act := Active(olds);
    ActiveAvailable(olds);
    AvailableTotal(olds);
    LimitInRange(cfg.partition, cfg.replicas);
    FencepostsLeaveRoom(cfg);
    TargetAtLimit(cfg, newRS.size, o);
    if newRS.size <= cfg.replicas && o > 0 {
      LeftTotal(cfg, newRS, olds, budget);
      if newRS.size + o < cfg.replicas {
        GrowOutcome(cfg, newRS, act, o + newRS.size, budget);
      } else {
        ShrinkOutcome(cfg, newRS, act, budget);
      }
    }
  }

  /** With all pods available a batch passes exactly when its replica sets are where the batch
      wants them, the new set at its limit and the old ones at the rest; or when the new set is
      at its limit and draining the old ones takes more writes than are accepted. That error is
      dropped: the batch passes and more pods than wanted are left. */
  lemma PassesExactlyAtGoal(c: R.Cluster, s: R.Status, cfg: Config, rss: seq<ReplicaSet>, id: Identity, budget: nat)
    requires Listing(rss) && NewOf(cfg.template, rss).Some? && ValidStrategy(cfg) && AllAvailable(rss)
    requires Sees(c, s, cfg, rss)
    ensures var newRS, olds := NewOf(cfg.template, rss).value, OldsOf(cfg.template, rss);
            var tooFew := newRS.size >= BatchLimit(cfg) && DrainRefused(cfg, newRS, olds, budget);
            && (Passes(c, s, cfg, rss, id, budget, newRS.size) <==> Settled(cfg, rss) || tooFew)
            && (tooFew ==> Total(Size, Upgrade(cfg, rss, id, budget).list) > cfg.replicas)
            && (budget >= |rss| ==> !tooFew)
  {
    hide Total, Sorted, NewOf, OldsOf, UpgradeFound, NewRSReplicasLimit, Drained, Needed;
    var newRS, olds := NewOf(cfg.template, rss).value, OldsOf(cfg.template, rss);
    OldsAreTheRest(cfg.template, rss);
    NewOfIsNew(cfg.template, rss, newRS);
    PermutedLength(rss, olds + [newRS]);
    SizesNonNegative(cfg.template, rss);
    TolerationNonNegative(cfg.unavailable, newRS.size);
    if newRS.size >= BatchLimit(cfg) {
      if Settled(cfg, rss) {
        GoalIsQuiet(cfg, rss, id, budget);
      } else {
        MovesAreReported(cfg, newRS, olds, budget);
      }
    }
  }

  lemma {:induction false} OnesNeeded(rss: seq<ReplicaSet>, most: nat)
    requires most <= |rss| && forall x :: x in rss ==> x.size == 1
    ensures Needed(rss, most) == most && Total(Size, rss) == |rss|
  {
    if rss != [] {
      assert rss[0] in rss && forall x :: x in rss[1..] ==> x in rss;
      OnesNeeded(rss[1..], if most > 0 then most - 1 else 0);
    }
  }

  lemma OnesRefused(cfg: Config, newRS: ReplicaSet, olds: seq<ReplicaSet>)
    requires forall x :: x in olds ==> x.size == 1
    requires newRS.size <= cfg.replicas && 2 <= newRS.size + |olds| - cfg.replicas
    ensures DrainRefused(cfg, newRS, olds, 1) && Total(Size, olds) == |olds|
  {
    hide Sorted, Active, Needed, Total, DrainOrder;
    var act := Active(olds);
    AllActive(olds);
    var s := Sorted(ByCreation, act);
    var t := Sorted(DrainOrder(cfg, act), s);
    SortedPermutes(ByCreation, act);
    SortedPermutes(DrainOrder(cfg, act), s);
    OnesNeeded(olds, 0);
    OnesNeeded(t, newRS.size + |olds| - cfg.replicas);
  }

  /** It does happen: of four pods wanted two are new, as the batch asks, and four old ones are
      left; with one write accepted the batch passes with a pod too many. */
  lemma PassesWithTooManyPods() returns (c: R.Cluster, s: R.Status, cfg: Config, rss: seq<ReplicaSet>)
    ensures Listing(rss) && AllAvailable(rss) && ValidStrategy(cfg) && Sees(c, s, cfg, rss) && cfg.replicas == 4
    ensures NewSize(cfg.template, rss) == BatchLimit(cfg) == 2 && OldTotal(cfg.template, rss) == 4
    ensures forall id :: Passes(c, s, cfg, rss, id, 1, 2) && Total(Size, Upgrade(cfg, rss, id, 1).list) > 4
  {
    hide Sorted, NewOf, OldsOf, Total, Upgrade, Passes, NewSize;
    cfg := Config(4, 0, Some(Int(2)), Some(Int(0)), Int(2), 6, 0, {});
    s := R.Status(R.RollingUpdate, 0, R.StepUpgrade, 0, Some(Int(0)), Some(Int(2)), Some(0), false);
    c := R.Cluster(R.Deployment(4, 0, true, false, None, true, 2), R.Spec(0, [Int(2), Percent(100)]),
                   R.Annotations(false, Some(1), Some(1)), s);
    var newRS := ReplicaSet("new", 9, 9, 0, Number(9), 2, 2, Some(4), Some(6));
    var olds := [ReplicaSet("a", 1, 1, 1, Number(1), 1, 1, Some(4), Some(6)),
                 ReplicaSet("b", 2, 2, 2, Number(2), 1, 1, Some(4), Some(6)),
                 ReplicaSet("c", 3, 3, 3, Number(3), 1, 1, Some(4), Some(6)),
                 ReplicaSet("d", 4, 4, 4, Number(4), 1, 1, Some(4), Some(6))];
    rss := olds + [newRS];
    TwoOfFour(cfg, olds, newRS);
    forall id ensures Passes(c, s, cfg, rss, id, 1, 2) && Total(Size, Upgrade(cfg, rss, id, 1).list) > 4 {
      PassesExactlyAtGoal(c, s, cfg, rss, id, 1);
    }
  }

  lemma TwoOfFour(cfg: Config, olds: seq<ReplicaSet>, newRS: ReplicaSet)
    requires Distinct(olds + [newRS]) && newRS.template == cfg.template && newRS.size == 2 && cfg.replicas == 4 && |olds| == 4
    requires forall x :: x in olds ==> x.size == 1 && x.template != cfg.template
    ensures var rss := olds + [newRS];
            && NewOf(cfg.template, rss) == Some(newRS) && NewSize(cfg.template, rss) == 2 && OldTotal(cfg.template, rss) == 4
            && DrainRefused(cfg, newRS, OldsOf(cfg.template, rss), 1)
  {
    hide Sorted, NewOf, OldsOf, Total, DrainRefused;
    var rss := olds + [newRS];
    assert forall x :: x in rss <==> x in olds || x == newRS;
    NewOfIsNew(cfg.template, rss, newRS);
    SplitListing(cfg.template, rss, olds, newRS);
    var rest := OldsOf(cfg.template, rss);
    OldsAreTheRest(cfg.template, rss);
    RestOnes(rss, rest, olds, newRS);
    OnesNeeded(olds, 0);
    OnesRefused(cfg, newRS, rest);
  }

  lemma RestOnes(rss: seq<ReplicaSet>, rest: seq<ReplicaSet>, olds: seq<ReplicaSet>, newRS: ReplicaSet)
    requires rss == olds + [newRS] && multiset(rss) == multiset(rest) + multiset{newRS}
    requires forall x :: x in olds ==> x.size == 1
    ensures |rest| == |olds| && forall x :: x in rest ==> x.size == 1
  {
    assert multiset(rss) - multiset{newRS} == multiset(olds);
    assert multiset(rss) - multiset{newRS} == multiset(rest);
    PermutedLength(rest, olds);
  }

  /** Whatever the pods and the writes do, a batch that passes below its limit was reported more
      updated pods than its new set was given; and as many pods are ready as the tolerated
      unavailability leaves, and one at least. */
  lemma PassedBatchReachedItsLimit(c: R.Cluster, s: R.Status, cfg: Config, rss: seq<ReplicaSet>, id: Identity, budget: nat,
                                   ready: int)
    requires InStep(c, s, cfg) && Passes(c, s, cfg, rss, id, budget, ready)
    ensures NewSize(cfg.template, rss) < BatchLimit(cfg) ==> c.deployment.updatedReplicas > NewSize(cfg.template, rss)
    ensures ready + R.AllowedUnavailable(cfg.unavailable, c.deployment.updatedReplicas) >= BatchLimit(cfg)
    ensures BatchLimit(cfg) > 0 ==> ready != 0
  {
    hide Upgrade, NewRSReplicasLimit;
  }

  /** Without a write nothing is drained. */
  lemma {:induction false} DrainNothing(cfg: Config, rss: seq<ReplicaSet>, most: int)
    ensures Drain(cfg, rss, most, 0).removed == 0 && Drain(cfg, rss, most, 0).list == rss
  {
    if rss != [] && most > 0 && rss[0].size == 0 {
      DrainNothing(cfg, rss[1..], most);
      assert rss == [rss[0]] + rss[1..];
    }
  }

  lemma CleanupNothing(cfg: Config, rss: seq<ReplicaSet>, most: int)
    ensures Cleanup(cfg, rss, most, 0).list == rss && Cleanup(cfg, rss, most, 0).removed == 0
    ensures Cleanup(cfg, rss, most, 0).budget == 0
  {
    if rss != [] && most > 0 {
      assert rss == [rss[0]] + rss[1..];
    }
  }

  /** Below its limit a new set that has no room to grow is left alone by a reconcile without
      writes, which reports nothing. */
  lemma NoRoomIsQuiet(cfg: Config, newRS: ReplicaSet, olds: seq<ReplicaSet>)
    requires NonNegative(olds) && 0 <= newRS.size < BatchLimit(cfg) && ValidStrategy(cfg)
    requires newRS.size + Total(Size, olds) >= cfg.replicas + MaxSurge(cfg)
    ensures UpgradeFound(cfg, newRS, olds, 0).outcome == Quiet
  {
    hide Total, Sorted, Active, Inactive, MaxSurge, MaxUnavailable, NewRSReplicasLimit, Cleanup, Drain;
    OutcomeOf(cfg, newRS, olds, 0);
    LimitInRange(cfg.partition, cfg.replicas);
    FencepostsLeaveRoom(cfg);
    ActiveTotal(olds);
    var act := Active(olds);
    var s := Sorted(ByCreation, act);
    CleanupNothing(cfg, s, MaxScaledDown(cfg, newRS, Total(Size, act), Total(Size, olds) + newRS.size));
    DrainNothing(cfg, Sorted(DrainOrder(cfg, s), s),
                 Min(Total(Available, s) + newRS.available - (cfg.replicas - MaxUnavailable(cfg)),
                     ScaleDownLimitForOld(cfg, Total(Size, s), newRS.size)));
  }

  lemma QuietHasNoRoom(cfg: Config, newRS: ReplicaSet, olds: seq<ReplicaSet>, budget: nat)
    requires NonNegative(olds) && 0 <= newRS.size < BatchLimit(cfg)
    requires UpgradeFound(cfg, newRS, olds, budget).outcome == Quiet
    ensures newRS.size + Total(Size, olds) >= cfg.replicas + MaxSurge(cfg)
  {
    hide Total, Active, Inactive, MaxSurge, MaxUnavailable, NewRSReplicasLimit, ReconcileOld;
    OutcomeOf(cfg, newRS, olds, budget);
    LimitInRange(cfg.partition, cfg.replicas);
    TotalNonNegative(olds);
  }

  /** Whether a batch whose new set is below its limit can pass, with no more ready pods than the
      set has: exactly when there is no room for the set to grow, and the reported updated pods
      reach the limit and, as tolerated unavailable ones, make up for the missing ready ones. */
  lemma PassesBelowLimitExactly(c: R.Cluster, s: R.Status, cfg: Config, rss: seq<ReplicaSet>)
    requires Listing(rss) && NewOf(cfg.template, rss).Some? && ValidStrategy(cfg) && InStep(c, s, cfg)
    requires NewSize(cfg.template, rss) < BatchLimit(cfg)
    ensures var n, updated := NewSize(cfg.template, rss), c.deployment.updatedReplicas;
            (exists id, budget: nat, ready :: 0 <= ready <= n && Passes(c, s, cfg, rss, id, budget, ready))
            <==> && updated >= BatchLimit(cfg)
                 && R.AllowedUnavailable(cfg.unavailable, updated) + n >= BatchLimit(cfg) && n > 0
                 && n + OldTotal(cfg.template, rss) >= cfg.replicas + MaxSurge(cfg)
  {
    hide Total, Sorted, NewOf, OldsOf, UpgradeFound, NewRSReplicasLimit, MaxSurge, R.AllowedUnavailable;
    var newRS, olds := NewOf(cfg.template, rss).value, OldsOf(cfg.template, rss);
    var n, updated := newRS.size, c.deployment.updatedReplicas;
    OldsAreTheRest(cfg.template, rss);
    SizesNonNegative(cfg.template, rss);
    LimitInRange(cfg.partition, cfg.replicas);
    forall id, budget: nat, ready | 0 <= ready <= n && Passes(c, s, cfg, rss, id, budget, ready)
      ensures n + Total(Size, olds) >= cfg.replicas + MaxSurge(cfg)
      ensures updated >= BatchLimit(cfg) && R.AllowedUnavailable(cfg.unavailable, updated) + n >= BatchLimit(cfg) && n > 0
    {
      QuietHasNoRoom(cfg, newRS, olds, budget);
    }
    if && updated >= BatchLimit(cfg)
       && R.AllowedUnavailable(cfg.unavailable, updated) + n >= BatchLimit(cfg) && n > 0
       && n + Total(Size, olds) >= cfg.replicas + MaxSurge(cfg) {
      NoRoomIsQuiet(cfg, newRS, olds);
      assert Passes(c, s, cfg, rss, Identity("", 0, 0), 0, n);
    }
  }

  /** It does happen: the report is still that of the previous release, the new set has one pod of
      the five that the batch asks for, and the error of the refused drain is dropped. */
  lemma StaleReportPasses() returns (c: R.Cluster, s: R.Status, cfg: Config, rss: seq<ReplicaSet>)
    ensures Listing(rss) && AllAvailable(rss) && ValidStrategy(cfg) && InStep(c, s, cfg)
    ensures NewSize(cfg.template, rss) == 1 && BatchLimit(cfg) == 5 && c.deployment.updatedReplicas == cfg.replicas == 10
    ensures forall id :: Passes(c, s, cfg, rss, id, 0, 1)
  {
    hide Sorted, NewOf, OldsOf, Total, Upgrade, NewSize;
    cfg := Config(10, 0, Some(Int(0)), Some(Int(4)), Int(5), 10, 0, {});
    s := R.Status(R.RollingUpdate, 0, R.StepUpgrade, 0, Some(Int(4)), Some(Int(0)), Some(0), false);
    c := R.Cluster(R.Deployment(10, 0, true, false, None, true, 10), R.Spec(0, [Int(5), Percent(100)]),
                   R.Annotations(false, Some(1), Some(1)), s);
    var newRS := ReplicaSet("new", 9, 9, 0, Number(9), 1, 1, Some(10), Some(10));
    var oldRS := ReplicaSet("a", 1, 1, 1, Number(1), 9, 9, Some(10), Some(10));
    rss := [oldRS, newRS];
    OneOfTen(cfg, oldRS, newRS);
  }

  lemma OneOfTen(cfg: Config, oldRS: ReplicaSet, newRS: ReplicaSet)
    requires cfg.replicas == 10 && MaxSurge(cfg) == 0 && BatchLimit(cfg) == 5 && ValidStrategy(cfg)
    requires Distinct([oldRS, newRS]) && newRS.template == cfg.template != oldRS.template
    requires oldRS.size == 9 == oldRS.available && newRS.size == 1 == newRS.available
    ensures NewSize(cfg.template, [oldRS, newRS]) == 1
    ensures forall id :: Upgrade(cfg, [oldRS, newRS], id, 0).outcome == Quiet
  {
    hide Sorted, NewOf, OldsOf, Total, MaxSurge, BatchLimit, UpgradeFound, ValidStrategy;
    var rss, rest := [oldRS, newRS], [oldRS];
    PairListing(cfg.template, oldRS, newRS);
    TotalOfOne(oldRS);
    NoRoomIsQuiet(cfg, newRS, rest);
  }

  /** Liveness of a batch: when every reconcile sees all pods available and gets its first write
      accepted, the batch passes once there were as many reconciles as the first listing says. */
  lemma BatchCompletes(cfg: Config, trace: seq<seq<ReplicaSet>>, c: R.Cluster, s: R.Status, id: Identity, budget: nat)
    requires IsRun(cfg, trace, 1) && ValidStrategy(cfg)
    requires forall k :: 0 <= k < |trace| ==> AllAvailable(trace[k])
    requires |trace| > Remaining(cfg, trace[0]) && Sees(c, s, cfg, trace[|trace| - 1])
    ensures Passes(c, s, cfg, trace[|trace| - 1], id, budget, NewSize(cfg.template, trace[|trace| - 1]))
  {
    hide Total, Sorted, NewOf, OldsOf, Upgrade, Remaining, Next, NewRSReplicasLimit;
    var last := trace[|trace| - 1];
    GoalReached(cfg, trace);
    RunKeeps(cfg, trace, 1);
    GoalIsQuiet(cfg, last, id, budget);
    SizesNonNegative(cfg.template, last);
    TolerationNonNegative(cfg.unavailable, NewSize(cfg.template, last));
  }
}
