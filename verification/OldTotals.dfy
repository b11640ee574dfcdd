/**
  Where one reconcile of the old replica sets leaves their total, in closed form, with pods that
  are not available on either side.
 */
module OldTotals {
  import opened Base
  import opened Limits
  import opened ReplicaSets
  import opened Ordering
  import opened Scaling
  import opened ScalingFacts
  import opened UpgradeFacts
  import opened RolloutRuns

  /** The pods the old sets have to provide for `replicas - unavailable` pods to be there beside the
      available ones of the new set. Pods of the new set that are not available do not count. */
  function Floor(cfg: Config, newRS: ReplicaSet): int {
    cfg.replicas - MaxUnavailable(cfg) - newRS.available
  }

  /** What the batch leaves the old sets, whatever is available. */
  function Share(cfg: Config, newRS: ReplicaSet): int {
    cfg.replicas - Max(BatchLimit(cfg), newRS.size)
  }

  lemma {:induction false} ServingAtMostSize(rss: seq<ReplicaSet>)
    ensures Total(Serving, rss) <= Total(Size, rss)
  {
    if rss != [] {
      ServingAtMostSize(rss[1..]);
    }
  }

  // ---- the floor, however the writes fare ----

  lemma ShrinkFloor(cfg: Config, newRS: ReplicaSet, olds: seq<ReplicaSet>, most: int, budget: nat)
    requires Sane(olds) && most <= Total(Size, olds) - Floor(cfg, newRS)
    ensures var c := Cleanup(cfg, Sorted(ByCreation, olds), most, budget);
            && (most > 0 ==> Total(Size, c.list) >= Floor(cfg, newRS))
            && (most > 0 ==> Total(Size, ScaleDownOld(cfg, newRS, c.list, c.budget).list) >= Floor(cfg, newRS))
  {
    hide Sorted, Cleanup, Total, Ids, MaxUnavailable, ScaleDownOld, ScaleDownLimitForOld;
    SaneTotals(olds);
    CleanupKeeps(cfg, olds, most, budget);
    var c := Cleanup(cfg, Sorted(ByCreation, olds), most, budget);
    ScaleDownFacts(cfg, newRS, c.list, c.budget);
    ServingAtMostSize(ScaleDownOld(cfg, newRS, c.list, c.budget).list);
  }

  /** Old pods go only while, the unavailable pods of the new set aside, more than
      `replicas - unavailable` are there: new pods that never become available cost no old one. */
  lemma PodsFloor(cfg: Config, newRS: ReplicaSet, olds: seq<ReplicaSet>, budget: nat)
    requires Sane(olds)
    ensures var list := ReconcileOld(cfg, newRS, olds, Total(Size, olds) + newRS.size, budget).list;
            Total(Size, list) + newRS.available
            >= Min(Total(Size, olds) + newRS.available, cfg.replicas - MaxUnavailable(cfg))
  {
    hide Sorted, Cleanup, Total, Ids, MaxUnavailable, NewRSReplicasLimit, ScaleDownOld, ScaleUpOld;
    SaneTotals(olds);
    var limit := ScaleDownLimitForOld(cfg, Total(Size, olds), newRS.size);
    var most := MaxScaledDown(cfg, newRS, Total(Size, olds), Total(Size, olds) + newRS.size);
    if Total(Size, olds) != 0 {
      if limit <= 0 {
        ScaleUpFacts(cfg, olds, -limit, budget);
      } else if most > 0 {
        ShrinkFloor(cfg, newRS, olds, most, budget);
      }
    }
  }

  // ---- the exact total, with no write refused ----

  lemma CleanedExactly(cfg: Config, olds: seq<ReplicaSet>, most: int, budget: nat)
    requires Sane(olds) && budget >= 2 * |olds| && most > 0
    ensures var c := Cleanup(cfg, Sorted(ByCreation, olds), most, budget);
            && c.ok && c.removed == Min(most, Total(Size, olds) - Total(Available, olds)) && c.budget >= |c.list|
            && NonNegative(c.list) && Total(Available, c.list) == Total(Available, olds)
            && Total(Size, c.list) == Total(Size, olds) - c.removed
    ensures 0 <= Total(Available, olds) <= Total(Size, olds)
  {
    hide Sorted, Cleanup, Total, Ids, Sane;
    var s := Sorted(ByCreation, olds);
    SortedPermutes(ByCreation, olds);
    SortedKeeps(ByCreation, olds);
    SanePermuted(olds, s);
    SaneTotals(olds);
    AvailableNonNegative(olds);
    CleanupCompletes(cfg, s, most, budget);
    CleanupBudget(cfg, s, most, budget);
    CleanupKeeps(cfg, olds, most, budget);
  }

  lemma DrainedExactly(cfg: Config, newRS: ReplicaSet, olds: seq<ReplicaSet>, budget: nat)
    requires NonNegative(olds) && budget >= |olds|
    ensures var p := ScaleDownOld(cfg, newRS, olds, budget);
            && p.ok && Total(Size, p.list) == Total(Size, olds) - p.removed
            && p.removed == Min(Positive(Min(Total(Available, olds) - Floor(cfg, newRS), Total(Size, olds) - Share(cfg, newRS))),
                                Total(Size, olds))
  {
    hide Sorted, Drain, Total, Ids, MaxUnavailable, BatchLimit, DrainOrder, Lowered;
    var s := Sorted(DrainOrder(cfg, olds), olds);
    SortedPermutes(DrainOrder(cfg, olds), olds);
    SortedKeeps(DrainOrder(cfg, olds), olds);
    TotalNonNegative(olds);
    var most := Min(Total(Available, olds) - Floor(cfg, newRS), Total(Size, olds) - Share(cfg, newRS));
    DrainExact(cfg, s, most, budget);
    DrainFacts(cfg, s, most, budget);
  }

  /** What one reconcile makes of the total of the old sets: their share if it is more; otherwise
      the larger of the share and the floor, if that is less. */
  function OldGoal(cfg: Config, newRS: ReplicaSet, oldPods: int): int {
    if oldPods == 0 then 0
    else if Share(cfg, newRS) >= oldPods then Share(cfg, newRS)
    else Min(oldPods, Max(0, Max(Share(cfg, newRS), Floor(cfg, newRS))))
  }

  /** Exactly there, in one reconcile, and the outcome tells whether that was a change. */
  lemma ReconcileOldExactly(cfg: Config, newRS: ReplicaSet, olds: seq<ReplicaSet>, budget: nat)
    requires Sane(olds) && budget >= 2 * |olds|
    ensures var oldPods := Total(Size, olds);
            var r := ReconcileOld(cfg, newRS, olds, oldPods + newRS.size, budget);
            && r.ok && Total(Size, r.list) == OldGoal(cfg, newRS, oldPods)
            && (r.scaled <==> OldGoal(cfg, newRS, oldPods) != oldPods)
  {
    hide Sorted, Cleanup, Total, Ids, MaxUnavailable, BatchLimit, ScaleDownOld, ScaleUpOld;
    SaneTotals(olds);
    TotalNonNegative(olds);
    TotalOfNone();
    var oldPods := Total(Size, olds);
    var limit := ScaleDownLimitForOld(cfg, oldPods, newRS.size);
    var most := MaxScaledDown(cfg, newRS, oldPods, oldPods + newRS.size);
    if oldPods != 0 {
      if limit <= 0 {
        ScaleUpFacts(cfg, olds, -limit, budget);
        ScaleUpOk(cfg, olds, -limit, budget);
      } else if most > 0 {
        CleanedExactly(cfg, olds, most, budget);
        var c := Cleanup(cfg, Sorted(ByCreation, olds), most, budget);
        DrainedExactly(cfg, newRS, c.list, c.budget);
      }
    }
  }

  lemma ScaleUpOk(cfg: Config, olds: seq<ReplicaSet>, count: int, budget: nat)
    requires budget > 0
    ensures ScaleUpOld(cfg, olds, count, budget).ok
  {
    hide Sorted;
    SortedPermutes(BySizeOlder, olds);
  }

  // ---- the whole reconcile ----

  /** The new set is given as many pods as the batch asks for and the surge leaves room for, unless it
      has more already; and all of the Deployment's where no other pod is. */
  lemma TargetExactly(cfg: Config, n: nat, o: nat)
    requires MaxSurge(cfg) >= 0
    ensures NewTarget(cfg, n, o + n)
            == if n >= cfg.replicas || o == 0 then cfg.replicas
               else Max(n, Min(BatchLimit(cfg), cfg.replicas + MaxSurge(cfg) - o))
  {
    hide MaxSurge;
    LimitInRange(cfg.partition, cfg.replicas);
  }

  lemma ActiveOlds(olds: seq<ReplicaSet>)
    requires Sane(olds)
    ensures Sane(Active(olds)) && Total(Size, Active(olds)) == Total(Size, olds) && |Active(olds)| <= |olds|
  {
    hide Total;
    SaneTotals(olds);
    ActiveTotal(olds);
    ActiveLength(olds);
  }

  lemma {:induction false} ActiveLength(rss: seq<ReplicaSet>)
    ensures |Active(rss)| <= |rss|
  {
    if rss != [] {
      ActiveLength(rss[1..]);
    }
  }

  /** Of the active old sets, the empty ones put back. */
  lemma OldsExactly(cfg: Config, newRS: ReplicaSet, olds: seq<ReplicaSet>, budget: nat)
    requires Sane(olds)
    ensures var o := Total(Size, olds);
            var left := Total(Size, Inactive(olds) + ReconcileOld(cfg, newRS, Active(olds), o + newRS.size, budget).list);
            && left >= Min(o, Floor(cfg, newRS))
            && (budget > 2 * |olds| ==> left == OldGoal(cfg, newRS, o))
  {
    hide Total, ReconcileOld, Active, Inactive, OldGoal, Sane, Floor;
    SaneTotals(olds);
    ActiveOlds(olds);
    ActiveTotal(olds);
    TotalAppend(Size, Inactive(olds), ReconcileOld(cfg, newRS, Active(olds), Total(Size, olds) + newRS.size, budget).list);
    ActiveFloor(cfg, newRS, Active(olds), budget);
    if budget > 2 * |olds| {
      ReconcileOldExactly(cfg, newRS, Active(olds), budget);
    }
  }

  lemma ActiveFloor(cfg: Config, newRS: ReplicaSet, olds: seq<ReplicaSet>, budget: nat)
    requires Sane(olds)
    ensures var o := Total(Size, olds);
            Total(Size, ReconcileOld(cfg, newRS, olds, o + newRS.size, budget).list) >= Min(o, Floor(cfg, newRS))
  {
    hide Total, ReconcileOld, Sane, MaxUnavailable;
    PodsFloor(cfg, newRS, olds, budget);
  }

  lemma FoundExactly(cfg: Config, rss: seq<ReplicaSet>, newRS: ReplicaSet, olds: seq<ReplicaSet>, budget: nat)
    requires Listing(rss) && NewOf(cfg.template, rss) == Some(newRS) && multiset(rss) == multiset(olds + [newRS]) && Sane(olds)
    ensures var l, o, floor := UpgradeFound(cfg, newRS, olds, budget).list, Total(Size, olds), Floor(cfg, newRS);
            var target := NewTarget(cfg, newRS.size, o + newRS.size);
            && OldTotal(cfg.template, l) >= Min(o, floor)
            && (budget > 2 * |olds| ==>
                  && NewSize(cfg.template, l) == target
                  && OldTotal(cfg.template, l) == if target != newRS.size then o else OldGoal(cfg, newRS, o))
  {
    hide Total, UpgradeFound, NewTarget, Floor, OldGoal, Sane, Listing, NewOf, OldTotal, NewSize, ReconcileOld, Active, Inactive;
    var list, after := FoundTotals(cfg, rss, newRS, olds, budget);
    FoundSplit(cfg, rss, newRS, olds, budget, list, after);
  }

  lemma FoundTotals(cfg: Config, rss: seq<ReplicaSet>, newRS: ReplicaSet, olds: seq<ReplicaSet>, budget: nat)
    returns (list: seq<ReplicaSet>, after: ReplicaSet)
    requires Listing(rss) && NewOf(cfg.template, rss) == Some(newRS) && Sane(olds)
    ensures UpgradeFound(cfg, newRS, olds, budget).list == list + [after]
    ensures var o, floor, target := Total(Size, olds), Floor(cfg, newRS), NewTarget(cfg, newRS.size, Total(Size, olds) + newRS.size);
            && Total(Size, list) >= Min(o, floor)
            && (budget > 2 * |olds| ==>
                  && after.size == target && Total(Size, list) == if target != newRS.size then o else OldGoal(cfg, newRS, o))
  {
    hide Total, UpgradeFound, NewTarget, Floor, OldGoal, OldsStep, ReconcileOld, Active, Inactive, Ids;
    SaneTotals(olds);
    NewInListing(cfg.template, rss, newRS);
    list, after := FoundSizes(cfg, newRS, olds, budget);
    OldsExactly(cfg, newRS, olds, budget);
  }

  lemma NewInListing(t: Template, rss: seq<ReplicaSet>, newRS: ReplicaSet)
    requires Listing(rss) && NewOf(t, rss) == Some(newRS)
    ensures newRS in rss && newRS.size >= 0
  {
    hide NewOf;
    NewOfIsNew(t, rss, newRS);
  }

  lemma FoundSplit(cfg: Config, rss: seq<ReplicaSet>, newRS: ReplicaSet, olds: seq<ReplicaSet>, budget: nat,
                   list: seq<ReplicaSet>, after: ReplicaSet)
    requires Listing(rss) && NewOf(cfg.template, rss) == Some(newRS) && multiset(rss) == multiset(olds + [newRS])
    requires UpgradeFound(cfg, newRS, olds, budget).list == list + [after]
    ensures var l := UpgradeFound(cfg, newRS, olds, budget).list;
            NewSize(cfg.template, l) == after.size && OldTotal(cfg.template, l) == Total(Size, list)
  {
    hide Total, Sorted, Ids, UpgradeFound, SizesStep, OldsOf, NewOf, OldTotal, NewSize;
    var l := list + [after];
    FoundListing(cfg, rss, newRS, olds, budget);
    assert l[|l| - 1] == after;
    SplitListing(cfg.template, l, list, after);
  }

  /** A whole reconcile keeps the floor too, however its writes fare: beside the available pods of the
      new set as many old ones stay as there were, or as make up `replicas - unavailable`. */
  lemma UpgradeFloor(cfg: Config, rss: seq<ReplicaSet>, id: Identity, budget: nat)
    requires Listing(rss) && Sane(rss) && Unused(id, rss)
    ensures var found := NewOf(cfg.template, rss);
            var available := if found.Some? then found.value.available else 0;
            OldTotal(cfg.template, Upgrade(cfg, rss, id, budget).list) + available
            >= Min(OldTotal(cfg.template, rss) + available, cfg.replicas - MaxUnavailable(cfg))
  {
    hide Total, Sorted, Ids, UpgradeFound, NewOf, OldsOf, MaxUnavailable, Created, NewTarget, OldGoal;
    var found, olds := NewOf(cfg.template, rss), OldsOf(cfg.template, rss);
    OldsAreTheRest(cfg.template, rss);
    assert Sane(olds);
    if found.Some? {
      FoundExactly(cfg, rss, found.value, olds, budget);
    } else if budget > 0 {
      CreatedListing(cfg, rss, id);
      CreatedUnavailable(cfg, olds, id);
      FoundExactly(cfg, olds + [Created(cfg, olds, id)], Created(cfg, olds, id), olds, budget - 1);
    }
  }

  lemma CreatedUnavailable(cfg: Config, olds: seq<ReplicaSet>, id: Identity)
    ensures Created(cfg, olds, id).available == 0
  {
  }

  /** With no write refused a reconcile either takes the new set to its target or, being there, the
      old sets to theirs, whatever is available. */
  lemma UpgradeExactly(cfg: Config, rss: seq<ReplicaSet>, id: Identity, budget: nat)
    requires Listing(rss) && Sane(rss) && NewOf(cfg.template, rss).Some? && budget > 2 * |rss|
    ensures var newRS, o := NewOf(cfg.template, rss).value, OldTotal(cfg.template, rss);
            var l := Upgrade(cfg, rss, id, budget).list;
            && NewSize(cfg.template, l) == NewTarget(cfg, newRS.size, o + newRS.size)
            && OldTotal(cfg.template, l) == if NewSize(cfg.template, l) != newRS.size then o else OldGoal(cfg, newRS, o)
  {
    hide Total, Sorted, Ids, UpgradeFound, NewOf, OldsOf, MaxUnavailable, NewTarget, OldGoal;
    var newRS, olds := NewOf(cfg.template, rss).value, OldsOf(cfg.template, rss);
    OldsAreTheRest(cfg.template, rss);
    PermutedLength(rss, olds + [newRS]);
    assert Sane(olds);
    FoundExactly(cfg, rss, newRS, olds, budget);
  }
}
