/**
  One Upgrade reconcile in terms of two numbers: n, the size of the new set, and o, the total of
  the old ones. Availability of pods and failing writes are arbitrary throughout.
 */
module UpgradeFacts {
  import opened Base
  import opened Limits
  import opened ReplicaSets
  import opened Ordering
  import opened Scaling
  import opened ScalingFacts

  function NewSize(t: Template, rss: seq<ReplicaSet>): int {
    if NewOf(t, rss).Some? then NewOf(t, rss).value.size else 0
  }

  function OldTotal(t: Template, rss: seq<ReplicaSet>): int {
    Total(Size, OldsOf(t, rss))
  }

  lemma SortedKeeps(o: Order, s: seq<ReplicaSet>)
    ensures SameIds(s, Sorted(o, s)) && multiset(Sorted(o, s)) == multiset(s)
    ensures forall m :: Total(m, Sorted(o, s)) == Total(m, s)
    ensures NonNegative(s) ==> NonNegative(Sorted(o, s))
  {
    hide Total, Ids, Sorted;
    SortedPermutes(o, s);
    IdsPermuted(s, Sorted(o, s));
    forall m ensures Total(m, Sorted(o, s)) == Total(m, s) {
      TotalPermuted(m, s, Sorted(o, s));
    }
  }

  // ---- the old sets ----

  /** How reconciling the old sets may move their total; `excess` is the scale-down limit. */
  ghost predicate OldsStep(excess: int, before: int, after: int) {
    || after == before
    || (before > 0 && excess < 0 && after == before - excess)
    || (before > 0 && excess > 0 && before - excess <= after < before)
  }

  lemma RaisedFirst(cfg: Config, s: seq<ReplicaSet>, size: int)
    requires s != [] && NonNegative(s) && size > s[0].size
    ensures var r := [Resized(cfg, s[0], size)] + s[1..];
            && SameIds(s, r) && NonNegative(r)
            && Total(Size, r) == Total(Size, s) - s[0].size + size
            && Total(Serving, r) >= Total(Serving, s)
  {
    hide Total, Ids;
    var r := [Resized(cfg, s[0], size)] + s[1..];
    assert r[1..] == s[1..];
    assert Ids(r) == Ids(s);
    NonNegativeTail(s);
    TotalHead(s);
    TotalHead(r);
  }

  lemma ScaleUpFacts(cfg: Config, olds: seq<ReplicaSet>, count: int, budget: nat)
    requires NonNegative(olds)
    ensures var r := ScaleUpOld(cfg, olds, count, budget);
            && SameIds(olds, r.list) && NonNegative(r.list)
            && Total(Size, r.list) == Total(Size, olds) + (if r.scaled then count else 0)
            && (r.scaled <==> count > 0 && olds != [] && budget > 0)
            && (!r.scaled ==> multiset(r.list) == multiset(olds))
            && Total(Serving, r.list) >= Total(Serving, olds)
  {
    hide Total, Ids, Sorted;
    SortedKeeps(BySizeOlder, olds);
    SortedPermutes(BySizeOlder, olds);
    var s := Sorted(BySizeOlder, olds);
    if count > 0 && olds != [] && budget > 0 {
      RaisedFirst(cfg, s, s[0].size + count);
    }
  }

  /** The whole count goes to the largest old set, the oldest of them if there are several. */
  lemma ScaleUpTakesLargest(cfg: Config, olds: seq<ReplicaSet>, count: int, budget: nat)
    returns (x: ReplicaSet, rest: seq<ReplicaSet>)
    requires Distinct(olds) && olds != [] && count > 0 && budget > 0
    ensures multiset(olds) == multiset{x} + multiset(rest)
    ensures ScaleUpOld(cfg, olds, count, budget).list == [Resized(cfg, x, x.size + count)] + rest
    ensures forall y :: y in rest ==> x.size > y.size || (x.size == y.size && CreatedBefore(x, y))
  {
    hide Sorted, Distinct, MaxSurge;
    var s := Sorted(BySizeOlder, olds);
    SortedPermutes(BySizeOlder, olds);
    SortedOrdered(BySizeOlder, olds);
    x, rest := s[0], s[1..];
    HeadCounts(s);
    forall y | y in rest ensures Less(BySizeOlder, x, y) {
      var i :| 0 <= i < |rest| && rest[i] == y;
      assert s[i + 1] == y;
    }
  }

  lemma ScaleDownFacts(cfg: Config, newRS: ReplicaSet, olds: seq<ReplicaSet>, budget: nat)
    requires NonNegative(olds)
    ensures var p := ScaleDownOld(cfg, newRS, olds, budget);
            var spare := Total(Available, olds) + newRS.available - (cfg.replicas - MaxUnavailable(cfg));
            && SameIds(olds, p.list) && NonNegative(p.list)
            && Total(Size, p.list) == Total(Size, olds) - p.removed
            && Total(Serving, p.list) >= Total(Serving, olds) - p.removed
            && 0 <= p.removed <= Positive(Min(spare, ScaleDownLimitForOld(cfg, Total(Size, olds), newRS.size)))
            && (p.removed == 0 ==> multiset(p.list) == multiset(olds))
  {
    hide Total, Ids, Sorted, Drain, Lowered, SameSets, NonNegative, MaxUnavailable, ScaleDownLimitForOld;
    var spare := Total(Available, olds) + newRS.available - (cfg.replicas - MaxUnavailable(cfg));
    if spare > 0 {
      SortedKeeps(DrainOrder(cfg, olds), olds);
      var s := Sorted(DrainOrder(cfg, olds), olds);
      var most := Min(spare, ScaleDownLimitForOld(cfg, Total(Size, olds), newRS.size));
      DrainFacts(cfg, s, most, budget);
      LoweredMeans(s, Drain(cfg, s, most, budget).list);
    }
  }

  lemma CleanupKeeps(cfg: Config, olds: seq<ReplicaSet>, most: int, budget: nat)
    requires NonNegative(olds)
    ensures var p := Cleanup(cfg, Sorted(ByCreation, olds), most, budget);
            && SameIds(olds, p.list) && NonNegative(p.list)
            && Total(Size, p.list) == Total(Size, olds) - p.removed
            && Total(Serving, p.list) == Total(Serving, olds)
            && Total(Available, p.list) == Total(Available, olds)
            && 0 <= p.removed <= Positive(most)
            && (p.removed == 0 ==> multiset(p.list) == multiset(olds))
  {
    hide Total, Ids, Sorted, Cleanup, Lowered;
    var s := Sorted(ByCreation, olds);
    SortedKeeps(ByCreation, olds);
    CleanupFacts(cfg, s, most, budget);
    LoweredMeans(s, Cleanup(cfg, s, most, budget).list);
  }

  /** Every set is kept, and if the total stays then nothing at all was written. */
  ghost predicate Moved(before: seq<ReplicaSet>, after: seq<ReplicaSet>) {
    && SameIds(before, after) && NonNegative(after)
    && (Total(Size, after) == Total(Size, before) ==> multiset(after) == multiset(before))
  }

  /** The two scale-down passes, entered with a positive limit and a positive allowance. */
  lemma ShrinkFacts(cfg: Config, newRS: ReplicaSet, olds: seq<ReplicaSet>, allPods: int, budget: nat)
    requires NonNegative(olds) && Total(Size, olds) > 0
    requires ScaleDownLimitForOld(cfg, Total(Size, olds), newRS.size) > 0
    requires MaxScaledDown(cfg, newRS, Total(Size, olds), allPods) > 0
    ensures var r := ReconcileOld(cfg, newRS, olds, allPods, budget);
            && Moved(olds, r.list)
            && Total(Size, olds) - ScaleDownLimitForOld(cfg, Total(Size, olds), newRS.size)
               <= Total(Size, r.list) <= Total(Size, olds)
            && (r.scaled ==> Total(Size, r.list) != Total(Size, olds))
  {
    hide Total, Sorted, Cleanup, Drain, Ids;
    var most := MaxScaledDown(cfg, newRS, Total(Size, olds), allPods);
    CleanupKeeps(cfg, olds, most, budget);
    var c := Cleanup(cfg, Sorted(ByCreation, olds), most, budget);
    if c.ok {
      ScaleDownFacts(cfg, newRS, c.list, c.budget);
    }
  }

  /** Reconciling the old sets moves their total towards what the partition leaves them and never
      past it, keeps every set, and changes something only if it changes the total. */
  lemma ReconcileOldFacts(cfg: Config, newRS: ReplicaSet, olds: seq<ReplicaSet>, allPods: int, budget: nat)
    requires NonNegative(olds)
    ensures var r := ReconcileOld(cfg, newRS, olds, allPods, budget);
            && Moved(olds, r.list)
            && OldsStep(ScaleDownLimitForOld(cfg, Total(Size, olds), newRS.size), Total(Size, olds), Total(Size, r.list))
            && (r.scaled ==> Total(Size, r.list) != Total(Size, olds))
  {
    hide Total, Ids, Sorted, Cleanup, MaxUnavailable, NewRSReplicasLimit, ScaleUpOld, ScaleDownOld;
    TotalNonNegative(olds);
    var limit := ScaleDownLimitForOld(cfg, Total(Size, olds), newRS.size);
    if Total(Size, olds) != 0 {
      if limit <= 0 {
        ScaleUpFacts(cfg, olds, -limit, budget);
      } else if MaxScaledDown(cfg, newRS, Total(Size, olds), allPods) > 0 {
        ShrinkFacts(cfg, newRS, olds, allPods, budget);
      }
    }
  }

  // ---- the whole reconcile ----

  /** How an Upgrade reconcile over an existing new set may move (n, o). */
  ghost predicate SizesStep(cfg: Config, n: int, o: int, n': int, o': int) {
    var target := NewTarget(cfg, n, o + n);
    || (n' == n && o' == o)
    || (target != n && n' == target && o' == o)
    || (target == n && n' == n && OldsStep(ScaleDownLimitForOld(cfg, o, n), o, o'))
  }

  lemma JoinIds(olds: seq<ReplicaSet>, list: seq<ReplicaSet>, x: ReplicaSet, y: ReplicaSet)
    requires SameIds(olds, list) && Id(x) == Id(y)
    ensures SameIds(olds + [x], list + [y])
  {
    IdsAppend(olds, [x]);
    IdsAppend(list, [y]);
  }

  /** Putting the changed active sets back beside the empty ones. */
  lemma Rejoin(all: seq<ReplicaSet>, list: seq<ReplicaSet>)
    requires SameIds(Active(all), list) && NonNegative(all)
    ensures SameIds(all, Inactive(all) + list)
    ensures Total(Size, Inactive(all) + list) == Total(Size, list)
    ensures Total(Size, Active(all)) == Total(Size, all)
  {
    hide Total, Ids, Active, Inactive;
    ActiveSplit(all);
    ActiveTotal(all);
    IdsPermuted(all, Inactive(all) + Active(all));
    IdsAppend(Inactive(all), Active(all));
    IdsAppend(Inactive(all), list);
    TotalAppend(Size, Inactive(all), list);
  }

  lemma InactiveJoin(olds: seq<ReplicaSet>, list: seq<ReplicaSet>)
    requires Moved(Active(olds), list) && NonNegative(olds)
    ensures Moved(olds, Inactive(olds) + list)
    ensures Total(Size, Inactive(olds) + list) == Total(Size, list)
  {
    Rejoin(olds, list);
    ActiveSplit(olds);
  }

  /** What a reconcile that found its new set leaves: the old sets and the new one. */
  lemma FoundSizes(cfg: Config, newRS: ReplicaSet, olds: seq<ReplicaSet>, budget: nat)
    returns (list: seq<ReplicaSet>, after: ReplicaSet)
    requires NonNegative(olds) && newRS.size >= 0
    ensures UpgradeFound(cfg, newRS, olds, budget).list == list + [after]
    ensures Moved(olds, list) && Id(after) == Id(newRS) && after.size >= 0
    ensures SizesStep(cfg, newRS.size, Total(Size, olds), after.size, Total(Size, list))
    ensures after.size == newRS.size ==> after == newRS
    ensures var target := NewTarget(cfg, newRS.size, Total(Size, olds) + newRS.size);
            if target != newRS.size then budget > 0 ==> after.size == target
            else list == Inactive(olds) + ReconcileOld(cfg, newRS, Active(olds), Total(Size, olds) + newRS.size, budget).list
  {
    hide Total, Sorted, Ids, ReconcileOld, Active, Inactive, NewTarget, NewRSReplicasLimit, MaxSurge;
    var u := UpgradeFound(cfg, newRS, olds, budget);
    var o := Total(Size, olds);
    var target := NewTarget(cfg, newRS.size, o + newRS.size);
    TotalNonNegative(olds);
    if target != newRS.size {
      list, after := olds, if budget == 0 then newRS else Resized(cfg, newRS, target);
      TargetInRange(cfg, newRS.size, o);
    } else {
      after := newRS;
      var r := ReconcileOld(cfg, newRS, Active(olds), o + newRS.size, budget);
      list := Inactive(olds) + r.list;
      ReconcileOldFacts(cfg, newRS, Active(olds), o + newRS.size, budget);
      InactiveJoin(olds, r.list);
      ActiveTotal(olds);
    }
  }

  /** The new set is never asked for a negative size or for more than the deployment. */
  lemma TargetInRange(cfg: Config, n: int, o: int)
    requires n >= 0 && o >= 0
    ensures 0 <= NewTarget(cfg, n, o + n) <= cfg.replicas
  {
    LimitInRange(cfg.partition, cfg.replicas);
  }
}
