/**
  The list of all sets is built by appending the new set to the slice of the old ones. Where that
  slice has room the two lists are one array, and sorting the longer one to look the new set up
  rearranges the shorter one while it is being scaled down.
 */
module SharedSlices {
  import opened Base
  import opened Limits
  import opened ReplicaSets
  import opened Ordering
  import opened Scaling
  import opened ScalingFacts
  import opened UpgradeFacts
  import RolloutRuns

  ghost predicate Youngest(newRS: ReplicaSet, olds: seq<ReplicaSet>) {
    forall x :: x in olds ==> CreatedBefore(x, newRS)
  }

  /** Sharing does no harm: the slice of active old sets has no room, or the new set is the youngest. */
  ghost predicate Separable(cfg: Config, newRS: ReplicaSet, olds: seq<ReplicaSet>) {
    |Active(olds)| in cfg.slack ==> Youngest(newRS, Active(olds))
  }

  /** What the shared array holds once the new set has been looked up. */
  function Shared(olds: seq<ReplicaSet>, newRS: ReplicaSet): (r: seq<ReplicaSet>)
    ensures |r| == |olds| + 1
  {
    SortedPermutes(ByCreation, olds + [newRS]);
    Sorted(ByCreation, olds + [newRS])
  }

  /** How many available pods may go. */
  function Spare(cfg: Config, newRS: ReplicaSet, olds: seq<ReplicaSet>): int {
    Total(Available, olds) + newRS.available - (cfg.replicas - MaxUnavailable(cfg))
  }

  /** How many replicas the shared scale-down removes: the limit reads the front of the array. */
  function SharedMost(cfg: Config, newRS: ReplicaSet, olds: seq<ReplicaSet>): int {
    Min(Spare(cfg, newRS, olds), ScaleDownLimitForOld(cfg, Total(Size, Shared(olds, newRS)[..|olds|]), newRS.size))
  }

  /** The scale-down over one array: all sets as they are stored afterwards. */
  function ScaleDownShared(cfg: Config, newRS: ReplicaSet, olds: seq<ReplicaSet>, budget: nat): Pass {
    if Spare(cfg, newRS, olds) <= 0 then Pass(olds + [newRS], 0, budget, true)
    else
      var all := Shared(olds, newRS);
      var p := Drain(cfg, all[..|olds|], SharedMost(cfg, newRS, olds), budget);
      p.(list := p.list + [all[|olds|]])
  }

  // ---- the reconcile as the code does it ----

  /** The scale-down of the slice that the new set was appended to, the new set included. */
  function ScaleDownAppended(cfg: Config, newRS: ReplicaSet, olds: seq<ReplicaSet>, budget: nat): Pass {
    if |olds| in cfg.slack then ScaleDownShared(cfg, newRS, olds, budget)
    else
      var p := ScaleDownOld(cfg, newRS, olds, budget);
      p.(list := p.list + [newRS])
  }

  function ReconcileOldAppended(cfg: Config, newRS: ReplicaSet, olds: seq<ReplicaSet>, allPods: int, budget: nat): OldPass {
    var oldPods := Total(Size, olds);
    var limit := ScaleDownLimitForOld(cfg, oldPods, newRS.size);
    var most := MaxScaledDown(cfg, newRS, oldPods, allPods);
    if oldPods == 0 then OldPass(olds + [newRS], false, budget, true)
    else if limit <= 0 then
      var r := ScaleUpOld(cfg, olds, -limit, budget);
      r.(list := r.list + [newRS])
    else if most <= 0 then OldPass(olds + [newRS], false, budget, true)
    else
      var cleaned := Cleanup(cfg, Sorted(ByCreation, olds), most, budget);
      if !cleaned.ok then OldPass(cleaned.list + [newRS], false, cleaned.budget, true)
      else
        var drained := ScaleDownAppended(cfg, newRS, cleaned.list, cleaned.budget);
        OldPass(drained.list, drained.ok && cleaned.removed + drained.removed > 0, drained.budget, true)
  }

  function UpgradeFoundAppended(cfg: Config, newRS: ReplicaSet, olds: seq<ReplicaSet>, budget: nat): Upgraded {
    var allPods := Total(Size, olds) + newRS.size;
    var target := NewTarget(cfg, newRS.size, allPods);
    if target != newRS.size then
      if budget == 0 then Upgraded(olds + [newRS], Failed)
      else Upgraded(olds + [Resized(cfg, newRS, target)], Scaled)
    else
      var r := ReconcileOldAppended(cfg, newRS, Active(olds), allPods, budget);
      Upgraded(Inactive(olds) + r.list, if !r.ok then Failed else if r.scaled then Scaled else Quiet)
  }

  /** `differs` tells whether the found set also differs in what is not modelled: the Deployment's
      annotations and its minReadySeconds. Then, or to raise its revision, it is written first. */
  function UpgradeAppended(cfg: Config, rss: seq<ReplicaSet>, id: Identity, differs: bool, budget: nat): Upgraded {
    var found := NewOf(cfg.template, rss);
    var olds := OldsOf(cfg.template, rss);
    if found.Some? then
      var numbered := Renumbered(found.value, olds);
      if !differs && numbered == found.value then UpgradeFoundAppended(cfg, found.value, olds, budget)
      else if budget == 0 then Upgraded(rss, Failed)
      else UpgradeFoundAppended(cfg, numbered, olds, budget - 1)
    else if budget == 0 then Upgraded(rss, Failed)
    else UpgradeFoundAppended(cfg, Created(cfg, olds, id), olds, budget - 1)
  }

  /** A found set that has to be written first and is refused that write ends the reconcile. */
  lemma RefusedWriteFails(cfg: Config, rss: seq<ReplicaSet>, id: Identity, differs: bool, budget: nat)
    requires NewOf(cfg.template, rss).Some?
    requires differs || Renumbered(NewOf(cfg.template, rss).value, OldsOf(cfg.template, rss)) != NewOf(cfg.template, rss).value
    ensures UpgradeAppended(cfg, rss, id, differs, 0) == Upgraded(rss, Failed)
    ensures UpgradeAppended(cfg, rss, id, differs, budget).outcome != Failed ==> budget > 0
  {
    hide NewOf, OldsOf, Renumbered, UpgradeFoundAppended;
  }

  lemma OrderedJoin(olds: seq<ReplicaSet>, newRS: ReplicaSet)
    requires Distinct(olds + [newRS]) && Youngest(newRS, olds)
    ensures Shared(olds, newRS) == Sorted(ByCreation, olds) + [newRS]
  {
    hide Sorted;
    var s := Sorted(ByCreation, olds);
    assert forall i :: 0 <= i < |olds| ==> olds[i] == (olds + [newRS])[i];
    SortedPermutes(ByCreation, olds);
    SortedOrdered(ByCreation, olds);
    SortedPermutes(ByCreation, olds + [newRS]);
    SortedOrdered(ByCreation, olds + [newRS]);
    DistinctPermuted(olds + [newRS], Shared(olds, newRS));
    OrderedUnique(ByCreation, Shared(olds, newRS), s + [newRS]);
  }

  /** With the new set the youngest only the order changes: the old sets are drained from the
      oldest instead of from the highest revision. */
  lemma SharedWhenYoungest(cfg: Config, newRS: ReplicaSet, olds: seq<ReplicaSet>, budget: nat)
    requires Distinct(olds + [newRS]) && Youngest(newRS, olds) && |olds| in cfg.slack
    ensures var p := ScaleDownOld(cfg, newRS, olds, budget);
            ScaleDownShared(cfg, newRS, olds, budget) == p.(list := p.list + [newRS])
  {
    hide Sorted, Drain, Total, MaxUnavailable, NewRSReplicasLimit;
    OrderedJoin(olds, newRS);
    SortedPermutes(ByCreation, olds);
    assert Shared(olds, newRS)[..|olds|] == Sorted(ByCreation, olds);
    TotalPermuted(Size, olds, Sorted(ByCreation, olds));
  }

  lemma YoungestKept(olds: seq<ReplicaSet>, list: seq<ReplicaSet>, newRS: ReplicaSet)
    requires SameIds(olds, list) && Youngest(newRS, olds)
    ensures Youngest(newRS, list)
  {
    hide Ids;
    assert SameIds(list, olds);
    forall y | y in list ensures CreatedBefore(y, newRS) {
      var x := Counterpart(list, olds, y);
      assert Id(x).name == Id(y).name && Id(x).created == Id(y).created;
    }
  }

  lemma CleanedList(cfg: Config, newRS: ReplicaSet, olds: seq<ReplicaSet>, most: int, budget: nat)
    requires Distinct(olds + [newRS]) && NonNegative(olds)
    ensures var list := Cleanup(cfg, Sorted(ByCreation, olds), most, budget).list;
            Distinct(list + [newRS]) && SameIds(olds, list) && |list| == |olds|
  {
    hide Sorted, Cleanup, Ids, Total;
    var list := Cleanup(cfg, Sorted(ByCreation, olds), most, budget).list;
    CleanupKeeps(cfg, olds, most, budget);
    PermutedLength(Ids(olds), Ids(list));
    JoinIds(olds, list, newRS, newRS);
    DistinctByIds(olds + [newRS], list + [newRS]);
  }

  lemma ReconcileOldSame(cfg: Config, newRS: ReplicaSet, olds: seq<ReplicaSet>, allPods: int, budget: nat)
    requires Distinct(olds + [newRS]) && NonNegative(olds) && (|olds| in cfg.slack ==> Youngest(newRS, olds))
    ensures var r := ReconcileOld(cfg, newRS, olds, allPods, budget);
            ReconcileOldAppended(cfg, newRS, olds, allPods, budget) == r.(list := r.list + [newRS])
  {
    hide Sorted, Cleanup, Total, Ids, ScaleDownOld, ScaleDownShared, ScaleUpOld, MaxUnavailable, NewRSReplicasLimit, Distinct,
         NonNegative, Youngest;
    var most := MaxScaledDown(cfg, newRS, Total(Size, olds), allPods);
    var cleaned := Cleanup(cfg, Sorted(ByCreation, olds), most, budget);
    CleanedList(cfg, newRS, olds, most, budget);
    if |olds| in cfg.slack {
      YoungestKept(olds, cleaned.list, newRS);
      SharedWhenYoungest(cfg, newRS, cleaned.list, cleaned.budget);
    }
  }

  /** Where sharing does no harm the reconcile is the one of the theorems. */
  lemma UpgradeFoundSame(cfg: Config, newRS: ReplicaSet, olds: seq<ReplicaSet>, budget: nat)
    requires Distinct(olds + [newRS]) && NonNegative(olds) && Separable(cfg, newRS, olds)
    ensures UpgradeFoundAppended(cfg, newRS, olds, budget) == UpgradeFound(cfg, newRS, olds, budget)
  {
    hide Sorted, Total, Ids, Active, Inactive, ReconcileOld, ReconcileOldAppended, NewTarget, MaxSurge, Distinct, Youngest, Resized;
    ActiveApart(olds, newRS);
    var allPods := Total(Size, olds) + newRS.size;
    ReconcileOldSame(cfg, newRS, Active(olds), allPods, budget);
    var list := ReconcileOld(cfg, newRS, Active(olds), allPods, budget).list;
    assert Inactive(olds) + (list + [newRS]) == Inactive(olds) + list + [newRS];
  }

  lemma ActiveApart(olds: seq<ReplicaSet>, newRS: ReplicaSet)
    requires Distinct(olds + [newRS])
    ensures Distinct(Active(olds) + [newRS])
  {
    hide Active;
    assert forall i :: 0 <= i < |olds| ==> olds[i] == (olds + [newRS])[i];
    assert (olds + [newRS])[|olds|] == newRS;
    ActiveDistinct(olds);
    forall i | 0 <= i < |Active(olds)| ensures Active(olds)[i].name != newRS.name && Active(olds)[i].uid != newRS.uid {
      assert Active(olds)[i] in Active(olds);
      var j :| 0 <= j < |olds| && olds[j] == Active(olds)[i];
    }
  }

  /** So is the whole one, for a found set that needs no write of its own. */
  lemma UpgradeSame(cfg: Config, rss: seq<ReplicaSet>, id: Identity, budget: nat)
    requires Listing(rss) && RolloutRuns.Unused(id, rss)
    requires var found, olds := NewOf(cfg.template, rss), OldsOf(cfg.template, rss);
             && Separable(cfg, if found.Some? then found.value else Created(cfg, olds, id), olds)
             && (found.Some? ==> Renumbered(found.value, olds) == found.value)
    ensures UpgradeAppended(cfg, rss, id, false, budget) == Upgrade(cfg, rss, id, budget)
  {
    hide NewOf, OldsOf, UpgradeFound, UpgradeFoundAppended, Created, Renumbered, Separable, RolloutRuns.Unused, Distinct;
    var found, olds := NewOf(cfg.template, rss), OldsOf(cfg.template, rss);
    OldsAreTheRest(cfg.template, rss);
    if found.Some? {
      DistinctPermuted(rss, olds + [found.value]);
      UpgradeFoundSame(cfg, found.value, olds, budget);
    } else if budget > 0 {
      RolloutRuns.CreatedListing(cfg, rss, id);
      UpgradeFoundSame(cfg, Created(cfg, olds, id), olds, budget - 1);
    }
  }

  /** Otherwise it is the one of the listing with that write done, with one write fewer; the sizes
      and the choice of the new set stay as they were. */
  lemma UpgradeAfterWrite(cfg: Config, rss: seq<ReplicaSet>, id: Identity, differs: bool, budget: nat)
    requires Listing(rss) && NewOf(cfg.template, rss).Some? && budget > 0
    requires var found, olds := NewOf(cfg.template, rss).value, OldsOf(cfg.template, rss);
             (differs || Renumbered(found, olds) != found) && Separable(cfg, Renumbered(found, olds), olds)
    ensures var numbered := Renumbered(NewOf(cfg.template, rss).value, OldsOf(cfg.template, rss));
            var list := OldsOf(cfg.template, rss) + [numbered];
            && Listing(list) && NewOf(cfg.template, list) == Some(numbered)
            && NewSize(cfg.template, list) == NewSize(cfg.template, rss)
            && OldTotal(cfg.template, list) == OldTotal(cfg.template, rss)
            && UpgradeAppended(cfg, rss, id, differs, budget)
               == UpgradeFound(cfg, numbered, OldsOf(cfg.template, rss), budget - 1)
  {
    hide NewOf, OldsOf, UpgradeFound, UpgradeFoundAppended, Renumbered, Separable, Total;
    var found, olds := NewOf(cfg.template, rss).value, OldsOf(cfg.template, rss);
    RenumberedListing(cfg, rss);
    RolloutRuns.SplitListing(cfg.template, olds + [Renumbered(found, olds)], olds, Renumbered(found, olds));
    UpgradeFoundSame(cfg, Renumbered(found, olds), olds, budget - 1);
  }

  lemma RenumberedKeeps(rs: ReplicaSet, olds: seq<ReplicaSet>)
    ensures Renumbered(rs, olds) == rs.(revision := Renumbered(rs, olds).revision)
  {
  }

  lemma RenumberedListing(cfg: Config, rss: seq<ReplicaSet>)
    requires Listing(rss) && NewOf(cfg.template, rss).Some?
    ensures var found, olds := NewOf(cfg.template, rss).value, OldsOf(cfg.template, rss);
            var list := olds + [Renumbered(found, olds)];
            && Listing(list) && NewOf(cfg.template, list) == Some(Renumbered(found, olds))
            && found in rss && Renumbered(found, olds).size == found.size
  {
    hide NewOf, OldsOf, Renumbered;
    var found, olds := NewOf(cfg.template, rss).value, OldsOf(cfg.template, rss);
    var numbered := Renumbered(found, olds);
    RenumberedKeeps(found, olds);
    OldsAreTheRest(cfg.template, rss);
    NewOfIsNew(cfg.template, rss, found);
    var all, list := olds + [found], olds + [numbered];
    DistinctPermuted(rss, all);
    PermutedLength(rss, all);
    forall i, j | 0 <= i < j < |list| ensures list[i].name != list[j].name && list[i].uid != list[j].uid {
      assert all[i].name != all[j].name && all[i].uid != all[j].uid;
    }
    assert numbered in list && forall x :: x in list ==> x in olds || x == numbered;
    assert IsNew(cfg.template, list, numbered);
    NewOfIsNew(cfg.template, list, numbered);
  }

  // ---- which set goes first ----

  /** Among the sets with pods revisions do not fall as sets get older: no younger one is higher. */
  ghost predicate NoYoungerHigher(olds: seq<ReplicaSet>) {
    forall x, y :: x in olds && y in olds && CreatedBefore(x, y) && HigherRevision(y, x) ==> x.size == 0 || y.size == 0
  }

  lemma CreationKeepsOrder(cfg: Config, olds: seq<ReplicaSet>, most: int, budget: nat)
    requires Distinct(olds) && NonNegative(olds) && NoYoungerHigher(olds)
    ensures var s := Sorted(ByCreation, olds);
            ByRevision(s, Drain(cfg, s, most, budget).list)
  {
    hide Sorted, Drain;
    var s := Sorted(ByCreation, olds);
    SortedPermutes(ByCreation, olds);
    SortedOrdered(ByCreation, olds);
    var list := Drain(cfg, s, most, budget).list;
    DrainGreedy(cfg, s, most, budget);
    DrainFacts(cfg, s, most, budget);
    LoweredMeans(s, list);
    forall i, j | 0 <= i < |s| && 0 <= j < |s| && HigherRevision(s[i], s[j]) && list[j].size != s[j].size
      ensures list[i].size == 0
    {
      assert list[i] in list && list[j] in list;
      if j < i {
        assert Less(ByCreation, s[j], s[i]);
        assert s[i] in olds && s[j] in olds;
      }
    }
  }

  /** An older set of lower revision is emptied while a younger one of higher revision is left. */
  lemma CreationBreaksOrder(cfg: Config, s: seq<ReplicaSet>, i: nat, k: nat)
    requires NonNegative(s) && i < k < |s| && HigherRevision(s[k], s[i]) && s[i].size > 0 && s[k].size > 0
    ensures !ByRevision(s, Drain(cfg, s, Total(Size, s[..i + 1]), |s|).list)
    ensures 0 < Total(Size, s[..i + 1]) <= Total(Size, s)
  {
    hide Drain, Total;
    var most := Total(Size, s[..i + 1]);
    PrefixSum(s, i);
    PrefixSums(s, i + 1, k);
    DrainAt(cfg, s, most, |s|, i);
    DrainAt(cfg, s, most, |s|, k);
    PrefixSums(s, i + 1, |s|);
    assert s[..|s|] == s;
  }

  lemma PrefixSum(s: seq<ReplicaSet>, i: nat)
    requires NonNegative(s) && i < |s|
    ensures Total(Size, s[..i + 1]) == Total(Size, s[..i]) + s[i].size
    ensures Total(Size, s[..i]) >= 0
  {
    hide Total;
    assert s[..i + 1] == s[..i] + [s[i]];
    TotalAppend(Size, s[..i], [s[i]]);
    TotalOfOne(s[i]);
    TotalNonNegative(s[..i]);
  }

  lemma PrefixSums(s: seq<ReplicaSet>, i: nat, k: nat)
    requires NonNegative(s) && i <= k <= |s|
    ensures Total(Size, s[..i]) <= Total(Size, s[..k])
  {
    hide Total;
    assert s[..k] == s[..i] + s[i..k];
    TotalAppend(Size, s[..i], s[i..k]);
    TotalNonNegative(s[i..k]);
  }

  /** Whatever the strategy, the availability, the new set and the writes: the scale-down of these
      old sets never touches one while a set of higher revision has pods. */
  ghost predicate KeepsRevisionOrder(slack: set<nat>, olds: seq<ReplicaSet>) {
    forall cfg: Config, newRS: ReplicaSet, budget: nat :: cfg.slack == slack && ScaleDownOld(cfg, newRS, olds, budget).removed > 0 ==>
      ByRevision(Sorted(DrainOrder(cfg, olds), olds), ScaleDownOld(cfg, newRS, olds, budget).list)
  }

  /** A strategy and a new set under which the scale-down may take so many replicas. */
  lemma SomeAllowance(slack: set<nat>, olds: seq<ReplicaSet>, most: nat) returns (cfg: Config, newRS: ReplicaSet)
    requires NonNegative(olds) && 0 < most <= Total(Size, olds)
    ensures cfg.slack == slack
    ensures forall budget :: ScaleDownOld(cfg, newRS, olds, budget) == Drain(cfg, Sorted(DrainOrder(cfg, olds), olds), most, budget)
  {
    hide Total, Sorted, Drain, DrainOrder;
    RolloutRuns.AvailableNonNegative(olds);
    var available := Total(Available, olds);
    var replicas := Max(0, available - most);
    cfg := Config(replicas, 0, Some(Int(1)), Some(Int(0)), Percent(0), 0, 0, slack);
    newRS := ReplicaSet("", 0, 0, 0, Absent, replicas, Max(0, most - available), None, None);
    LimitInRange(cfg.partition, cfg.replicas);
    assert MaxUnavailable(cfg) == 0;
  }

  /** The order by revision is kept exactly when the lists are two arrays, or no younger set with
      pods is of higher revision than an older one. */
  lemma RevisionOrderExactly(slack: set<nat>, olds: seq<ReplicaSet>)
    requires Distinct(olds) && NonNegative(olds) && Comparable(BySmallerRevision, olds)
    ensures KeepsRevisionOrder(slack, olds) <==> |olds| !in slack || NoYoungerHigher(olds)
  {
    hide Sorted, Drain, Total, NoYoungerHigher, ByRevision, Comparable, MaxUnavailable;
    if |olds| !in slack || NoYoungerHigher(olds) {
      forall cfg: Config, newRS: ReplicaSet, budget: nat | cfg.slack == slack && ScaleDownOld(cfg, newRS, olds, budget).removed > 0
        ensures ByRevision(Sorted(DrainOrder(cfg, olds), olds), ScaleDownOld(cfg, newRS, olds, budget).list)
      {
        OrderKept(cfg, newRS, olds, budget);
      }
    } else {
      OrderBroken(slack, olds);
    }
  }

  lemma OrderKept(cfg: Config, newRS: ReplicaSet, olds: seq<ReplicaSet>, budget: nat)
    requires Distinct(olds) && NonNegative(olds) && Comparable(BySmallerRevision, olds)
    requires |olds| !in cfg.slack || NoYoungerHigher(olds)
    requires ScaleDownOld(cfg, newRS, olds, budget).removed > 0
    ensures ByRevision(Sorted(DrainOrder(cfg, olds), olds), ScaleDownOld(cfg, newRS, olds, budget).list)
  {
    hide Sorted, Drain, Total, NoYoungerHigher, ByRevision, Comparable, MaxUnavailable, Distinct, NonNegative;
    var spare := Total(Available, olds) + newRS.available - (cfg.replicas - MaxUnavailable(cfg));
    var most := Min(spare, ScaleDownLimitForOld(cfg, Total(Size, olds), newRS.size));
    if |olds| in cfg.slack {
      CreationKeepsOrder(cfg, olds, most, budget);
    } else {
      DrainKeepsRevisionOrder(cfg, olds, most, budget);
    }
  }

  lemma OrderBroken(slack: set<nat>, olds: seq<ReplicaSet>)
    requires Distinct(olds) && NonNegative(olds) && |olds| in slack && !NoYoungerHigher(olds)
    ensures !KeepsRevisionOrder(slack, olds)
  {
    hide Sorted, Drain, Total, ByRevision, ScaleDownOld;
    var x, y :| x in olds && y in olds && CreatedBefore(x, y) && HigherRevision(y, x) && x.size != 0 && y.size != 0;
    var s := Sorted(ByCreation, olds);
    SortedPermutes(ByCreation, olds);
    SortedOrdered(ByCreation, olds);
    TotalPermuted(Size, olds, s);
    var i :| 0 <= i < |s| && s[i] == x;
    var k :| 0 <= k < |s| && s[k] == y;
    OrderedPlaces(ByCreation, s);
    assert i < k;
    var most := Total(Size, s[..i + 1]);
    CreationBreaksOrder(Config(0, 0, None, None, Int(0), 0, 0, slack), s, i, k);
    var cfg, newRS := SomeAllowance(slack, olds, most);
    CreationBreaksOrder(cfg, s, i, k);
    DrainExact(cfg, s, most, |s|);
    TotalNonNegative(s);
    assert ScaleDownOld(cfg, newRS, olds, |s|) == Drain(cfg, s, most, |s|);
  }

  /** It does happen in the most ordinary history, three old sets whose revisions rise with their
      age: the oldest one, of the lowest revision, goes first. */
  lemma OldestGoesFirst() returns (cfg: Config, newRS: ReplicaSet, olds: seq<ReplicaSet>)
    ensures cfg.slack == {3} && ValidStrategy(cfg) && Sane(olds + [newRS]) && Youngest(newRS, olds) && |olds| == 3
    ensures CreatedBefore(olds[0], olds[1]) && CreatedBefore(olds[1], olds[2])
    ensures HigherRevision(olds[1], olds[0]) && HigherRevision(olds[2], olds[1])
    ensures forall budget :: budget >= 1 ==>
              ScaleDownOld(cfg, newRS, olds, budget).list == [Resized(cfg, olds[0], 0), olds[1], olds[2]]
  {
    cfg := Config(3, 0, Some(Int(1)), Some(Int(0)), Percent(100), 4, 0, {3});
    newRS := ReplicaSet("new", 9, 9, 0, Number(4), 1, 1, Some(3), Some(4));
    olds := [ReplicaSet("a", 1, 1, 1, Number(1), 1, 1, Some(3), Some(4)),
             ReplicaSet("b", 2, 2, 2, Number(2), 1, 1, Some(3), Some(4)),
             ReplicaSet("c", 3, 3, 3, Number(3), 1, 1, Some(3), Some(4))];
    OneGoes(cfg, newRS, olds);
  }

  lemma OneGoes(cfg: Config, newRS: ReplicaSet, olds: seq<ReplicaSet>)
    requires cfg.replicas == 3 && MaxUnavailable(cfg) == 0 && BatchLimit(cfg) == 3 && 3 in cfg.slack && |olds| == 3
    requires newRS.size == 1 == newRS.available && forall x :: x in olds ==> x.size == 1 && x.available == 1
    requires Ordered(ByCreation, olds) && Distinct(olds)
    ensures forall budget :: budget >= 1 ==>
              ScaleDownOld(cfg, newRS, olds, budget).list == [Resized(cfg, olds[0], 0), olds[1], olds[2]]
  {
    hide Total, Sorted, MaxUnavailable, BatchLimit, MaxSurge;
    ThreeOnes(olds);
    SortedPermutes(ByCreation, olds);
    SortedOrdered(ByCreation, olds);
    OrderedUnique(ByCreation, olds, Sorted(ByCreation, olds));
    forall budget: nat | budget >= 1
      ensures ScaleDownOld(cfg, newRS, olds, budget).list == [Resized(cfg, olds[0], 0), olds[1], olds[2]]
    {
      NothingDrained(cfg, olds[1..], 0, budget - 1);
      assert [Resized(cfg, olds[0], 0)] + olds[1..] == [Resized(cfg, olds[0], 0), olds[1], olds[2]];
    }
  }

  /** Where the new set stands in the array, and what the scale-down takes from it: nothing when it
      is the youngest, and otherwise what is to go beyond the sets older than it. */
  lemma NewSetLoses(cfg: Config, newRS: ReplicaSet, olds: seq<ReplicaSet>, budget: nat, k: nat)
    requires Distinct(olds + [newRS]) && NonNegative(olds + [newRS]) && budget >= |olds|
    requires Spare(cfg, newRS, olds) > 0 && k <= |olds| && Shared(olds, newRS)[k] == newRS
    ensures k == |olds| <==> Youngest(newRS, olds)
    ensures |ScaleDownShared(cfg, newRS, olds, budget).list| == |olds| + 1
    ensures newRS.size - ScaleDownShared(cfg, newRS, olds, budget).list[k].size
            == if k == |olds| then 0
               else Min(newRS.size, Positive(SharedMost(cfg, newRS, olds) - Total(Size, Shared(olds, newRS)[..k])))
  {
    hide Sorted, Drain, Total, Spare, SharedMost, NonNegative;
    PlaceOfNew(olds, newRS, k);
    var all := Shared(olds, newRS);
    var front := all[..|olds|];
    DrainLength(cfg, front, SharedMost(cfg, newRS, olds), budget);
    FrontNonNegative(olds, newRS);
    if k < |olds| {
      DrainAt(cfg, front, SharedMost(cfg, newRS, olds), budget, k);
      assert front[..k] == all[..k];
    }
  }

  lemma FrontNonNegative(olds: seq<ReplicaSet>, newRS: ReplicaSet)
    requires NonNegative(olds + [newRS])
    ensures NonNegative(Shared(olds, newRS)[..|olds|])
  {
    hide Sorted;
    SortedPermutes(ByCreation, olds + [newRS]);
    assert forall x :: x in Shared(olds, newRS)[..|olds|] ==> x in Shared(olds, newRS);
  }

  lemma PlaceOfNew(olds: seq<ReplicaSet>, newRS: ReplicaSet, k: nat)
    requires Distinct(olds + [newRS]) && k <= |olds| && Shared(olds, newRS)[k] == newRS
    ensures k == |olds| <==> Youngest(newRS, olds)
  {
    hide Sorted;
    var all := Shared(olds, newRS);
    SortedPermutes(ByCreation, olds + [newRS]);
    SortedOrdered(ByCreation, olds + [newRS]);
    if k == |olds| {
      forall x | x in olds ensures CreatedBefore(x, newRS) {
        var i :| 0 <= i < |olds| && olds[i] == x;
        assert (olds + [newRS])[i] == x && (olds + [newRS])[|olds|] == newRS;
        assert x in all;
        var j :| 0 <= j < |all| && all[j] == x;
        assert Less(ByCreation, all[j], all[k]);
      }
    } else {
      var x := all[k + 1];
      assert Less(ByCreation, newRS, x);
      assert x in olds + [newRS];
      StrictTotalOrder(ByCreation, newRS, x, newRS);
      assert x in olds && !CreatedBefore(x, newRS);
    }
  }

  lemma OldestIsFirst(olds: seq<ReplicaSet>, newRS: ReplicaSet)
    requires Distinct(olds + [newRS]) && forall x :: x in olds ==> CreatedBefore(newRS, x)
    ensures Shared(olds, newRS)[0] == newRS
  {
    hide Sorted;
    var all := Shared(olds, newRS);
    SortedPermutes(ByCreation, olds + [newRS]);
    SortedOrdered(ByCreation, olds + [newRS]);
    assert newRS in olds + [newRS];
    var k :| 0 <= k < |all| && all[k] == newRS;
    assert all[0] in olds + [newRS];
    StrictTotalOrder(ByCreation, newRS, all[0], newRS);
    assert k > 0 ==> Less(ByCreation, all[0], all[k]);
  }

  /** It does happen, in a rollback to a set older than all others: with three old sets of one pod
      and two pods of the new set, of which four are wanted, the reconcile that should drain an old
      set empties the new one. */
  lemma RollbackDrainsNewSet() returns (cfg: Config, newRS: ReplicaSet, olds: seq<ReplicaSet>)
    ensures Distinct(olds + [newRS]) && Sane(olds + [newRS]) && ValidStrategy(cfg) && |olds| == 3
    ensures newRS.size == 2 && BatchLimit(cfg) == cfg.replicas == 4 && Total(Size, olds) == 3
    ensures NewTarget(cfg, 2, 5) == 2 && MaxScaledDown(cfg, newRS, 3, 5) > 0
    ensures forall budget :: budget >= 3 ==> ScaleDownShared(cfg, newRS, olds, budget).list[0] == Resized(cfg, newRS, 0)
  {
    hide Sorted, Total;
    cfg := Config(4, 0, Some(Int(1)), Some(Int(1)), Percent(100), 5, 0, {3});
    newRS := ReplicaSet("new", 9, 1, 0, Number(9), 2, 2, Some(4), Some(5));
    olds := [ReplicaSet("a", 1, 2, 1, Number(1), 1, 1, Some(4), Some(5)),
             ReplicaSet("b", 2, 3, 2, Number(2), 1, 1, Some(4), Some(5)),
             ReplicaSet("c", 3, 4, 3, Number(3), 1, 1, Some(4), Some(5))];
    OldestIsFirst(olds, newRS);
    ThreeOnes(olds);
    FrontOfThree(olds, newRS);
    forall budget: nat | budget >= 3 ensures ScaleDownShared(cfg, newRS, olds, budget).list[0] == Resized(cfg, newRS, 0) {
      EmptiesNewSet(cfg, newRS, olds, budget);
    }
  }

  lemma ThreeOnes(olds: seq<ReplicaSet>)
    requires |olds| == 3 && forall x :: x in olds ==> x.size == 1 && x.available == 1
    ensures Total(Size, olds) == 3 && Total(Available, olds) == 3
  {
    TotalHead(olds);
    TotalHead(olds[1..]);
    TotalHead(olds[1..][1..]);
    assert olds[1..][1..][1..] == [];
    TotalOfNone();
  }

  lemma FrontOfThree(olds: seq<ReplicaSet>, newRS: ReplicaSet)
    requires |olds| == 3 && Distinct(olds + [newRS]) && Shared(olds, newRS)[0] == newRS && newRS.size == 2
    requires forall x :: x in olds ==> x.size == 1
    ensures Total(Size, Shared(olds, newRS)[..3]) == 4
  {
    hide Sorted;
    var all := Shared(olds, newRS);
    SortedPermutes(ByCreation, olds + [newRS]);
    DistinctPermuted(olds + [newRS], all);
    forall i | 1 <= i < 4 ensures all[i].size == 1 {
      assert all[i] in olds + [newRS] && all[i].name != all[0].name;
    }
    var front := all[..3];
    TotalHead(front);
    TotalHead(front[1..]);
    TotalHead(front[1..][1..]);
    assert front[1..][1..][1..] == [];
    TotalOfNone();
  }

  lemma EmptiesNewSet(cfg: Config, newRS: ReplicaSet, olds: seq<ReplicaSet>, budget: nat)
    requires budget > 0 && newRS.size == 2 && Shared(olds, newRS)[0] == newRS && |olds| > 0
    requires Spare(cfg, newRS, olds) > 0 && SharedMost(cfg, newRS, olds) >= 2
    ensures ScaleDownShared(cfg, newRS, olds, budget).list[0] == Resized(cfg, newRS, 0)
  {
    hide Sorted, Total, Spare, SharedMost;
    var front := Shared(olds, newRS)[..|olds|];
    assert front[0] == newRS;
  }

  /** In one array the limit is read off its front: it counts the new set as an old one, and leaves
      the youngest out instead. */
  lemma SharedLimitSkipsYoungest(cfg: Config, newRS: ReplicaSet, olds: seq<ReplicaSet>, x: ReplicaSet)
    requires Distinct(olds + [newRS]) && x in olds + [newRS]
    requires forall y :: y in olds + [newRS] ==> y == x || CreatedBefore(y, x)
    ensures SharedMost(cfg, newRS, olds)
            == Min(Spare(cfg, newRS, olds),
                   Total(Size, olds) + newRS.size - x.size - (cfg.replicas - Max(BatchLimit(cfg), newRS.size)))
  {
    hide Sorted, Total, Spare, BatchLimit;
    var all := Shared(olds, newRS);
    var n := |olds|;
    SortedPermutes(ByCreation, olds + [newRS]);
    SortedOrdered(ByCreation, olds + [newRS]);
    OrderedPlaces(ByCreation, all);
    var i :| 0 <= i < |all| && all[i] == x;
    assert all[n] in all;
    assert !Less(ByCreation, all[n], all[i]);
    assert all == all[..n] + [all[n]];
    TotalAppend(Size, all[..n], [all[n]]);
    TotalOfOne(all[n]);
    TotalPermuted(Size, all, olds + [newRS]);
    TotalAppend(Size, olds, [newRS]);
    TotalOfOne(newRS);
  }
}
