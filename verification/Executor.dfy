/**
  The replica-set half of the executor in its own form: methods that read and rearrange slices,
  and write the API server's store one set at a time
  (internal/controller/partition/executor.go). Every method is proved against the function of
  the same step. A write is refused when the budget is used up or when the copy it was made from
  is not what the store holds (the optimistic lock).
 */
module ScalingExecutor {
  import opened Base
  import opened Limits
  import opened ReplicaSets
  import opened Ordering
  import opened Scaling
  import opened ScalingFacts
  import opened UpgradeFacts
  import opened Store
  import opened PassFacts
  import Proportional
  import ProportionalFacts
  import ProportionalSync
  import RolloutRuns
  import opened SharedSlices

  method ToArray(s: seq<ReplicaSet>) returns (a: array<ReplicaSet>)
    ensures fresh(a) && a[..] == s
  {
    a := new ReplicaSet[|s|](i requires 0 <= i < |s| => s[i]);
  }

  class Executor {
    const cfg: Config
    var store: ReplicaSetStore
    var budget: nat

    constructor (cfg: Config, store: ReplicaSetStore, budget: nat)
      ensures this.cfg == cfg && this.store == store && this.budget == budget
    {
      this.cfg, this.store, this.budget := cfg, store, budget;
    }

    predicate Accepts(rs: ReplicaSet)
      reads this`store, this`budget
    {
      budget > 0 && rs.name in store && store[rs.name] == rs
    }

    method ScaleReplicaSet(rs: ReplicaSet, newScale: int) returns (scaled: bool, updated: ReplicaSet, ok: bool)
      modifies this`store, this`budget
      ensures ok <==> !NeedsWrite(cfg, rs, newScale) || old(Accepts(rs))
      ensures if NeedsWrite(cfg, rs, newScale) && old(Accepts(rs)) then
                && updated == Resized(cfg, rs, newScale)
                && store == old(store)[rs.name := updated] && budget == old(budget) - 1
                && (scaled <==> rs.size != newScale)
              else updated == rs && !scaled && store == old(store) && budget == old(budget)
    {
      var sizeNeedsUpdate := rs.size != newScale;
      var annotationsNeedUpdate := rs.desired != Some(cfg.replicas) || rs.maxReplicas != Some(cfg.replicas + MaxSurge(cfg));
      scaled, updated, ok := false, rs, true;
      if sizeNeedsUpdate || annotationsNeedUpdate {
        if !Accepts(rs) {
          ok := false;
          return;
        }
        updated := rs.(size := newScale, desired := Some(cfg.replicas), maxReplicas := Some(cfg.replicas + MaxSurge(cfg)));
        store := store[rs.name := updated];
        budget := budget - 1;
        scaled := sizeNeedsUpdate;
      }
    }

    method ScaleReplicaSetAndRecordEvent(rs: ReplicaSet, newScale: int)
      returns (scaled: bool, updated: ReplicaSet, ok: bool)
      modifies this`store, this`budget
      ensures ok <==> rs.size == newScale || old(Accepts(rs))
      ensures if rs.size != newScale && old(Accepts(rs)) then
                && scaled && updated == Resized(cfg, rs, newScale)
                && store == old(store)[rs.name := updated] && budget == old(budget) - 1
              else updated == rs && !scaled && store == old(store) && budget == old(budget)
    {
      if rs.size == newScale {
        return false, rs, true;
      }
      scaled, updated, ok := ScaleReplicaSet(rs, newScale);
    }

    /** One write of a scale-down loop, in terms of the list the store shows. */
    method LowerOne(rs: ReplicaSet, size: int, ghost before: ReplicaSetStore, ghost current: seq<ReplicaSet>,
            ghost i: nat)
      returns (updated: ReplicaSet, written: bool)
      requires i < |current| && current[i] == rs && Distinct(current) && store == Merge(before, current) && size != rs.size
      modifies this`store, this`budget
      ensures written <==> old(budget) > 0
      ensures written ==> && updated == Resized(cfg, rs, size) && budget == old(budget) - 1
                          && store == Merge(before, current[i := updated]) && Distinct(current[i := updated])
      ensures !written ==> store == old(store) && budget == old(budget)
      ensures current[i := rs] == current
    {
      hide Merge;
      MergeLookup(before, current);
      MergeUpdate(before, current, i, Resized(cfg, rs, size));
      var _, y, ok := ScaleReplicaSetAndRecordEvent(rs, size);
      updated, written := y, ok;
    }

    /** The slice is sorted by creation and each lowered set is put back into it. */
    method CleanupUnhealthyReplicas(oldRSs: array<ReplicaSet>, maxCleanupCount: int) returns (count: int, ok: bool)
      requires Distinct(oldRSs[..]) && Current(store, oldRSs[..])
      modifies oldRSs, this`store, this`budget
      ensures var p := Cleanup(cfg, Sorted(ByCreation, old(oldRSs[..])), maxCleanupCount, old(budget));
              && ok == p.ok && budget == p.budget
              && oldRSs[..] == p.list && store == Merge(old(store), p.list)
              && (ok ==> count == p.removed)
    {
      hide Sorted, Merge, Ids, Total, Cleanup, Resized, SameIds;
      SortedPermutes(ByCreation, oldRSs[..]);
      SortInPlace(ByCreation, oldRSs);
      ghost var s := oldRSs[..];
      ghost var p := Cleanup(cfg, s, maxCleanupCount, budget);
      ghost var current := s;
      MergeCurrent(store, s);
      Start(p, s);
      count := 0;
      var i := 0;
      while i < oldRSs.Length && count < maxCleanupCount
        invariant 0 <= i <= oldRSs.Length == |s|
        invariant oldRSs[..] == current && Distinct(current) && store == Merge(old(store), current)
        invariant Continues(p, Cleanup(cfg, s[i..], maxCleanupCount - count, budget), s, i, current, count)
      {
        hide Continues, Distinct;
        var targetRS := oldRSs[i];
        ghost var rest := Cleanup(cfg, s[i..], maxCleanupCount - count, budget);
        CurrentEntry(p, rest, s, i, current, count);
        assert targetRS == s[i];
        CleanupHead(cfg, s, i, maxCleanupCount - count, budget);
        if targetRS.size != 0 && targetRS.size != targetRS.available {
          var scaledDownCount := Min(maxCleanupCount - count, targetRS.size - targetRS.available);
          var newReplicasCount := targetRS.size - scaledDownCount;
          if newReplicasCount > targetRS.size {
            Stop(p, rest, s, i, current, count);
            return 0, false;
          }
          ghost var b := budget;
          var updatedOldRS, written := LowerOne(targetRS, newReplicasCount, old(store), current, i);
          if !written {
            Stop(p, rest, s, i, current, count);
            return count, false;
          }
          Advance(p, rest, Cleanup(cfg, s[i + 1..], maxCleanupCount - count - scaledDownCount, b - 1), s, i, current,
                  count, updatedOldRS, scaledDownCount);
          count := count + scaledDownCount;
          oldRSs[i] := updatedOldRS;
          current := current[i := updatedOldRS];
        } else {
          Advance(p, rest, Cleanup(cfg, s[i + 1..], maxCleanupCount - count, budget), s, i, current, count, targetRS, 0);
          assert current[i := targetRS] == current;
        }
        i := i + 1;
      }
      CleanupEnd(cfg, s[i..], maxCleanupCount - count, budget);
      Stop(p, Cleanup(cfg, s[i..], maxCleanupCount - count, budget), s, i, current, count);
      ok := true;
    }

    /** Two arrays: the old sets are sorted by revision and drained front to back. */
    method ScaleDownOldReplicaSets(allRSs: array<ReplicaSet>, oldRSs: array<ReplicaSet>, ghost newRS: ReplicaSet)
      returns (count: int, ok: bool)
      requires allRSs != oldRSs && allRSs[..] == oldRSs[..] + [newRS]
      requires Distinct(allRSs[..]) && Current(store, oldRSs[..])
      requires NewOf(cfg.template, allRSs[..]) == Some(newRS) && oldRSs.Length !in cfg.slack
      modifies allRSs, oldRSs, this`store, this`budget
      ensures var p := ScaleDownOld(cfg, newRS, old(oldRSs[..]), old(budget));
              && ok == p.ok && budget == p.budget && store == Merge(old(store), p.list)
              && (ok ==> count == p.removed)
    {
      hide Sorted, Merge, Ids, Total, Drain, NewOf, MaxUnavailable, NewRSReplicasLimit;
      var minAvailable := cfg.replicas - MaxUnavailable(cfg);
      ghost var olds := oldRSs[..];
      AllDistinct(olds, newRS);
      TotalAppend(Available, olds, [newRS]);
      TotalOfOne(newRS);
      var availablePodCount := GetAvailableReplicaCountForReplicaSets(allRSs[..]);
      if availablePodCount <= minAvailable {
        MergeCurrent(store, olds);
        return 0, true;
      }
      SortInPlace(BySmallerRevision, oldRSs);
      SortedPermutes(BySmallerRevision, olds);
      TotalPermuted(Size, olds, oldRSs[..]);
      var found := FindNewReplicaSet(cfg.template, allRSs);
      var oldPods := GetReplicaCountForReplicaSets(oldRSs[..]);
      var limit := ScaleDownLimitForOld(cfg, oldPods, found.value.size);
      var total := Min(availablePodCount - minAvailable, limit);
      count, ok := DrainInOrder(oldRSs[..], total);
    }

    /** One array: looking the new set up sorts the front of it by creation, the new set included. */
    method ScaleDownSharedReplicaSets(allRSs: array<ReplicaSet>, ghost olds: seq<ReplicaSet>, ghost newRS: ReplicaSet)
      returns (count: int, ok: bool)
      requires allRSs[..] == olds + [newRS]
      requires Distinct(allRSs[..]) && Current(store, allRSs[..])
      requires NewOf(cfg.template, allRSs[..]) == Some(newRS)
      modifies allRSs, this`store, this`budget
      ensures var p := ScaleDownShared(cfg, newRS, olds, old(budget));
              && ok == p.ok && budget == p.budget && store == Merge(old(store), p.list)
              && (ok ==> count == p.removed)
    {
      hide Sorted, Merge, Ids, Total, Drain, NewOf, MaxUnavailable, NewRSReplicasLimit, Distinct, Shared;
      var n := allRSs.Length - 1;
      ghost var all := allRSs[..];
      var minAvailable := cfg.replicas - MaxUnavailable(cfg);
      TotalAppend(Available, olds, [newRS]);
      TotalOfOne(newRS);
      var availablePodCount := GetAvailableReplicaCountForReplicaSets(allRSs[..]);
      if availablePodCount <= minAvailable {
        MergeCurrent(store, all);
        return 0, true;
      }
      SortPrefix(BySmallerRevision, allRSs, n);
      PrefixSorted(all, allRSs[..], n);
      var found := FindNewReplicaSet(cfg.template, allRSs);
      ghost var shared := Shared(olds, newRS);
      SharedFacts(store, olds, newRS);
      var oldPods := GetReplicaCountForReplicaSets(allRSs[..n]);
      var limit := ScaleDownLimitForOld(cfg, oldPods, found.value.size);
      var total := Min(availablePodCount - minAvailable, limit);
      ghost var b := budget;
      count, ok := DrainInOrder(allRSs[..n], total);
      DrainedJoin(old(store), shared, n, total, b);
    }

    /** Sorting the front of an array changes neither what it is sorted to as a whole nor which set
        in it is the new one. */
    lemma PrefixSorted(before: seq<ReplicaSet>, after: seq<ReplicaSet>, n: nat)
      requires |before| == |after| && n <= |before| && Distinct(before)
      requires after[..n] == Sorted(BySmallerRevision, before[..n]) && after[n..] == before[n..]
      ensures Sorted(ByCreation, after) == Sorted(ByCreation, before)
      ensures NewOf(cfg.template, after) == NewOf(cfg.template, before)
    {
      hide Sorted, NewOf;
      SortedPermutes(BySmallerRevision, before[..n]);
      assert before == before[..n] + before[n..] && after == after[..n] + after[n..];
      assert multiset(before) == multiset(after);
      SortedCanonical(ByCreation, before, after);
      NewOfPermuted(cfg.template, before, after);
    }

    lemma SharedFacts(before: ReplicaSetStore, olds: seq<ReplicaSet>, newRS: ReplicaSet)
      requires Distinct(olds + [newRS]) && Current(before, olds + [newRS])
      ensures Shared(olds, newRS) == Sorted(ByCreation, olds + [newRS])
      ensures Distinct(Shared(olds, newRS)) && Current(before, Shared(olds, newRS))
      ensures Distinct(Shared(olds, newRS)[..|olds|]) && Current(before, Shared(olds, newRS)[..|olds|])
    {
      hide Sorted;
      SortedPermutes(ByCreation, olds + [newRS]);
      DistinctPermuted(olds + [newRS], Shared(olds, newRS));
    }

    /** The last set of the array is stored already. */
    lemma DrainedJoin(before: ReplicaSetStore, all: seq<ReplicaSet>, n: nat, most: int, b: nat)
      requires n == |all| - 1 && Distinct(all) && Current(before, all)
      ensures var list := Drain(cfg, all[..n], most, b).list;
              Merge(before, list + [all[n]]) == Merge(before, list)
    {
      hide Merge, Ids, Drain;
      var front, list, last := all[..n], Drain(cfg, all[..n], most, b).list, [all[n]];
      assert all == front + last;
      DrainIds(cfg, front, most, b);
      IdsAppend(front, last);
      IdsAppend(list, last);
      DistinctByIds(all, list + last);
      JoinedMerge(before, list, last);
    }

    lemma {:induction false} DrainIds(cfg: Config, rss: seq<ReplicaSet>, most: int, b: nat)
      ensures Ids(Drain(cfg, rss, most, b).list) == Ids(rss)
    {
      hide MaxSurge;
      if rss != [] && most > 0 {
        var p := Drain(cfg, rss, most, b);
        if rss[0].size == 0 {
          DrainIds(cfg, rss[1..], most, b);
          assert p.list[1..] == Drain(cfg, rss[1..], most, b).list;
        } else if b > 0 {
          var count := Min(rss[0].size, most);
          DrainIds(cfg, rss[1..], most - count, b - 1);
          assert count >= 0 ==> p.list[1..] == Drain(cfg, rss[1..], most - count, b - 1).list;
        }
      }
    }

    /** The loop over the sorted slice. */
    method DrainInOrder(oldRSs: seq<ReplicaSet>, total: int) returns (count: int, ok: bool)
      requires Distinct(oldRSs) && Current(store, oldRSs)
      modifies this`store, this`budget
      ensures var p := Drain(cfg, oldRSs, total, old(budget));
              && ok == p.ok && budget == p.budget && store == Merge(old(store), p.list)
              && (ok ==> count == p.removed)
    {
      hide Merge, Ids, Total, Drain, Resized, SameIds, Current;
      ghost var s := oldRSs;
      ghost var p := Drain(cfg, s, total, budget);
      ghost var current := s;
      MergeCurrent(store, s);
      Start(p, s);
      count := 0;
      var i := 0;
      while i < |oldRSs| && count < total
        invariant 0 <= i <= |oldRSs| == |s|
        invariant Distinct(current) && store == Merge(old(store), current)
        invariant Continues(p, Drain(cfg, s[i..], total - count, budget), s, i, current, count)
      {
        hide Continues, Distinct;
        var targetRS := oldRSs[i];
        ghost var rest := Drain(cfg, s[i..], total - count, budget);
        CurrentEntry(p, rest, s, i, current, count);
        DrainHead(cfg, s, i, total - count, budget);
        if targetRS.size != 0 {
          var scaleDownCount := Min(targetRS.size, total - count);
          var newReplicasCount := targetRS.size - scaleDownCount;
          if newReplicasCount > targetRS.size {
            Stop(p, rest, s, i, current, count);
            return 0, false;
          }
          ghost var b := budget;
          var updated, written := LowerOne(targetRS, newReplicasCount, old(store), current, i);
          if !written {
            Stop(p, rest, s, i, current, count);
            return count, false;
          }
          Advance(p, rest, Drain(cfg, s[i + 1..], total - count - scaleDownCount, b - 1), s, i, current,
                  count, updated, scaleDownCount);
          count := count + scaleDownCount;
          current := current[i := updated];
        } else {
          Advance(p, rest, Drain(cfg, s[i + 1..], total - count, budget), s, i, current, count, targetRS, 0);
          assert current[i := targetRS] == current;
        }
        i := i + 1;
      }
      DrainEnd(cfg, s[i..], total - count, budget);
      Stop(p, Drain(cfg, s[i..], total - count, budget), s, i, current, count);
      ok := true;
    }

    method ScaleUpOldReplicaSets(oldRSs: array<ReplicaSet>, scaledUpCount: int) returns (scaled: bool, ok: bool)
      requires Distinct(oldRSs[..]) && Current(store, oldRSs[..])
      modifies oldRSs, this`store, this`budget
      ensures var r := ScaleUpOld(cfg, old(oldRSs[..]), scaledUpCount, old(budget));
              && ok == r.ok && scaled == r.scaled && budget == r.budget && store == Merge(old(store), r.list)
    {
      hide Sorted, Ids, MaxSurge, Merge, Total;
      ghost var olds := oldRSs[..];
      MergeCurrent(store, olds);
      if scaledUpCount <= 0 || oldRSs.Length == 0 {
        return false, true;
      }
      SortedPermutes(BySizeOlder, olds);
      SortInPlace(BySizeOlder, oldRSs);
      ghost var s := oldRSs[..];
      MergeCurrent(store, s);
      var newScale := oldRSs[0].size + scaledUpCount;
      var updated;
      scaled, updated, ok := ScaleReplicaSetAndRecordEvent(oldRSs[0], newScale);
      if ok {
        MergeUpdate(old(store), s, 0, updated);
        assert s[0 := updated] == [updated] + s[1..];
      }
    }

    /** Errors of the two scale-down passes are dropped. */
    method ReconcileOldReplicaSets(allRSs: seq<ReplicaSet>, oldRSs: array<ReplicaSet>, newRS: ReplicaSet)
      returns (scaled: bool, ok: bool)
      requires Distinct(oldRSs[..] + [newRS]) && NonNegative(oldRSs[..]) && Current(store, oldRSs[..] + [newRS])
      requires NewOf(cfg.template, oldRSs[..] + [newRS]) == Some(newRS)
      modifies oldRSs, this`store, this`budget
      ensures var r := ReconcileOldAppended(cfg, newRS, old(oldRSs[..]), Total(Size, allRSs), old(budget));
              && ok == r.ok && scaled == r.scaled && budget == r.budget && store == Merge(old(store), r.list)
    {
      hide Sorted, Merge, Ids, Total, Cleanup, SharedSlices.ScaleDownAppended, ScaleUpOld, NewOf, MaxUnavailable,
           NewRSReplicasLimit, Distinct;
      ghost var olds := oldRSs[..];
      AllDistinct(olds, newRS);
      assert Current(store, olds) && Current(store, [newRS]) by {
        assert forall x :: x in olds || x == newRS ==> x in olds + [newRS];
      }
      MergeCurrent(store, olds + [newRS]);
      var oldPodsCount := GetReplicaCountForReplicaSets(oldRSs[..]);
      if oldPodsCount == 0 {
        return false, true;
      }
      var allPodsCount := GetReplicaCountForReplicaSets(allRSs);
      var maxUnavailable := MaxUnavailable(cfg);
      var scaleDownOldLimit := ScaleDownLimitForOld(cfg, oldPodsCount, newRS.size);
      if scaleDownOldLimit <= 0 {
        ScaleUpFacts(cfg, olds, -scaleDownOldLimit, budget);
        ghost var r := ScaleUpOld(cfg, olds, -scaleDownOldLimit, budget);
        AppendedMerge(store, olds, newRS, r.list);
        scaled, ok := ScaleUpOldReplicaSets(oldRSs, -scaleDownOldLimit);
        return;
      }
      var minAvailable := cfg.replicas - maxUnavailable;
      var newRSUnavailablePodCount := newRS.size - newRS.available;
      var maxScaledDown := Min(allPodsCount - minAvailable - newRSUnavailablePodCount, scaleDownOldLimit);
      if maxScaledDown <= 0 {
        return false, true;
      }
      ghost var b := budget;
      CleanupKeeps(cfg, olds, maxScaledDown, b);
      var cleanupCount, cleaned := CleanupUnhealthyReplicas(oldRSs, maxScaledDown);
      ghost var list := Cleanup(cfg, Sorted(ByCreation, olds), maxScaledDown, b).list;
      AppendedMerge(old(store), olds, newRS, list);
      if !cleaned {
        return false, true;
      }
      CleanedStillFindsNew(cfg, olds, list, newRS);
      CurrentMerge(old(store), list + [newRS]);
      ghost var c := budget;
      var scaledDownCount, drained := ScaleDownAppended(oldRSs, newRS);
      AppendedIds(cfg, newRS, list, c);
      MergeOver(old(store), list + [newRS], SharedSlices.ScaleDownAppended(cfg, newRS, list, c).list);
      return drained && cleanupCount + scaledDownCount > 0, true;
    }

    /** The slice of old sets with the new one appended: another array, or the same one where the
        slice has room. */
    method ScaleDownAppended(oldRSs: array<ReplicaSet>, newRS: ReplicaSet) returns (count: int, ok: bool)
      requires Distinct(oldRSs[..] + [newRS]) && Current(store, oldRSs[..] + [newRS])
      requires NewOf(cfg.template, oldRSs[..] + [newRS]) == Some(newRS)
      modifies oldRSs, this`store, this`budget
      ensures var p := SharedSlices.ScaleDownAppended(cfg, newRS, old(oldRSs[..]), old(budget));
              && ok == p.ok && budget == p.budget && store == Merge(old(store), p.list)
              && (ok ==> count == p.removed)
    {
      hide Sorted, Merge, Ids, Total, NewOf, ScaleDownOld, ScaleDownShared, Shared, Distinct;
      ghost var list, b := oldRSs[..], budget;
      var all := ToArray(oldRSs[..] + [newRS]);
      AllDistinct(list, newRS);
      if oldRSs.Length in cfg.slack {
        count, ok := ScaleDownSharedReplicaSets(all, list, newRS);
      } else {
        assert all[..] == list + [newRS];
        count, ok := ScaleDownOldReplicaSets(all, oldRSs, newRS);
        ScaleDownIds(cfg, newRS, list, b);
        AppendedMerge(old(store), list, newRS, ScaleDownOld(cfg, newRS, list, b).list);
      }
    }

    lemma AppendedIds(cfg: Config, newRS: ReplicaSet, olds: seq<ReplicaSet>, b: nat)
      ensures SameIds(olds + [newRS], SharedSlices.ScaleDownAppended(cfg, newRS, olds, b).list)
    {
      hide Sorted, Drain, Ids, Total, MaxUnavailable, ScaleDownLimitForOld, ScaleDownOld, SharedMost, Spare;
      if |olds| in cfg.slack {
        var all := Shared(olds, newRS);
        var front := all[..|olds|];
        SortedKeeps(ByCreation, olds + [newRS]);
        DrainIds(cfg, front, SharedMost(cfg, newRS, olds), b);
        IdsAppend(front, [all[|olds|]]);
        IdsAppend(Drain(cfg, front, SharedMost(cfg, newRS, olds), b).list, [all[|olds|]]);
        assert all == front + [all[|olds|]];
      } else {
        ScaleDownIds(cfg, newRS, olds, b);
        JoinIds(olds, ScaleDownOld(cfg, newRS, olds, b).list, newRS, newRS);
      }
    }

    lemma ReconciledIds(cfg: Config, newRS: ReplicaSet, olds: seq<ReplicaSet>, allPods: int, b: nat)
      requires NonNegative(olds)
      ensures SameIds(olds + [newRS], ReconcileOldAppended(cfg, newRS, olds, allPods, b).list)
    {
      hide Sorted, Cleanup, Ids, Total, MaxUnavailable, ScaleDownLimitForOld, ScaleUpOld, SharedSlices.ScaleDownAppended;
      var limit := ScaleDownLimitForOld(cfg, Total(Size, olds), newRS.size);
      var most := MaxScaledDown(cfg, newRS, Total(Size, olds), allPods);
      ScaleUpFacts(cfg, olds, -limit, b);
      JoinIds(olds, ScaleUpOld(cfg, olds, -limit, b).list, newRS, newRS);
      CleanupKeeps(cfg, olds, most, b);
      var c := Cleanup(cfg, Sorted(ByCreation, olds), most, b);
      JoinIds(olds, c.list, newRS, newRS);
      AppendedIds(cfg, newRS, c.list, c.budget);
    }

    lemma ScaleDownIds(cfg: Config, newRS: ReplicaSet, olds: seq<ReplicaSet>, b: nat)
      ensures SameIds(olds, ScaleDownOld(cfg, newRS, olds, b).list)
    {
      hide Sorted, Drain, Ids, Total, MaxUnavailable, ScaleDownLimitForOld;
      SortedKeeps(DrainOrder(cfg, olds), olds);
      var spare := Total(Available, olds) + newRS.available - (cfg.replicas - MaxUnavailable(cfg));
      var limit := ScaleDownLimitForOld(cfg, Total(Size, olds), newRS.size);
      DrainIds(cfg, Sorted(DrainOrder(cfg, olds), olds), Min(spare, limit), b);
    }

    lemma AppendedMerge(before: ReplicaSetStore, olds: seq<ReplicaSet>, newRS: ReplicaSet, list: seq<ReplicaSet>)
      requires Distinct(olds + [newRS]) && Current(before, olds + [newRS]) && SameIds(olds, list)
      ensures Merge(before, list + [newRS]) == Merge(before, list)
    {
      hide Merge, Ids;
      JoinIds(olds, list, newRS, newRS);
      DistinctByIds(olds + [newRS], list + [newRS]);
      assert newRS in olds + [newRS];
      JoinedMerge(before, list, [newRS]);
    }

    method ReconcileNewReplicaSet(allRSs: seq<ReplicaSet>, newRS: ReplicaSet) returns (scaled: bool, ok: bool)
      requires Current(store, [newRS])
      modifies this`store, this`budget
      ensures var target := NewTarget(cfg, newRS.size, Total(Size, allRSs));
              && ok == (target == newRS.size || old(budget) > 0)
              && scaled == (target != newRS.size && old(budget) > 0)
              && store == (if scaled then old(store)[newRS.name := Resized(cfg, newRS, target)] else old(store))
              && budget == (if scaled then old(budget) - 1 else old(budget))
    {
      assert newRS in [newRS];
      var updated;
      if newRS.size == cfg.replicas {
        return false, true;
      }
      if newRS.size > cfg.replicas {
        scaled, updated, ok := ScaleReplicaSetAndRecordEvent(newRS, cfg.replicas);
        return;
      }
      var allPods := GetReplicaCountForReplicaSets(allRSs);
      var newReplicasCount := NewRSNewReplicas(cfg, newRS.size, allPods);
      scaled, updated, ok := ScaleReplicaSetAndRecordEvent(newRS, newReplicasCount);
    }

    /** The new set of the listing, its annotations brought up to date, or created when there is
        none; None when the write is refused. */
    method GetNewReplicaSet(rsList: array<ReplicaSet>, oldRSs: seq<ReplicaSet>, id: Identity, differs: bool)
      returns (newRS: Option<ReplicaSet>)
      requires Listing(rsList[..]) && oldRSs == OldsOf(cfg.template, rsList[..]) && Current(store, rsList[..])
      modifies rsList, this`store, this`budget
      ensures var found := NewOf(cfg.template, old(rsList[..]));
              var wanted := if found.Some? then Renumbered(found.value, oldRSs) else Created(cfg, oldRSs, id);
              if !differs && found == Some(wanted) then newRS == found && store == old(store) && budget == old(budget)
              else if old(budget) == 0 then newRS == None && store == old(store) && budget == old(budget)
              else newRS == Some(wanted) && store == old(store)[wanted.name := wanted] && budget == old(budget) - 1
    {
      hide Sorted, Total, MaxRevision, Distinct;
      ghost var rss := rsList[..];
      var existingNewRS := FindNewReplicaSet(cfg.template, rsList);
      var maxOldRevision := MaxRevision(oldRSs);
      var newRevision := Int64(maxOldRevision + 1);
      if existingNewRS.Some? {
        NewOfIsNew(cfg.template, rss, existingNewRS.value);
        var rsCopy := existingNewRS.value;
        var annotationsUpdated := !rsCopy.revision.Garbled? && RevisionNumber(rsCopy) < newRevision;
        if annotationsUpdated {
          rsCopy := rsCopy.(revision := Number(newRevision));
        }
        if annotationsUpdated || differs {
          if !Accepts(existingNewRS.value) {
            return None;
          }
          store := store[rsCopy.name := rsCopy];
          budget := budget - 1;
        }
        return Some(rsCopy);
      }
      if budget == 0 {
        return None;
      }
      var pods := GetReplicaCountForReplicaSets(oldRSs);
      var newReplicasCount := NewRSNewReplicas(cfg, 0, pods);
      var lowerBound := NewRSReplicasLowerBound(cfg);
      var created := ReplicaSet(id.name, id.uid, id.created, cfg.template,
                                if newRevision > 0 then Number(newRevision) else Absent,
                                Max(newReplicasCount, lowerBound), 0,
                                Some(cfg.replicas), Some(cfg.replicas + MaxSurge(cfg)));
      store := store[id.name := created];
      budget := budget - 1;
      newRS := Some(created);
    }

    /** One reconcile in step state Upgrade, up to the question whether the batch is ready. */
    method UpgradeStep(rsList: array<ReplicaSet>, id: Identity, differs: bool) returns (outcome: Outcome)
      requires Listing(rsList[..]) && Current(store, rsList[..]) && RolloutRuns.Unused(id, rsList[..])
      modifies rsList, this`store, this`budget
      ensures var u := UpgradeAppended(cfg, old(rsList[..]), id, differs, old(budget));
              outcome == u.outcome && store == Merge(old(store), u.list)
    {
      hide Sorted, Merge, Ids, Total, NewOf, OldsOf, UpgradeFoundAppended, Created, Renumbered, Distinct, NonNegative,
           RolloutRuns.Unused;
      ghost var rss, b0 := rsList[..], budget;
      var _, oldRSs := FindOldReplicaSets(cfg.template, rsList);
      SortedPermutes(ByCreation, rss);
      NewOfPermuted(cfg.template, rss, rsList[..]);
      SortedListing(rss);
      var newRS := GetNewReplicaSet(rsList, oldRSs, id, differs);
      if newRS.None? {
        MergeCurrent(old(store), rss);
        return Failed;
      }
      ghost var found := NewOf(cfg.template, rss);
      if found.None? {
        CreatedReady(old(store), rss, id);
      } else if !differs && found == newRS {
        FoundReady(old(store), rss, newRS.value);
      } else {
        NumberedReady(old(store), rss);
      }
      outcome := FoundStep(oldRSs, newRS.value);
      if differs || found != newRS {
        CreatedMerge(old(store), oldRSs, newRS.value, UpgradeFoundAppended(cfg, newRS.value, oldRSs, b0 - 1).list);
      }
    }

    lemma NumberedReady(before: ReplicaSetStore, rss: seq<ReplicaSet>)
      requires Listing(rss) && Current(before, rss) && NewOf(cfg.template, rss).Some?
      ensures var olds := OldsOf(cfg.template, rss);
              var newRS := Renumbered(NewOf(cfg.template, rss).value, olds);
              var l := olds + [newRS];
              && Listing(l) && NewOf(cfg.template, l) == Some(newRS) && newRS.name == NewOf(cfg.template, rss).value.name
              && Current(before, olds) && Current(before[newRS.name := newRS], l)
    {
      hide Sorted, NewOf, OldsOf, Renumbered;
      var found, olds := NewOf(cfg.template, rss).value, OldsOf(cfg.template, rss);
      OldsAreTheRest(cfg.template, rss);
      RenumberedListing(cfg, rss);
      RenumberedKeeps(found, olds);
      FoundParts(olds, Renumbered(found, olds));
    }

    lemma SortedListing(rss: seq<ReplicaSet>)
      requires Listing(rss)
      ensures Listing(Sorted(ByCreation, rss))
    {
      SortedPermutes(ByCreation, rss);
    }

    lemma FoundReady(before: ReplicaSetStore, rss: seq<ReplicaSet>, newRS: ReplicaSet)
      requires Listing(rss) && Current(before, rss) && NewOf(cfg.template, rss) == Some(newRS)
      ensures var l := OldsOf(cfg.template, rss) + [newRS];
              Listing(l) && Current(before, l) && NewOf(cfg.template, l) == Some(newRS)
    {
      hide Sorted, NewOf, OldsOf;
      var l := OldsOf(cfg.template, rss) + [newRS];
      OldsAreTheRest(cfg.template, rss);
      NewOfPermuted(cfg.template, rss, l);
      PermutedLength(rss, l);
      DistinctPermuted(rss, l);
    }

    lemma CreatedReady(before: ReplicaSetStore, rss: seq<ReplicaSet>, id: Identity)
      requires Listing(rss) && Current(before, rss) && NewOf(cfg.template, rss).None? && RolloutRuns.Unused(id, rss)
      ensures var olds := OldsOf(cfg.template, rss);
              var newRS := Created(cfg, olds, id);
              var l := olds + [newRS];
              && Listing(l) && NewOf(cfg.template, l) == Some(newRS) && newRS.name == id.name
              && Current(before, olds) && Current(before[id.name := newRS], l)
    {
      hide Sorted, NewOf, OldsOf, NewRSNewReplicas;
      OldsAreTheRest(cfg.template, rss);
      RolloutRuns.CreatedListing(cfg, rss, id);
      var olds := OldsOf(cfg.template, rss);
      assert forall x :: x in olds ==> x in rss;
    }

    /** Creating the new set and then writing the listing is writing the listing. */
    lemma CreatedMerge(before: ReplicaSetStore, olds: seq<ReplicaSet>, newRS: ReplicaSet, list: seq<ReplicaSet>)
      requires Distinct(olds + [newRS]) && Current(before, olds) && SameIds(olds + [newRS], list)
      ensures Merge(before[newRS.name := newRS], list) == Merge(before, list)
    {
      hide Ids, Distinct;
      var all := olds + [newRS];
      AllDistinct(olds, newRS);
      MergeCurrent(before, olds);
      assert all[..|all| - 1] == olds;
      assert Merge(before, all) == before[newRS.name := newRS];
      MergeOver(before, all, list);
    }

    /** Scale the new set, or else reconcile the active old ones. */
    method FoundStep(oldRSs: seq<ReplicaSet>, newRS: ReplicaSet) returns (outcome: Outcome)
      requires Distinct(oldRSs + [newRS]) && NonNegative(oldRSs + [newRS]) && Current(store, oldRSs + [newRS])
      requires NewOf(cfg.template, oldRSs + [newRS]) == Some(newRS)
      modifies this`store, this`budget
      ensures var u := UpgradeFoundAppended(cfg, newRS, oldRSs, old(budget));
              outcome == u.outcome && store == Merge(old(store), u.list) && SameIds(oldRSs + [newRS], u.list)
    {
      hide Sorted, Merge, Ids, Total, NewOf, ReconcileOldAppended, NewTarget, Active, Inactive;
      var allRSs := oldRSs + [newRS];
      TotalAppend(Size, oldRSs, [newRS]);
      TotalOfOne(newRS);
      FoundParts(oldRSs, newRS);
      ghost var b := budget;
      ghost var list, after := FoundSizes(cfg, newRS, oldRSs, b);
      JoinIds(oldRSs, list, newRS, after);
      var scaledUp, ok := ReconcileNewReplicaSet(allRSs, newRS);
      if !ok {
        MergeCurrent(store, allRSs);
        return Failed;
      }
      if scaledUp {
        ghost var target := NewTarget(cfg, newRS.size, Total(Size, allRSs));
        MergeCurrent(old(store), allRSs);
        MergeUpdate(old(store), allRSs, |oldRSs|, Resized(cfg, newRS, target));
        assert allRSs[|oldRSs| := Resized(cfg, newRS, target)] == oldRSs + [Resized(cfg, newRS, target)];
        return Scaled;
      }
      var active := FilterActiveReplicaSets(oldRSs);
      var slice := ToArray(active);
      ActiveStillFindsNew(oldRSs, newRS);
      var scaledDown, done := ReconcileOldReplicaSets(allRSs, slice, newRS);
      outcome := if !done then Failed else if scaledDown then Scaled else Quiet;
      ReconciledIds(cfg, newRS, active, Total(Size, allRSs), b);
      ActivesMerge(old(store), oldRSs, newRS, ReconcileOldAppended(cfg, newRS, active, Total(Size, allRSs), b).list);
    }

    lemma CurrentMerge(before: ReplicaSetStore, list: seq<ReplicaSet>)
      requires Distinct(list)
      ensures Current(Merge(before, list), list)
    {
      MergeLookup(before, list);
    }

    lemma FoundParts(olds: seq<ReplicaSet>, newRS: ReplicaSet)
      requires Distinct(olds + [newRS]) && NonNegative(olds + [newRS])
      ensures Distinct(olds) && NonNegative(olds) && newRS.size >= 0
      ensures forall x :: x in olds ==> x in olds + [newRS]
      ensures newRS in olds + [newRS]
      ensures forall x :: x in olds ==> x.name != newRS.name
    {
      AllDistinct(olds, newRS);
      forall x | x in olds ensures x in olds + [newRS] && x.name != newRS.name {
        var i :| 0 <= i < |olds| && olds[i] == x;
        assert (olds + [newRS])[i] == x && (olds + [newRS])[|olds|] == newRS;
      }
    }

    lemma ActiveStillFindsNew(olds: seq<ReplicaSet>, newRS: ReplicaSet)
      requires Distinct(olds + [newRS]) && NonNegative(olds + [newRS])
      requires NewOf(cfg.template, olds + [newRS]) == Some(newRS)
      ensures Distinct(Active(olds) + [newRS]) && NewOf(cfg.template, Active(olds) + [newRS]) == Some(newRS)
    {
      hide Active, Sorted, NewOf;
      FoundParts(olds, newRS);
      ActiveDistinct(olds);
      var act := Active(olds) + [newRS];
      forall i | 0 <= i < |Active(olds)| ensures Active(olds)[i].name != newRS.name && Active(olds)[i].uid != newRS.uid {
        assert Active(olds)[i] in Active(olds);
        DistinctPair(olds + [newRS], Active(olds)[i], newRS);
      }
      NewOfIsNew(cfg.template, olds + [newRS], newRS);
      NewOfIsNew(cfg.template, act, newRS);
    }

    /** The sets a reconcile of the active ones leaves alone are stored already. */
    lemma ActivesMerge(before: ReplicaSetStore, olds: seq<ReplicaSet>, newRS: ReplicaSet, list: seq<ReplicaSet>)
      requires Distinct(olds + [newRS]) && NonNegative(olds + [newRS]) && Current(before, olds + [newRS])
      requires SameIds(Active(olds) + [newRS], list)
      ensures Merge(before, Inactive(olds) + list) == Merge(before, list)
      ensures SameIds(olds + [newRS], Inactive(olds) + list)
    {
      hide Active, Inactive, Merge, Ids, Total;
      FoundParts(olds, newRS);
      var inactive := Inactive(olds);
      ActiveSplit(olds);
      assert multiset(olds + [newRS]) == multiset(inactive + (Active(olds) + [newRS]));
      IdsPermuted(olds + [newRS], inactive + (Active(olds) + [newRS]));
      IdsAppend(inactive, Active(olds) + [newRS]);
      IdsAppend(inactive, list);
      DistinctByIds(olds + [newRS], inactive + list);
      assert multiset(inactive + list) == multiset(list + inactive);
      MergePermuted(before, inactive + list, list + inactive);
      DistinctPermuted(inactive + list, list + inactive);
      assert Current(before, inactive) by {
        assert forall x :: x in inactive ==> x in olds + [newRS];
      }
      JoinedMerge(before, list, inactive);
    }

    lemma DistinctParts(a: seq<ReplicaSet>, b: seq<ReplicaSet>)
      requires Distinct(a + b)
      ensures Distinct(a) && Distinct(b)
      ensures forall x, y :: x in a && y in b ==> x.name != y.name
    {
      forall i, j | 0 <= i < |a| && 0 <= j < |b| ensures a[i].name != b[j].name {
        assert (a + b)[i] == a[i] && (a + b)[|a| + j] == b[j];
      }
      assert forall i :: 0 <= i < |a| ==> a[i] == (a + b)[i];
      assert forall i :: 0 <= i < |b| ==> b[i] == (a + b)[|a| + i];
    }

    lemma CleanedStillFindsNew(cfg: Config, olds: seq<ReplicaSet>, list: seq<ReplicaSet>, newRS: ReplicaSet)
      requires SameIds(olds, list) && Distinct(olds + [newRS]) && NewOf(cfg.template, olds + [newRS]) == Some(newRS)
      ensures Distinct(list + [newRS]) && NewOf(cfg.template, list + [newRS]) == Some(newRS)
      ensures Distinct(list)
    {
      JoinIds(olds, list, newRS, newRS);
      DistinctByIds(olds + [newRS], list + [newRS]);
      assert newRS in list + [newRS];
      NewOfSameIds(cfg.template, olds + [newRS], list + [newRS], newRS);
      AllDistinct(list, newRS);
    }

    lemma AllDistinct(olds: seq<ReplicaSet>, newRS: ReplicaSet)
      requires Distinct(olds + [newRS])
      ensures Distinct(olds)
    {
      assert forall i :: 0 <= i < |olds| ==> olds[i] == (olds + [newRS])[i];
    }

    // ---- scaling sync ----

    /** Some active set still carries another replica count. */
    method IsScalingEvent(allRSs: seq<ReplicaSet>) returns (event: bool)
      ensures event <==> Proportional.IsScalingEvent(cfg, allRSs)
    {
      var active := FilterActiveReplicaSets(allRSs);
      for i := 0 to |active|
        invariant forall j :: 0 <= j < i ==> active[j].desired.None? || active[j].desired.value == cfg.replicas
      {
        if active[i].desired.Some? && active[i].desired.value != cfg.replicas {
          assert active[i] in allRSs;
          return true;
        }
      }
      assert forall x :: x in active ==> x.desired.None? || x.desired.value == cfg.replicas;
      return false;
    }

    /** The old slice ends up newest first. */
    method FindActiveOrLatest(newRS: Option<ReplicaSet>, oldRSs: array<ReplicaSet>) returns (r: Option<ReplicaSet>)
      modifies oldRSs
      ensures oldRSs[..] == Sorted(ByCreationReversed, old(oldRSs[..]))
      ensures r == Proportional.FindActiveOrLatest(newRS, old(oldRSs[..]))
    {
      SortInPlace(ByCreationReversed, oldRSs);
      var allRSs := FilterActiveReplicaSets(oldRSs[..] + Proportional.ToSeq(newRS));
      if |allRSs| == 0 {
        if newRS.Some? {
          return newRS;
        }
        return if oldRSs.Length == 0 then None else Some(oldRSs[0]);
      }
      if |allRSs| == 1 {
        return Some(allRSs[0]);
      }
      return None;
    }

    method ScaleToZero(active: seq<ReplicaSet>) returns (ok: bool)
      requires Distinct(active) && Current(store, active)
      modifies this`store, this`budget
      ensures var p := Proportional.ZeroAll(cfg, active, old(budget));
              ok == p.ok && budget == p.budget && store == Merge(old(store), p.list)
    {
      hide Merge, Ids, Total, Proportional.ZeroAll;
      ghost var p := Proportional.ZeroAll(cfg, active, budget);
      ghost var current, count := active, 0;
      MergeCurrent(store, active);
      Start(p, active);
      for i := 0 to |active|
        invariant Distinct(current) && store == Merge(old(store), current)
        invariant Continues(p, Proportional.ZeroAll(cfg, active[i..], budget), active, i, current, count)
      {
        hide Continues, Distinct;
        var rs := active[i];
        ghost var rest, b := Proportional.ZeroAll(cfg, active[i..], budget), budget;
        CurrentEntry(p, rest, active, i, current, count);
        ZeroHead(cfg, active, i, budget);
        MergeLookup(old(store), current);
        var _, updated, written := ScaleReplicaSetAndRecordEvent(rs, 0);
        if !written {
          Stop(p, rest, active, i, current, count);
          return false;
        }
        if rs.size == 0 {
          assert current[i := rs] == current;
        } else {
          MergeUpdate(old(store), current, i, updated);
        }
        Advance(p, rest, Proportional.ZeroAll(cfg, active[i + 1..], budget), active, i, current, count, updated, rs.size);
        current, count := current[i := updated], count + rs.size;
      }
      NothingLeft(cfg, active, seq(|active|, i => 0), budget);
      Stop(p, Proportional.ZeroAll(cfg, active[|active|..], budget), active, |active|, current, count);
      ok := true;
    }

    /** The first loop: what each set of the sorted slice is given, one after the other. */
    method Estimate(allRSs: array<ReplicaSet>, toAdd: int) returns (nameToSize: map<string, int>, added: int)
      requires Distinct(allRSs[..])
      ensures var s := allRSs[..];
              var ps := Proportional.Proportions(cfg, s, toAdd, 0);
              && added == Proportional.Sum(ps)
              && forall j :: 0 <= j < |s| ==> s[j].name in nameToSize && nameToSize[s[j].name] == s[j].size + ps[j]
    {
      hide Proportional.Proportions, Proportional.GetProportion, Proportional.Sum;
      ghost var s := allRSs[..];
      ghost var ps := Proportional.Proportions(cfg, s, toAdd, 0);
      nameToSize, added := map[], 0;
      assert ps[..0] == [];
      NoSum();
      for i := 0 to allRSs.Length
        invariant added == Proportional.Sum(ps[..i])
        invariant forall j :: 0 <= j < i ==> s[j].name in nameToSize && nameToSize[s[j].name] == s[j].size + ps[j]
      {
        var rs := allRSs[i];
        ProportionAt(cfg, s, toAdd, 0, i);
        assert forall j :: 0 <= j < i ==> s[j].name != s[i].name;
        if toAdd != 0 {
          var proportion := Proportional.GetProportion(cfg, rs, toAdd, added);
          nameToSize := nameToSize[rs.name := rs.size + proportion];
          added := added + proportion;
        } else {
          LevelProportion(cfg, s, i);
          nameToSize := nameToSize[rs.name := rs.size];
        }
      }
      assert ps[..|s|] == ps;
    }

    /** Distribute `toAdd` over the sorted slice, the leftover going to its first set, and write. */
    method Distribute(allRSs: array<ReplicaSet>, toAdd: int) returns (ok: bool)
      requires Distinct(allRSs[..]) && Current(store, allRSs[..])
      modifies this`store, this`budget
      ensures var p := Proportional.WriteAll(cfg, allRSs[..], Proportional.Targets(cfg, allRSs[..], toAdd), old(budget));
              ok == p.ok && budget == p.budget && store == Merge(old(store), p.list)
    {
      hide Merge, Ids, Total, Proportional.WriteAll, Proportional.Proportions, Proportional.Sum,
           Proportional.Targets, NeedsWrite;
      var nameToSize, added := Estimate(allRSs, toAdd);
      ghost var s := allRSs[..];
      ghost var ps := Proportional.Proportions(cfg, s, toAdd, 0);
      ghost var targets := Proportional.Targets(cfg, s, toAdd);
      ghost var p := Proportional.WriteAll(cfg, s, targets, budget);
      ghost var current, count := s, 0;
      MergeCurrent(store, s);
      assert s[0..] == s && targets[0..] == targets;
      Start(p, s);
      for i := 0 to allRSs.Length
        invariant allRSs[..] == s && Distinct(current) && store == Merge(old(store), current)
        invariant Estimated(nameToSize, s, ps, i)
        invariant Continues(p, Proportional.WriteAll(cfg, s[i..], targets[i..], budget), s, i, current, count)
      {
        hide Continues, Estimated, Distinct;
        var rs := allRSs[i];
        nameToSize := WithLeftover(nameToSize, allRSs, i, toAdd, added);
        var size := nameToSize[rs.name];
        ghost var rest := Proportional.WriteAll(cfg, s[i..], targets[i..], budget);
        CurrentEntry(p, rest, s, i, current, count);
        WriteHead(cfg, s, targets, i, budget);
        assert rs == current[i];
        var written := WriteOne(rs, size, old(store), current, i);
        if !written {
          Stop(p, rest, s, i, current, count);
          return false;
        }
        ghost var updated := if NeedsWrite(cfg, rs, size) then Resized(cfg, rs, size) else rs;
        ghost var c := if NeedsWrite(cfg, rs, size) then rs.size - size else 0;
        Advance(p, rest, Proportional.WriteAll(cfg, s[i + 1..], targets[i + 1..], budget), s, i, current, count, updated, c);
        current, count := current[i := updated], count + c;
      }
      NothingLeft(cfg, s, targets, budget);
      Stop(p, Proportional.WriteAll(cfg, s[|s|..], targets[|s|..], budget), s, |s|, current, count);
      ok := true;
    }

    /** From index i on the map still holds the estimates. */
    ghost predicate Estimated(nameToSize: map<string, int>, s: seq<ReplicaSet>, ps: seq<int>, i: int)
      requires |ps| == |s|
    {
      forall j :: 0 <= i <= j < |s| ==> s[j].name in nameToSize && nameToSize[s[j].name] == s[j].size + ps[j]
    }

    /** The first set of the slice also takes the leftover, but does not go below zero. */
    method WithLeftover(nameToSize: map<string, int>, allRSs: array<ReplicaSet>, i: nat, toAdd: int, added: int)
      returns (sizes: map<string, int>)
      requires i < allRSs.Length && Distinct(allRSs[..])
      requires added == Proportional.Sum(Proportional.Proportions(cfg, allRSs[..], toAdd, 0))
      requires Estimated(nameToSize, allRSs[..], Proportional.Proportions(cfg, allRSs[..], toAdd, 0), i)
      ensures allRSs[i].name in sizes && sizes[allRSs[i].name] == Proportional.Targets(cfg, allRSs[..], toAdd)[i]
      ensures Estimated(sizes, allRSs[..], Proportional.Proportions(cfg, allRSs[..], toAdd, 0), i + 1)
    {
      hide Proportional.Proportions, Proportional.Sum;
      var rs := allRSs[i];
      sizes := nameToSize;
      assert forall j :: i < j < allRSs.Length ==> allRSs[..][j].name != allRSs[..][i].name;
      if i == 0 && toAdd != 0 {
        var leftover := toAdd - added;
        sizes := sizes[rs.name := sizes[rs.name] + leftover];
        if sizes[rs.name] < 0 {
          sizes := sizes[rs.name := 0];
        }
      }
    }

    /** One write of the loop, in terms of the list the store shows. */
    method WriteOne(rs: ReplicaSet, size: int, ghost before: ReplicaSetStore, ghost current: seq<ReplicaSet>,
            ghost i: nat)
      returns (written: bool)
      requires i < |current| && current[i] == rs && Distinct(current) && store == Merge(before, current)
      modifies this`store, this`budget
      ensures written <==> !NeedsWrite(cfg, rs, size) || old(budget) > 0
      ensures budget == old(budget) - (if NeedsWrite(cfg, rs, size) && old(budget) > 0 then 1 else 0)
      ensures var next := if NeedsWrite(cfg, rs, size) && old(budget) > 0 then current[i := Resized(cfg, rs, size)] else current;
              store == Merge(before, next) && Distinct(next)
      ensures current[i := rs] == current
    {
      hide Merge, NeedsWrite;
      MergeLookup(before, current);
      MergeUpdate(before, current, i, Resized(cfg, rs, size));
      var _, _, ok := ScaleReplicaSet(rs, size);
      written := ok;
    }

    lemma NoSum()
      ensures Proportional.Sum([]) == 0
    {
    }

    lemma LevelProportion(cfg: Config, s: seq<ReplicaSet>, i: nat)
      requires i < |s|
      ensures Proportional.Proportions(cfg, s, 0, 0)[i] == 0
    {
      ProportionalFacts.ProportionsZero(cfg, s, 0);
    }

    /** The proportional branch: unhealthy old replicas first, then the distribution. */
    method ScaleProportionally(newRS: Option<ReplicaSet>, oldRSs: array<ReplicaSet>) returns (ok: bool)
      requires Listing(oldRSs[..] + Proportional.ToSeq(newRS)) && Current(store, oldRSs[..] + Proportional.ToSeq(newRS))
      modifies oldRSs, this`store, this`budget
      ensures var r := Proportional.Proportionally(cfg, newRS, old(oldRSs[..]), old(budget));
              ok == r.ok && store == Merge(old(store), r.list)
    {
      hide Sorted, Merge, Ids, Total, Cleanup, Active, Inactive, Proportional.WriteAll, Proportional.Targets,
           MaxSurge, Distinct, NonNegative, SameIds, Proportional.Spread, Resized;
      ghost var olds, b0 := oldRSs[..], budget;
      var added := Proportional.ToSeq(newRS);
      DistinctParts(olds, added);
      var allRSs := FilterActiveReplicaSets(oldRSs[..] + added);
      var allRSsReplicas := GetReplicaCountForReplicaSets(allRSs);
      var allowedSize := if cfg.replicas > 0 then cfg.replicas else 0;
      var toAdd := allowedSize - allRSsReplicas;
      CleanedListing(newRS, olds, b0);
      ghost var cleaned := Proportional.CleanedOlds(cfg, newRS, olds, b0);
      MergeCurrent(store, olds + added);
      MergeCurrent(store, olds);
      if toAdd < 0 {
        var cleanupCount, ok' := CleanupUnhealthyReplicas(oldRSs, -toAdd);
        if !ok' {
          JoinedMerge(old(store), cleaned.list, added);
          return false;
        }
        toAdd := toAdd + cleanupCount;
        allRSs := FilterActiveReplicaSets(oldRSs[..] + added);
      }
      assert store == Merge(old(store), cleaned.list) && budget == cleaned.budget && oldRSs[..] == cleaned.list;
      ghost var all := cleaned.list + added;
      assert allRSs == Active(all) && toAdd == cfg.replicas - Total(Size, allRSs);
      JoinedMerge(old(store), cleaned.list, added);
      ok := Spread(allRSs, toAdd, old(store), all);
    }

    /** Sort the active sets of `all`, the sets as they are stored, and distribute over them. */
    method Spread(allRSs: seq<ReplicaSet>, toAdd: int, ghost before: ReplicaSetStore, ghost all: seq<ReplicaSet>)
      returns (ok: bool)
      requires Listing(all) && store == Merge(before, all)
      requires allRSs == Active(all) && toAdd == cfg.replicas - Total(Size, allRSs)
      modifies this`store, this`budget
      ensures var r := Proportional.Spread(cfg, all, old(budget));
              ok == r.ok && store == Merge(before, r.list)
    {
      hide Sorted, Merge, Ids, Total, Active, Inactive, Proportional.WriteAll, Proportional.Targets, Distinct,
           NonNegative;
      ActiveDistinct(all);
      MergeLookup(before, all);
      assert Current(store, allRSs) by {
        CurrentMerge(before, all);
        assert forall x :: x in allRSs ==> x in all;
      }
      var slice := ToArray(allRSs);
      ArrangedListing(allRSs, toAdd);
      if toAdd > 0 {
        SortInPlace(BySizeNewer, slice);
      } else if toAdd < 0 {
        SortInPlace(BySizeOlder, slice);
      }
      SpreadMerge(before, all, budget);
      ok := Distribute(slice, toAdd);
    }

    lemma ArrangedListing(active: seq<ReplicaSet>, toAdd: int)
      requires Distinct(active)
      ensures Distinct(Proportional.Arranged(active, toAdd))
      ensures forall x :: x in Proportional.Arranged(active, toAdd) <==> x in active
    {
      ProportionalSync.ArrangedPermutes(active, toAdd);
      DistinctPermuted(active, Proportional.Arranged(active, toAdd));
    }

    /** Cleanup keeps the listing, and its count is what the total went down by. */
    lemma CleanedListing(newRS: Option<ReplicaSet>, olds: seq<ReplicaSet>, b: nat)
      requires Listing(olds + Proportional.ToSeq(newRS))
      ensures var added := Proportional.ToSeq(newRS);
              var c := Proportional.CleanedOlds(cfg, newRS, olds, b);
              && Listing(c.list + added) && SameIds(olds, c.list) && SameIds(olds + added, c.list + added)
              && Total(Size, Active(c.list + added)) == Total(Size, Active(olds + added)) - c.removed
    {
      hide Ids, Total, Active, Proportional.CleanedOlds;
      var added, c := Proportional.ToSeq(newRS), Proportional.CleanedOlds(cfg, newRS, olds, b);
      ProportionalSync.NonNegativeParts(olds, added);
      ProportionalSync.CleanedKeeps(cfg, newRS, olds, b);
      ProportionalSync.NonNegativeParts(c.list, added);
      IdsAppend(olds, added);
      IdsAppend(c.list, added);
      DistinctByIds(olds + added, c.list + added);
      TotalAppend(Size, olds, added);
      TotalAppend(Size, c.list, added);
      ActiveTotal(olds + added);
      ActiveTotal(c.list + added);
    }

    /** What is stored already may stand at the end of the list. */
    lemma JoinedMerge(before: ReplicaSetStore, list: seq<ReplicaSet>, added: seq<ReplicaSet>)
      requires Distinct(list + added) && Current(before, added)
      ensures Merge(before, list + added) == Merge(before, list)
    {
      DistinctParts(list, added);
      MergeAppend(before, list, added);
      MergeLookup(before, list);
      forall x | x in added ensures x.name in Merge(before, list) && Merge(before, list)[x.name] == x {
        assert forall i :: 0 <= i < |list| ==> list[i] in list;
        assert !Names(list, x.name);
      }
      MergeCurrent(Merge(before, list), added);
    }

    /** Writing the changed active sets back is writing the whole listing they belong to. */
    lemma PutBackMerge(before: ReplicaSetStore, all: seq<ReplicaSet>, list: seq<ReplicaSet>)
      requires Listing(all) && SameIds(Active(all), list)
      ensures Merge(Merge(before, all), list) == Merge(before, Inactive(all) + list)
    {
      hide Merge, Ids, Total, Active, Inactive;
      Rejoin(all, list);
      var end := Inactive(all) + list;
      MergeOver(before, all, end);
      assert multiset(end) == multiset(list + Inactive(all));
      var m := Merge(before, all);
      MergePermuted(m, end, list + Inactive(all));
      DistinctPermuted(end, list + Inactive(all));
      MergeLookup(before, all);
      assert Current(m, Inactive(all)) by {
        assert forall x :: x in Inactive(all) ==> x in all;
      }
      JoinedMerge(m, list, Inactive(all));
    }

    lemma SpreadMerge(before: ReplicaSetStore, all: seq<ReplicaSet>, b: nat)
      requires Listing(all)
      ensures var active := Active(all);
              var rss := Proportional.Arranged(active, cfg.replicas - Total(Size, active));
              var written := Proportional.WriteAll(cfg, rss, Proportional.Targets(cfg, rss, cfg.replicas - Total(Size, active)), b);
              Merge(Merge(before, all), written.list) == Merge(before, Proportional.Spread(cfg, all, b).list)
    {
      hide Sorted, Merge, Ids, Total, Active, Inactive, Proportional.WriteAll, Proportional.Targets, MaxSurge;
      var active := Active(all);
      var toAdd := cfg.replicas - Total(Size, active);
      var rss := Proportional.Arranged(active, toAdd);
      var targets := Proportional.Targets(cfg, rss, toAdd);
      ProportionalSync.ArrangedPermutes(active, toAdd);
      ProportionalFacts.WriteAllFacts(cfg, rss, targets, b);
      PutBackMerge(before, all, Proportional.WriteAll(cfg, rss, targets, b).list);
    }

    lemma SingleMerge(before: ReplicaSetStore, all: seq<ReplicaSet>, x: ReplicaSet, y: ReplicaSet)
      requires Distinct(all) && x in all && Current(before, all) && y.name == x.name && y.uid == x.uid
      ensures Merge(before, Without(x.uid, all) + [y]) == before[x.name := y]
      ensures Merge(before, Without(x.uid, all) + [x]) == before
    {
      hide Merge;
      var rest := Without(x.uid, all);
      var list := rest + [x];
      WithoutSplits(x, all);
      DistinctPermuted(all, list);
      MergePermuted(before, all, list);
      MergeCurrent(before, all);
      MergeUpdate(before, list, |rest|, y);
      assert list[|rest| := y] == rest + [y];
    }

    /** A sync after the deployment's replicas changed. */
    method Scale(newRS: Option<ReplicaSet>, oldRSs: array<ReplicaSet>) returns (ok: bool)
      requires Listing(oldRSs[..] + Proportional.ToSeq(newRS)) && Current(store, oldRSs[..] + Proportional.ToSeq(newRS))
      modifies oldRSs, this`store, this`budget
      ensures var r := Proportional.Scale(cfg, newRS, old(oldRSs[..]), old(budget));
              ok == r.ok && store == Merge(old(store), r.list)
    {
      hide Sorted, Merge, Active, Inactive, Total, Ids, Proportional.Proportionally, Proportional.ZeroAll,
           Listing, Distinct, NonNegative, Proportional.FindActiveOrLatest;
      ghost var olds, added := oldRSs[..], Proportional.ToSeq(newRS);
      SortedJoin(store, olds, added);
      var activeOrLatest := FindActiveOrLatest(newRS, oldRSs);
      ghost var nf := oldRSs[..];
      if activeOrLatest.Some? {
        var rs := activeOrLatest.value;
        SingleIsListed(newRS, olds);
        SingleMerge(store, nf + added, rs, Resized(cfg, rs, cfg.replicas));
        if rs.size == cfg.replicas {
          return true;
        }
        var _, _, done := ScaleReplicaSetAndRecordEvent(rs, cfg.replicas);
        return done;
      }
      if Proportional.IsSaturated(cfg, newRS) {
        var active := FilterActiveReplicaSets(oldRSs[..]);
        ZeroListing(old(store), nf, added, budget);
        ok := ScaleToZero(active);
        return;
      }
      ok := ScaleProportionally(newRS, oldRSs);
    }

    lemma SortedJoin(before: ReplicaSetStore, olds: seq<ReplicaSet>, added: seq<ReplicaSet>)
      requires Listing(olds + added) && Current(before, olds + added)
      ensures var l := Sorted(ByCreationReversed, olds) + added;
              Listing(l) && Current(before, l) && Distinct(l)
    {
      hide Sorted;
      SortedPermutes(ByCreationReversed, olds);
      var l := Sorted(ByCreationReversed, olds) + added;
      PermutedLength(olds + added, l);
      DistinctPermuted(olds + added, l);
    }

    lemma SingleIsListed(newRS: Option<ReplicaSet>, olds: seq<ReplicaSet>)
      ensures var r := Proportional.FindActiveOrLatest(newRS, olds);
              r.Some? ==> r.value in Sorted(ByCreationReversed, olds) + Proportional.ToSeq(newRS)
    {
      hide Sorted;
      var active := Active(Sorted(ByCreationReversed, olds) + Proportional.ToSeq(newRS));
      if |active| == 1 {
        assert active[0] in active;
      }
    }

    lemma ZeroListing(before: ReplicaSetStore, nf: seq<ReplicaSet>, added: seq<ReplicaSet>, b: nat)
      requires Listing(nf + added) && Current(before, nf + added)
      ensures Distinct(Active(nf)) && Current(before, Active(nf))
      ensures var list := Proportional.ZeroAll(cfg, Active(nf), b).list;
              Merge(before, Inactive(nf) + list + added) == Merge(before, list)
    {
      hide Merge, Ids, Total, Active, Inactive, Proportional.ZeroAll;
      DistinctParts(nf, added);
      ProportionalSync.NonNegativeParts(nf, added);
      ActiveDistinct(nf);
      var list := Proportional.ZeroAll(cfg, Active(nf), b).list;
      ProportionalSync.ZeroAllFacts(cfg, Active(nf), b);
      Rejoin(nf, list);
      var end := Inactive(nf) + list;
      IdsAppend(nf, added);
      IdsAppend(end, added);
      DistinctByIds(nf + added, end + added);
      assert Current(before, added) && Current(before, nf) by {
        assert forall x :: x in nf || x in added ==> x in nf + added;
      }
      JoinedMerge(before, end, added);
      MergeCurrent(before, nf);
      PutBackMerge(before, nf, list);
    }
  }
}
