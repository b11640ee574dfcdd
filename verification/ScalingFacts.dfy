/** What each pass over the old replica sets keeps and reaches. */
module ScalingFacts {
  import opened Base
  import opened Limits
  import opened ReplicaSets
  import opened Ordering
  import opened Scaling

  /** Every set is lowered or left; nothing else about it changes but its annotations. */
  ghost predicate Lowered(before: seq<ReplicaSet>, after: seq<ReplicaSet>) {
    && |before| == |after|
    && (before != [] ==>
          && SameSet(before[0], after[0])
          && 0 <= after[0].size <= before[0].size
          && Lowered(before[1..], after[1..]))
  }

  lemma {:induction false} LoweredRefl(rss: seq<ReplicaSet>)
    requires NonNegative(rss)
    ensures Lowered(rss, rss)
  {
    if rss != [] {
      assert rss[0] in rss;
      NonNegativeTail(rss);
      LoweredRefl(rss[1..]);
    }
  }

  lemma {:induction false} LoweredMeans(before: seq<ReplicaSet>, after: seq<ReplicaSet>)
    requires Lowered(before, after)
    ensures SameSets(before, after) && NonNegative(after)
    ensures forall i :: 0 <= i < |before| ==> after[i].size <= before[i].size
    ensures Total(Available, after) == Total(Available, before)
    ensures Ids(before) == Ids(after)
  {
    if before != [] {
      LoweredMeans(before[1..], after[1..]);
      forall i | 0 <= i < |before| ensures SameSet(before[i], after[i]) && 0 <= after[i].size <= before[i].size {
        if i > 0 {
          assert SameSet(before[1..][i - 1], after[1..][i - 1]);
          assert after[1..][i - 1] in after[1..];
        }
      }
    }
  }

  lemma NonNegativeTail(rss: seq<ReplicaSet>)
    requires rss != [] && NonNegative(rss)
    ensures rss[0].size >= 0 && NonNegative(rss[1..])
  {
  }

  /** One more set in front of a finished pass. */
  lemma PrependFacts(rss: seq<ReplicaSet>, head: ReplicaSet, p: Pass)
    requires rss != [] && SameSet(rss[0], head) && 0 <= head.size <= rss[0].size
    requires Lowered(rss[1..], p.list) && Total(Size, p.list) == Total(Size, rss[1..]) - p.removed
    ensures var count := rss[0].size - head.size;
            var q := Prepend(head, count, p);
            && Lowered(rss, q.list)
            && Total(Size, q.list) == Total(Size, rss) - q.removed
            && Total(Serving, q.list) == Of(Serving, head) + Total(Serving, p.list)
            && Total(Serving, rss) == Of(Serving, rss[0]) + Total(Serving, rss[1..])
  {
    hide Total;
    var q := Prepend(head, rss[0].size - head.size, p);
    TotalHead(rss);
    TotalHead(q.list);
    assert q.list[1..] == p.list;
  }

  /** Cleanup counts exactly what it removes, stays within its allowance, and takes no available
      pod: every set keeps its serving pods, on success and on every failure. */
  lemma {:induction false} CleanupFacts(cfg: Config, rss: seq<ReplicaSet>, most: int, budget: nat)
    requires NonNegative(rss)
    ensures var p := Cleanup(cfg, rss, most, budget);
            && Lowered(rss, p.list)
            && Total(Size, p.list) == Total(Size, rss) - p.removed
            && Total(Serving, p.list) == Total(Serving, rss)
            && 0 <= p.removed <= Positive(most)
            && (p.removed == 0 ==> p.list == rss)
  {
    hide Total, MaxSurge, Lowered;
    if rss == [] || most <= 0 {
      LoweredRefl(rss);
    } else {
      var head := rss[0];
      NonNegativeTail(rss);
      if head.size == 0 || head.size == head.available {
        CleanupFacts(cfg, rss[1..], most, budget);
        PrependFacts(rss, head, Cleanup(cfg, rss[1..], most, budget));
      } else {
        var count := Min(most, head.size - head.available);
        if count < 0 || budget == 0 {
          LoweredRefl(rss);
        } else {
          CleanupFacts(cfg, rss[1..], most - count, budget - 1);
          PrependFacts(rss, Resized(cfg, head, head.size - count), Cleanup(cfg, rss[1..], most - count, budget - 1));
        }
      }
    }
  }

  /** With sane availability and enough writes, cleanup succeeds and leaves either no unhealthy
      replica or no allowance. */
  lemma {:induction false} CleanupCompletes(cfg: Config, rss: seq<ReplicaSet>, most: int, budget: nat)
    requires Sane(rss) && budget >= |rss|
    ensures var p := Cleanup(cfg, rss, most, budget);
            p.ok && p.removed == Min(Positive(most), Total(Size, rss) - Total(Available, rss))
    ensures Total(Size, rss) >= Total(Available, rss)
  {
    hide Total, MaxSurge;
    TotalOfNone();
    if rss != [] {
      TotalHead(rss);
      var head := rss[0];
      assert head in rss;
      assert forall x :: x in rss[1..] ==> x in rss;
      CleanupCompletes(cfg, rss[1..], most, budget);
      if most > 0 && head.size != head.available && head.size != 0 {
        CleanupCompletes(cfg, rss[1..], most - Min(most, head.size - head.available), budget - 1);
      }
    }
  }

  /** A cleanup takes at most one write per set. */
  lemma {:induction false} CleanupBudget(cfg: Config, rss: seq<ReplicaSet>, most: int, budget: nat)
    ensures Cleanup(cfg, rss, most, budget).budget >= budget - |rss|
    ensures |Cleanup(cfg, rss, most, budget).list| == |rss|
  {
    hide Resized;
    if rss != [] {
      CleanupBudget(cfg, rss[1..], most, budget);
      if budget > 0 {
        CleanupBudget(cfg, rss[1..], most - Min(most, rss[0].size - rss[0].available), budget - 1);
      }
    }
  }

  /** A set is cleaned only when all sets before it have no unhealthy replica left. */
  ghost predicate HealthyFirst(before: seq<ReplicaSet>, after: seq<ReplicaSet>) {
    && |before| == |after|
    && forall i, j :: 0 <= i < j < |before| && after[j].size != before[j].size ==> after[i].size == before[i].available
  }

  lemma HealthyFirstTail(before: seq<ReplicaSet>, after: seq<ReplicaSet>)
    requires |before| == |after| > 0
    requires after[0].size == before[0].available || after[1..] == before[1..]
    requires HealthyFirst(before[1..], after[1..])
    ensures HealthyFirst(before, after)
  {
    forall i, j | 0 <= i < j < |before| && after[j].size != before[j].size
      ensures after[i].size == before[i].available
    {
      assert after[1..][j - 1].size != before[1..][j - 1].size;
      if i > 0 {
        assert after[1..][i - 1].size == before[1..][i - 1].available;
      }
    }
  }

  lemma NoAllowance(cfg: Config, rss: seq<ReplicaSet>, most: int, budget: nat)
    requires most <= 0
    ensures Cleanup(cfg, rss, most, budget).list == rss
  {
  }

  /** One set of a cleanup. */
  lemma CleanupStep(cfg: Config, rss: seq<ReplicaSet>, most: int, budget: nat)
    requires rss != [] && 0 <= rss[0].available <= rss[0].size && most > 0
    ensures var p, count := Cleanup(cfg, rss, most, budget), Min(most, rss[0].size - rss[0].available);
            if count > 0 && budget == 0 then p == Pass(rss, 0, 0, false)
            else
              var rest := Cleanup(cfg, rss[1..], most - count, if count > 0 then budget - 1 else budget);
              && |p.list| == 1 + |rest.list| && p.list[0].size == rss[0].size - count && p.list[1..] == rest.list
  {
    hide MaxSurge;
    assert forall y: ReplicaSet, q: seq<ReplicaSet> :: ([y] + q)[1..] == q;
  }

  /** Cleanup works in list order, which is from the oldest set to the newest. */
  lemma {:induction false} CleanupInOrder(cfg: Config, rss: seq<ReplicaSet>, most: int, budget: nat)
    requires Sane(rss)
    ensures HealthyFirst(rss, Cleanup(cfg, rss, most, budget).list)
  {
    hide Cleanup, HealthyFirst, Sane;
    if rss == [] || most <= 0 {
      NothingCleaned(cfg, rss, most, budget);
    } else {
      SaneTail(rss);
      CleanupStep(cfg, rss, most, budget);
      var count := Min(most, rss[0].size - rss[0].available);
      if count > 0 && budget == 0 {
        UntouchedHealthy(rss);
      } else {
        var b := if count > 0 then budget - 1 else budget;
        CleanupInOrder(cfg, rss[1..], most - count, b);
        HealthyLength(rss[1..], Cleanup(cfg, rss[1..], most - count, b).list);
        if most == count {
          NoAllowance(cfg, rss[1..], most - count, b);
        }
        HealthyFirstTail(rss, Cleanup(cfg, rss, most, budget).list);
      }
    }
  }

  lemma SaneTail(rss: seq<ReplicaSet>)
    requires rss != [] && Sane(rss)
    ensures 0 <= rss[0].available <= rss[0].size && Sane(rss[1..])
  {
  }

  lemma HealthyLength(before: seq<ReplicaSet>, after: seq<ReplicaSet>)
    requires HealthyFirst(before, after)
    ensures |before| == |after|
  {
  }

  lemma UntouchedHealthy(rss: seq<ReplicaSet>)
    ensures HealthyFirst(rss, rss)
  {
  }

  lemma NothingCleaned(cfg: Config, rss: seq<ReplicaSet>, most: int, budget: nat)
    requires rss == [] || most <= 0
    ensures HealthyFirst(rss, Cleanup(cfg, rss, most, budget).list)
  {
  }

  /** Over the sets of a deployment: the older of two sets is healthy before the newer is touched. */
  lemma CleanupOldestFirst(cfg: Config, rss: seq<ReplicaSet>, most: int, budget: nat)
    requires Sane(rss) && Distinct(rss)
    ensures var sorted := Sorted(ByCreation, rss);
            var list := Cleanup(cfg, sorted, most, budget).list;
            && |list| == |sorted|
            && forall i, j :: 0 <= i < |sorted| && 0 <= j < |sorted| && CreatedBefore(sorted[i], sorted[j])
                              && list[j].size != sorted[j].size
                              ==> list[i].size == sorted[i].available
  {
    hide Sorted, Cleanup, Sane, Distinct;
    var sorted := Sorted(ByCreation, rss);
    SortedPermutes(ByCreation, rss);
    SortedOrdered(ByCreation, rss);
    SanePermuted(rss, sorted);
    CleanupInOrder(cfg, sorted, most, budget);
    OrderedPlaces(ByCreation, sorted);
  }

  lemma SanePermuted(a: seq<ReplicaSet>, b: seq<ReplicaSet>)
    requires Sane(a) && forall x :: x in b ==> x in a
    ensures Sane(b)
  {
  }

  lemma {:induction false} DrainFacts(cfg: Config, rss: seq<ReplicaSet>, most: int, budget: nat)
    requires NonNegative(rss)
    ensures var p := Drain(cfg, rss, most, budget);
            && Lowered(rss, p.list)
            && Total(Size, p.list) == Total(Size, rss) - p.removed
            && Total(Serving, p.list) >= Total(Serving, rss) - p.removed
            && 0 <= p.removed <= Positive(most)
            && (p.removed == 0 ==> p.list == rss)
  {
    hide Total, MaxSurge, Lowered;
    if rss == [] || most <= 0 {
      LoweredRefl(rss);
    } else {
      var head := rss[0];
      NonNegativeTail(rss);
      if head.size == 0 {
        DrainFacts(cfg, rss[1..], most, budget);
        PrependFacts(rss, head, Drain(cfg, rss[1..], most, budget));
      } else if budget == 0 {
        LoweredRefl(rss);
      } else {
        var count := Min(head.size, most);
        DrainFacts(cfg, rss[1..], most - count, budget - 1);
        PrependFacts(rss, Resized(cfg, head, head.size - count), Drain(cfg, rss[1..], most - count, budget - 1));
      }
    }
  }

  /** Whenever something may be removed and one write is accepted, something is removed. */
  lemma {:induction false} DrainMoves(cfg: Config, rss: seq<ReplicaSet>, most: int, budget: nat)
    requires NonNegative(rss) && budget > 0 && most > 0 && Total(Size, rss) > 0
    ensures Drain(cfg, rss, most, budget).removed > 0
  {
    NonNegativeTail(rss);
    if rss[0].size == 0 {
      DrainMoves(cfg, rss[1..], most, budget);
    } else {
      DrainFacts(cfg, rss[1..], most - Min(rss[0].size, most), budget - 1);
    }
  }

  /** List order is kept: a set is touched only when all sets before it are already empty. */
  ghost predicate Greedy(before: seq<ReplicaSet>, after: seq<ReplicaSet>) {
    && |before| == |after|
    && forall i, j :: 0 <= i < j < |before| && after[j].size != before[j].size ==> after[i].size == 0
  }

  lemma {:induction false} DrainGreedy(cfg: Config, rss: seq<ReplicaSet>, most: int, budget: nat)
    requires NonNegative(rss)
    ensures Greedy(rss, Drain(cfg, rss, most, budget).list)
  {
    hide MaxSurge;
    if rss != [] && most > 0 {
      var head := rss[0];
      NonNegativeTail(rss);
      var p := Drain(cfg, rss, most, budget);
      if head.size == 0 {
        DrainGreedy(cfg, rss[1..], most, budget);
        assert p.list[1..] == Drain(cfg, rss[1..], most, budget).list;
        GreedyTail(rss, p.list);
      } else if budget > 0 {
        var count := Min(head.size, most);
        DrainGreedy(cfg, rss[1..], most - count, budget - 1);
        assert p.list[1..] == Drain(cfg, rss[1..], most - count, budget - 1).list;
        if count == head.size {
          GreedyTail(rss, p.list);
        }
      }
    }
  }

  /** One set of a drain. */
  lemma DrainStep(cfg: Config, rss: seq<ReplicaSet>, most: int, budget: nat)
    requires rss != [] && rss[0].size >= 0 && most > 0
    ensures var p, count := Drain(cfg, rss, most, budget), Min(rss[0].size, most);
            if rss[0].size > 0 && budget == 0 then p == Pass(rss, 0, 0, false)
            else
              var rest := Drain(cfg, rss[1..], most - count, if rss[0].size == 0 then budget else budget - 1);
              && p.ok == rest.ok && p.removed == count + rest.removed
              && |p.list| == 1 + |rest.list| && p.list[0].size == rss[0].size - count && p.list[1..] == rest.list
  {
    hide MaxSurge;
    var q := Drain(cfg, rss[1..], most - Min(rss[0].size, most), if rss[0].size == 0 || budget == 0 then budget else budget - 1);
    assert forall y: ReplicaSet :: ([y] + q.list)[1..] == q.list;
  }

  /** A pass removes exactly the smaller of what is allowed and what there is, unless it is refused
      a write, and then less. */
  lemma {:induction false} DrainExact(cfg: Config, rss: seq<ReplicaSet>, most: int, budget: nat)
    requires NonNegative(rss)
    ensures var p := Drain(cfg, rss, most, budget);
            p.ok <==> p.removed == Min(Positive(most), Total(Size, rss))
    ensures budget >= |rss| ==> Drain(cfg, rss, most, budget).ok
  {
    hide Total, NonNegative, Drain;
    TotalOfNone();
    TotalNonNegative(rss);
    if rss == [] || most <= 0 {
      NothingDrained(cfg, rss, most, budget);
    } else {
      TotalHead(rss);
      NonNegativeTail(rss);
      TotalNonNegative(rss[1..]);
      DrainStep(cfg, rss, most, budget);
      if rss[0].size == 0 {
        DrainExact(cfg, rss[1..], most, budget);
      } else if budget > 0 {
        DrainExact(cfg, rss[1..], most - Min(rss[0].size, most), budget - 1);
      }
    }
  }

  lemma NothingDrained(cfg: Config, rss: seq<ReplicaSet>, most: int, budget: nat)
    requires rss == [] || most <= 0
    ensures Drain(cfg, rss, most, budget) == Pass(rss, 0, budget, true)
  {
  }

  /** The sets that a drain of `most` replicas has to write: the non-empty ones it reaches. */
  function Needed(rss: seq<ReplicaSet>, most: int): nat {
    if rss == [] || most <= 0 then 0
    else (if rss[0].size == 0 then 0 else 1) + Needed(rss[1..], most - rss[0].size)
  }

  /** A drain succeeds exactly when that many writes are accepted. */
  lemma {:induction false} DrainNeeds(cfg: Config, rss: seq<ReplicaSet>, most: int, budget: nat)
    requires NonNegative(rss)
    ensures Drain(cfg, rss, most, budget).ok <==> budget >= Needed(rss, most)
    ensures Needed(rss, most) <= |rss|
  {
    hide Resized, NonNegative;
    if rss != [] && most > 0 {
      NonNegativeTail(rss);
      if rss[0].size == 0 {
        DrainNeeds(cfg, rss[1..], most, budget);
      } else {
        var count := Min(rss[0].size, most);
        NothingNeeded(rss[1..], most - rss[0].size, most - count);
        DrainNeeds(cfg, rss[1..], most - count, if budget > 0 then budget - 1 else 0);
      }
    }
  }

  lemma NothingNeeded(rss: seq<ReplicaSet>, a: int, b: int)
    ensures (a == b || (a <= 0 && b <= 0)) ==> Needed(rss, a) == Needed(rss, b)
  {
  }

  lemma PrefixTotal(rss: seq<ReplicaSet>, k: nat)
    requires NonNegative(rss) && k < |rss|
    ensures Total(Size, rss[..k]) >= 0 && rss[k].size >= 0
    ensures k == 0 ==> Total(Size, rss[..k]) == 0
    ensures k > 0 ==> Total(Size, rss[..k]) == rss[0].size + Total(Size, rss[1..][..k - 1]) && Total(Size, rss[1..][..k - 1]) >= 0
  {
    hide Total;
    TotalOfNone();
    TotalNonNegative(rss[..k]);
    if k == 0 {
      assert rss[..0] == [];
    } else {
      assert rss[1..][..k - 1] == rss[..k][1..];
      TotalHead(rss[..k]);
      TotalNonNegative(rss[..k][1..]);
    }
  }

  /** Where a drain leaves each set: what is allowed beyond the sets before it is taken from it. */
  lemma {:induction false} DrainAt(cfg: Config, rss: seq<ReplicaSet>, most: int, budget: nat, k: nat)
    requires NonNegative(rss) && budget >= |rss| && k < |rss|
    ensures |Drain(cfg, rss, most, budget).list| == |rss|
    ensures Drain(cfg, rss, most, budget).list[k].size
            == rss[k].size - Min(rss[k].size, Positive(most - Total(Size, rss[..k])))
  {
    hide Total, NonNegative, Drain;
    DrainLength(cfg, rss, most, budget);
    NonNegativeTail(rss);
    PrefixTotal(rss, k);
    if most <= 0 {
      NothingDrained(cfg, rss, most, budget);
    } else {
      DrainStep(cfg, rss, most, budget);
      if k > 0 {
        DrainAt(cfg, rss[1..], most - Min(rss[0].size, most), if rss[0].size == 0 then budget else budget - 1, k - 1);
      }
    }
  }

  lemma {:induction false} DrainLength(cfg: Config, rss: seq<ReplicaSet>, most: int, budget: nat)
    ensures |Drain(cfg, rss, most, budget).list| == |rss|
  {
    if rss != [] && most > 0 {
      if rss[0].size == 0 {
        DrainLength(cfg, rss[1..], most, budget);
      } else if budget > 0 {
        DrainLength(cfg, rss[1..], most - Min(rss[0].size, most), budget - 1);
      }
    }
  }

  predicate HigherRevision(x: ReplicaSet, y: ReplicaSet) {
    RevisionOf(x).Some? && RevisionOf(y).Some? && RevisionOf(x).value > RevisionOf(y).value
  }

  /** Of two sets whose revisions parse the lower one is touched only when the higher one is empty. */
  ghost predicate ByRevision(before: seq<ReplicaSet>, after: seq<ReplicaSet>) {
    && |before| == |after|
    && forall i, j :: 0 <= i < |before| && 0 <= j < |before| && HigherRevision(before[i], before[j])
                      && after[j].size != before[j].size
                      ==> after[i].size == 0
  }

  lemma DrainKeepsRevisionOrder(cfg: Config, rss: seq<ReplicaSet>, most: int, budget: nat)
    requires NonNegative(rss) && Distinct(rss) && Comparable(BySmallerRevision, rss)
    ensures var sorted := Sorted(BySmallerRevision, rss);
            ByRevision(sorted, Drain(cfg, sorted, most, budget).list)
  {
    var sorted := Sorted(BySmallerRevision, rss);
    SortedPermutes(BySmallerRevision, rss);
    SortedOrdered(BySmallerRevision, rss);
    DrainGreedy(cfg, sorted, most, budget);
    forall i, j | 0 <= j <= i < |sorted| ensures !HigherRevision(sorted[i], sorted[j]) {
      assert j < i ==> Less(BySmallerRevision, sorted[j], sorted[i]);
    }
  }

  /** Over the sets sorted by revision draining takes exactly the smaller of what is allowed and
      what there is, emptying one after the other: at most one is left partly drained and all after
      it are untouched; and of two sets whose revisions parse the higher one is emptied first. */
  lemma DrainByRevision(cfg: Config, rss: seq<ReplicaSet>, most: int, budget: nat)
    requires NonNegative(rss) && Distinct(rss) && Comparable(BySmallerRevision, rss) && budget >= |rss|
    ensures var sorted := Sorted(BySmallerRevision, rss);
            var p := Drain(cfg, sorted, most, budget);
            && p.ok && p.removed == Min(Positive(most), Total(Size, rss))
            && Greedy(sorted, p.list) && ByRevision(sorted, p.list)
  {
    var sorted := Sorted(BySmallerRevision, rss);
    SortedPermutes(BySmallerRevision, rss);
    TotalPermuted(Size, rss, sorted);
    DrainExact(cfg, sorted, most, budget);
    DrainGreedy(cfg, sorted, most, budget);
    DrainKeepsRevisionOrder(cfg, rss, most, budget);
  }

  lemma GreedyTail(before: seq<ReplicaSet>, after: seq<ReplicaSet>)
    requires |before| == |after| > 0 && after[0].size == 0
    requires Greedy(before[1..], after[1..])
    ensures Greedy(before, after)
  {
    forall i, j | 0 <= i < j < |before| && after[j].size != before[j].size
      ensures after[i].size == 0
    {
      if i > 0 {
        assert after[1..][j - 1].size != before[1..][j - 1].size;
        assert after[1..][i - 1].size == 0;
      }
    }
  }
}
