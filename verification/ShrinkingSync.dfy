/**
  A sync that has to take replicas away: the old sets go at once beside a complete new set;
  otherwise the unhealthy replicas go first and every set keeps its share.
 */
module ShrinkingSync {
  import opened Base
  import opened Limits
  import opened ReplicaSets
  import opened Ordering
  import opened Scaling
  import opened ScalingFacts
  import opened UpgradeFacts
  import opened Proportional
  import opened ProportionalFacts
  import opened ProportionalSync
  import PassFacts
  import RolloutRuns

  // ---- the share of each set ----

  /** Shrinking, a set loses its fraction as far as those before it leave something to take. */
  lemma ProportionShrunk(cfg: Config, rss: seq<ReplicaSet>, toAdd: int, i: nat)
    requires toAdd < 0 && i < |rss| && forall rs :: rs in rss ==> rs.size != 0
    ensures Proportions(cfg, rss, toAdd, 0)[i]
            == if Exhausts(cfg, rss[..i], toAdd) then 0
               else Max(GetReplicaSetFraction(cfg, rss[i]), toAdd - FractionSum(cfg, rss[..i]))
  {
    hide GetReplicaSetFraction, Proportions, FractionSum;
    PassFacts.ProportionAt(cfg, rss, toAdd, 0, i);
    ProportionsPrefix(cfg, rss, toAdd, 0, i);
    ProportionsShrink(cfg, rss[..i], toAdd, 0);
    if !Exhausts(cfg, rss[..i], toAdd) {
      ExhaustedSum(cfg, rss[..i], toAdd);
    }
    assert rss[i] in rss;
  }

  lemma {:induction false} ExhaustedSum(cfg: Config, rss: seq<ReplicaSet>, allowed: int)
    requires !Exhausts(cfg, rss, allowed)
    ensures FractionSum(cfg, rss) > allowed
  {
    hide GetReplicaSetFraction;
    if rss != [] {
      ExhaustedSum(cfg, rss[1..], allowed - GetReplicaSetFraction(cfg, rss[0]));
    }
  }

  /** The size of the i-th set of a shrinking or level distribution. */
  function ShrunkSize(cfg: Config, rss: seq<ReplicaSet>, i: nat): int
    requires i < |rss|
  {
    var toAdd, f := cfg.replicas - Total(Size, rss), GetReplicaSetFraction(cfg, rss[i]);
    if toAdd == 0 then rss[i].size
    else if i > 0 then
      rss[i].size + if Exhausts(cfg, rss[..i], toAdd) then 0 else Max(f, toAdd - FractionSum(cfg, rss[..i]))
    else
      var rest, left := rss[1..], toAdd - Max(f, toAdd);
      Max(0, cfg.replicas - Total(Size, rest) - if Exhausts(cfg, rest, left) then left else FractionSum(cfg, rest))
  }

  lemma ShrunkFirst(cfg: Config, rss: seq<ReplicaSet>)
    requires rss != [] && Total(Size, rss) > cfg.replicas && forall rs :: rs in rss ==> rs.size > 0
    ensures Max(0, FirstTarget(cfg, rss, cfg.replicas - Total(Size, rss))) == ShrunkSize(cfg, rss, 0)
  {
    hide GetReplicaSetFraction, Total, Exhausts, FractionSum;
    TotalHead(rss);
    var toAdd := cfg.replicas - Total(Size, rss);
    var p := GetProportion(cfg, rss[0], toAdd, 0);
    assert rss[0] in rss && forall x :: x in rss[1..] ==> x in rss;
    ProportionsShrink(cfg, rss[1..], toAdd, p);
    assert Proportions(cfg, rss, toAdd, 0) == [p] + Proportions(cfg, rss[1..], toAdd, p);
  }

  lemma ShrunkTarget(cfg: Config, rss: seq<ReplicaSet>, i: nat)
    requires i < |rss| && Total(Size, rss) >= cfg.replicas && forall rs :: rs in rss ==> rs.size > 0
    ensures Targets(cfg, rss, cfg.replicas - Total(Size, rss))[i] == ShrunkSize(cfg, rss, i)
  {
    hide GetReplicaSetFraction, Total, Proportions, FractionSum, Sum, Exhausts, FirstTarget;
    var toAdd := cfg.replicas - Total(Size, rss);
    if toAdd == 0 {
      ProportionsZero(cfg, rss, 0);
    } else if i > 0 {
      ProportionShrunk(cfg, rss, toAdd, i);
    } else {
      ShrunkFirst(cfg, rss);
    }
  }

  lemma SpreadShrinks(cfg: Config, all: seq<ReplicaSet>, budget: nat, i: nat)
    requires Total(Size, Active(all)) >= cfg.replicas && Spread(cfg, all, budget).ok
    requires i < |Arranged(Active(all), cfg.replicas - Total(Size, Active(all)))|
    ensures var rss := Arranged(Active(all), cfg.replicas - Total(Size, Active(all)));
            Resized(cfg, rss[i], ShrunkSize(cfg, rss, i)) in Spread(cfg, all, budget).list
  {
    hide Total, Sorted, Active, Arranged, Targets, WriteAll, ShrunkSize, Ids;
    var active := Active(all);
    var toAdd := cfg.replicas - Total(Size, active);
    var rss := Arranged(active, toAdd);
    ArrangedPermutes(active, toAdd);
    ShrunkTarget(cfg, rss, i);
    var targets := Targets(cfg, rss, toAdd);
    WriteAllFacts(cfg, rss, targets, budget);
    var list := WriteAll(cfg, rss, targets, budget).list;
    assert |Ids(list)| == |Ids(rss)|;
    assert list[i] in list;
  }

  // ---- a whole sync ----

  lemma {:induction false} CleanupSpares(cfg: Config, rss: seq<ReplicaSet>, most: int, budget: nat, x: ReplicaSet)
    requires x in rss && x.size == x.available
    ensures x in Cleanup(cfg, rss, most, budget).list
  {
    hide Resized;
    var b := if rss[0].size == 0 || rss[0].size == rss[0].available || budget == 0 then budget else budget - 1;
    var left := if b == budget then most else most - Min(most, rss[0].size - rss[0].available);
    if x != rss[0] {
      CleanupSpares(cfg, rss[1..], left, b, x);
    }
  }

  /** The sets over which the sync distributes, in its order. */
  function Shared(cfg: Config, newRS: Option<ReplicaSet>, olds: seq<ReplicaSet>, budget: nat): seq<ReplicaSet> {
    var all := CleanedOlds(cfg, newRS, Sorted(ByCreationReversed, olds), budget).list + ToSeq(newRS);
    Arranged(Active(all), cfg.replicas - Total(Size, Active(all)))
  }

  lemma SharedKeeps(cfg: Config, newRS: Option<ReplicaSet>, olds: seq<ReplicaSet>, budget: nat, x: ReplicaSet)
    requires x in olds + ToSeq(newRS) && IsActive(x) && (x.available == x.size || newRS == Some(x))
    ensures x in Shared(cfg, newRS, olds, budget)
  {
    hide Sorted, Active, Total, Cleanup, Arranged;
    var nf := Sorted(ByCreationReversed, olds);
    SortedPermutes(ByCreationReversed, olds);
    SortedPermutes(ByCreation, nf);
    var c := CleanedOlds(cfg, newRS, nf, budget);
    if x in olds && x.available == x.size {
      CleanupSpares(cfg, Sorted(ByCreation, nf), Total(Size, Active(nf + ToSeq(newRS))) - cfg.replicas, budget, x);
    }
    var all := c.list + ToSeq(newRS);
    assert x in all;
    ArrangedPermutes(Active(all), cfg.replicas - Total(Size, Active(all)));
  }

  /** A new set that lacks something, if only an available pod, does not cost the old sets all their
      pods: every set that keeps its place in the distribution, as each fully available one and the
      new one do, ends at the size that its own share comes to. */
  lemma SyncShrinks(cfg: Config, newRS: Option<ReplicaSet>, olds: seq<ReplicaSet>, budget: nat)
    requires Listing(olds + ToSeq(newRS)) && Distributes(cfg, newRS, olds)
    requires Total(Size, olds + ToSeq(newRS)) >= cfg.replicas && Scale(cfg, newRS, olds, budget).ok
    ensures var rss, r := Shared(cfg, newRS, olds, budget), Scale(cfg, newRS, olds, budget);
            && (forall i :: 0 <= i < |rss| ==> Resized(cfg, rss[i], ShrunkSize(cfg, rss, i)) in r.list)
            && forall x :: x in olds + ToSeq(newRS) && IsActive(x) && (x.available == x.size || newRS == Some(x)) ==> x in rss
  {
    hide Sorted, Active, Total, CleanedOlds, Arranged, Spread, ShrunkSize, Resized, Shared, Listing;
    var nf := Sorted(ByCreationReversed, olds);
    var c := CleanedOlds(cfg, newRS, nf, budget);
    SharedTotal(cfg, newRS, olds, budget);
    forall i | 0 <= i < |Shared(cfg, newRS, olds, budget)|
      ensures Resized(cfg, Shared(cfg, newRS, olds, budget)[i], ShrunkSize(cfg, Shared(cfg, newRS, olds, budget), i))
              in Scale(cfg, newRS, olds, budget).list
    {
      SharedIs(cfg, newRS, olds, budget);
      SpreadShrinks(cfg, c.list + ToSeq(newRS), c.budget, i);
    }
    forall x | x in olds + ToSeq(newRS) && IsActive(x) && (x.available == x.size || newRS == Some(x))
      ensures x in Shared(cfg, newRS, olds, budget)
    {
      SharedKeeps(cfg, newRS, olds, budget, x);
    }
  }

  lemma SharedIs(cfg: Config, newRS: Option<ReplicaSet>, olds: seq<ReplicaSet>, budget: nat)
    ensures var all := CleanedOlds(cfg, newRS, Sorted(ByCreationReversed, olds), budget).list + ToSeq(newRS);
            Shared(cfg, newRS, olds, budget) == Arranged(Active(all), cfg.replicas - Total(Size, Active(all)))
  {
    hide Sorted, Active, Total, CleanedOlds, Arranged;
  }

  /** After the cleanup there are still as many replicas as wanted. */
  lemma SharedTotal(cfg: Config, newRS: Option<ReplicaSet>, olds: seq<ReplicaSet>, budget: nat)
    requires Listing(olds + ToSeq(newRS)) && Distributes(cfg, newRS, olds)
    requires Total(Size, olds + ToSeq(newRS)) >= cfg.replicas
    ensures var c := CleanedOlds(cfg, newRS, Sorted(ByCreationReversed, olds), budget);
            && Total(Size, Active(c.list + ToSeq(newRS))) >= cfg.replicas
            && Scale(cfg, newRS, olds, budget)
               == (if c.ok then Spread(cfg, c.list + ToSeq(newRS), c.budget) else Synced(c.list + ToSeq(newRS), false))
  {
    hide Sorted, Active, Total, CleanedOlds, Spread, Ids, Distinct, Arranged, ZeroAll;
    var nf := Sorted(ByCreationReversed, olds);
    JoinedActive(olds, newRS);
    PermutedLength(nf + ToSeq(newRS), olds + ToSeq(newRS));
    TotalPermuted(Size, nf + ToSeq(newRS), olds + ToSeq(newRS));
    CleanedFacts(cfg, newRS, nf, budget);
    ActiveTotal(nf + ToSeq(newRS));
  }

  // ---- beside a complete new set ----

  lemma {:induction false} ServingNonNegative(rss: seq<ReplicaSet>)
    requires NonNegative(rss)
    ensures Total(Serving, rss) >= 0
  {
    if rss != [] {
      NonNegativeTail(rss);
      ServingNonNegative(rss[1..]);
    }
  }

  lemma {:induction false} ZeroAllKeeps(cfg: Config, rss: seq<ReplicaSet>, budget: nat)
    requires NonNegative(rss)
    ensures NonNegative(ZeroAll(cfg, rss, budget).list)
  {
    hide MaxSurge;
    if rss != [] {
      NonNegativeTail(rss);
      ZeroAllKeeps(cfg, rss[1..], budget);
      if budget > 0 {
        ZeroAllKeeps(cfg, rss[1..], budget - 1);
      }
    }
  }

  /** A new set that has all the pods the Deployment wants, available and counted for it, is left
      alone, and the old sets are emptied, as far as writes are accepted; at no point are fewer pods
      serving than the Deployment wants. */
  lemma CompleteNewSetServes(cfg: Config, newRS: ReplicaSet, olds: seq<ReplicaSet>, budget: nat)
    requires Listing(olds + [newRS]) && |Active(olds + [newRS])| > 1
    requires newRS.size == cfg.replicas && newRS.desired == Some(cfg.replicas) && newRS.available == cfg.replicas
    ensures var r := Scale(cfg, Some(newRS), olds, budget);
            && SameIds(olds + [newRS], r.list) && newRS in r.list && Total(Serving, r.list) >= cfg.replicas
            && (r.ok ==> forall x :: x in r.list && x != newRS ==> x.size == 0)
  {
    hide Sorted, Active, Inactive, Total, ZeroAll, Ids;
    var nf := Sorted(ByCreationReversed, olds);
    assert olds + ToSeq(Some(newRS)) == olds + [newRS];
    JoinedActive(olds, Some(newRS));
    SortedKeeps(ByCreationReversed, olds);
    NonNegativeParts(olds, [newRS]);
    var zeroed := ZeroAll(cfg, Active(nf), budget).list;
    ZeroAllFacts(cfg, Active(nf), budget);
    ZeroAllKeeps(cfg, Active(nf), budget);
    Rejoin(nf, zeroed);
    var front := Inactive(nf) + zeroed;
    NonNegativeParts(Inactive(nf), zeroed);
    ServingNonNegative(front);
    TotalAppend(Serving, front, [newRS]);
    TotalOfOne(newRS);
    FrontIds(olds, nf, front, newRS);
  }

  lemma FrontIds(olds: seq<ReplicaSet>, nf: seq<ReplicaSet>, front: seq<ReplicaSet>, newRS: ReplicaSet)
    requires SameIds(olds, nf) && SameIds(nf, front)
    ensures SameIds(olds + [newRS], front + [newRS])
  {
    hide Ids;
    JoinIds(olds, front, newRS, newRS);
  }

  // ---- unhealthy replicas first ----

  /** What the cleanup of a sync removes: as many unhealthy replicas as are too many, of the oldest
      sets first. */
  lemma SyncCleans(cfg: Config, newRS: Option<ReplicaSet>, olds: seq<ReplicaSet>, budget: nat)
    requires Sane(olds) && Listing(olds + ToSeq(newRS)) && budget >= |olds|
    ensures var c := CleanedOlds(cfg, newRS, olds, budget);
            && c.ok && c.budget >= budget - |olds| && |c.list| == |olds|
            && c.removed == Min(Positive(Total(Size, olds + ToSeq(newRS)) - cfg.replicas), Total(Size, olds) - Total(Available, olds))
            && Total(Size, c.list) == Total(Size, olds) - c.removed && Total(Serving, c.list) == Total(Serving, olds)
    ensures var c, s := CleanedOlds(cfg, newRS, olds, budget), Sorted(ByCreation, olds);
            c.removed > 0 ==>
              && |s| == |c.list|
              && forall i, j :: 0 <= i < |s| && 0 <= j < |s| && CreatedBefore(s[i], s[j]) && c.list[j].size != s[j].size
                                ==> c.list[i].size == s[i].available
  {
    hide Sorted, Active, Total, Cleanup, Ids, Sane, CreatedBefore, Distinct;
    var excess := Total(Size, olds + ToSeq(newRS)) - cfg.replicas;
    ActiveTotal(olds + ToSeq(newRS));
    FrontDistinct(olds, ToSeq(newRS));
    UnhealthyNonNegative(olds);
    ExcessCleaned(cfg, olds, excess, budget);
    CleanupOldestFirst(cfg, olds, excess, budget);
  }

  lemma ExcessCleaned(cfg: Config, olds: seq<ReplicaSet>, excess: int, budget: nat)
    requires Sane(olds) && budget >= |olds|
    ensures var c := Cleanup(cfg, Sorted(ByCreation, olds), excess, budget);
            && c.ok && c.budget >= budget - |olds| && |c.list| == |olds|
            && c.removed == Min(Positive(excess), Total(Size, olds) - Total(Available, olds))
            && Total(Size, c.list) == Total(Size, olds) - c.removed && Total(Serving, c.list) == Total(Serving, olds)
  {
    hide Sorted, Total, Cleanup, Ids, Sane;
    var s := Sorted(ByCreation, olds);
    SortedKeeps(ByCreation, olds);
    SortedPermutes(ByCreation, olds);
    SanePermuted(olds, s);
    RolloutRuns.SaneTotals(olds);
    CleanupBudget(cfg, s, excess, budget);
    CleanupCompletes(cfg, s, excess, budget);
    CleanupKeeps(cfg, olds, excess, budget);
  }

  lemma UnhealthyNonNegative(rss: seq<ReplicaSet>)
    requires Sane(rss)
    ensures Total(Available, rss) <= Total(Size, rss)
  {
    hide Total;
    CleanupCompletes(Config(0, 0, None, None, Int(0), 0, 0, {}), rss, 0, |rss|);
  }

  lemma FrontDistinct(a: seq<ReplicaSet>, b: seq<ReplicaSet>)
    requires Distinct(a + b)
    ensures Distinct(a)
  {
    assert forall i :: 0 <= i < |a| ==> a[i] == (a + b)[i];
  }

  lemma {:induction false} LevelServes(cfg: Config, a: seq<ReplicaSet>, b: seq<ReplicaSet>)
    requires |a| == |b| && forall i :: 0 <= i < |a| ==> b[i] == Resized(cfg, a[i], a[i].size)
    ensures Total(Serving, b) == Total(Serving, a) && Total(Size, b) == Total(Size, a)
  {
    hide MaxSurge;
    if a != [] {
      LevelServes(cfg, a[1..], b[1..]);
    }
  }

  /** A distribution of sets that already have the wanted total serves as many pods afterwards. */
  lemma LevelSpread(cfg: Config, all: seq<ReplicaSet>, budget: nat)
    requires Total(Size, Active(all)) == cfg.replicas && budget >= |all|
    ensures var r := Spread(cfg, all, budget);
            && r.ok && Total(Serving, r.list) == Total(Serving, all) && Total(Size, r.list) == Total(Size, all)
  {
    hide Total, Active, Inactive, WriteAll, Proportions, Sum, Targets;
    var rss := Active(all);
    ActiveFits(all);
    SpreadOk(cfg, all, budget);
    var list := WriteAll(cfg, rss, Targets(cfg, rss, 0), budget).list;
    LevelWritten(cfg, rss, budget);
    SplitTotals(all, rss);
    TotalAppend(Serving, Inactive(all), list);
    TotalAppend(Size, Inactive(all), list);
  }

  lemma LevelWritten(cfg: Config, rss: seq<ReplicaSet>, budget: nat)
    requires budget >= |rss|
    ensures var list := WriteAll(cfg, rss, Targets(cfg, rss, 0), budget).list;
            Total(Serving, list) == Total(Serving, rss) && Total(Size, list) == Total(Size, rss)
  {
    hide Total, WriteAll, Proportions, Sum, Resized;
    ProportionsZero(cfg, rss, 0);
    var targets := Targets(cfg, rss, 0);
    WriteAllFacts(cfg, rss, targets, budget);
    ListLength(cfg, rss, targets, budget);
    LevelServes(cfg, rss, WriteAll(cfg, rss, targets, budget).list);
  }

  lemma SplitTotals(all: seq<ReplicaSet>, active: seq<ReplicaSet>)
    requires active == Active(all)
    ensures Total(Serving, all) == Total(Serving, Inactive(all)) + Total(Serving, active)
    ensures Total(Size, all) == Total(Size, Inactive(all)) + Total(Size, active)
  {
    hide Total, Active, Inactive;
    ActiveSplit(all);
    TotalPermuted(Serving, all, Inactive(all) + active);
    TotalPermuted(Size, all, Inactive(all) + active);
    TotalAppend(Serving, Inactive(all), active);
    TotalAppend(Size, Inactive(all), active);
  }

  lemma ListLength(cfg: Config, rss: seq<ReplicaSet>, targets: seq<int>, budget: nat)
    requires |targets| == |rss|
    ensures |WriteAll(cfg, rss, targets, budget).list| == |rss|
  {
    WriteAllFacts(cfg, rss, targets, budget);
    assert |Ids(WriteAll(cfg, rss, targets, budget).list)| == |Ids(rss)|;
  }

  /** If there are as many unhealthy old replicas as there are too many, the sync takes only such
      ones: it ends at the wanted total and as many pods serve as before. */
  lemma SyncTakesUnhealthyFirst(cfg: Config, newRS: Option<ReplicaSet>, olds: seq<ReplicaSet>, budget: nat)
    requires Listing(olds + ToSeq(newRS)) && Sane(olds) && Distributes(cfg, newRS, olds) && budget >= 2 * |olds| + 1
    requires 0 <= Total(Size, olds + ToSeq(newRS)) - cfg.replicas <= Total(Size, olds) - Total(Available, olds)
    ensures var r := Scale(cfg, newRS, olds, budget);
            && r.ok && Total(Size, r.list) == cfg.replicas
            && Total(Serving, r.list) == Total(Serving, olds + ToSeq(newRS))
  {
    hide Sorted, Active, Total, CleanedOlds, Spread, Ids, Sane, Listing;
    var nf := Sorted(ByCreationReversed, olds);
    NewestFirst(olds, newRS);
    SyncCleans(cfg, newRS, nf, budget);
    var all := CleanedOlds(cfg, newRS, nf, budget).list + ToSeq(newRS);
    SharedTotal(cfg, newRS, olds, budget);
    AllAfter(cfg, newRS, olds, budget);
    forall m | m == Size || m == Serving
      ensures Total(m, all) == Total(m, CleanedOlds(cfg, newRS, nf, budget).list) + Total(m, ToSeq(newRS))
      ensures Total(m, olds + ToSeq(newRS)) == Total(m, olds) + Total(m, ToSeq(newRS))
    {
      TotalAppend(m, CleanedOlds(cfg, newRS, nf, budget).list, ToSeq(newRS));
      TotalAppend(m, olds, ToSeq(newRS));
    }
    LevelSpread(cfg, all, CleanedOlds(cfg, newRS, nf, budget).budget);
  }

  lemma NewestFirst(olds: seq<ReplicaSet>, newRS: Option<ReplicaSet>)
    requires Listing(olds + ToSeq(newRS)) && Sane(olds)
    ensures var nf := Sorted(ByCreationReversed, olds);
            && Listing(nf + ToSeq(newRS)) && Sane(nf) && |nf| == |olds|
            && (forall m :: Total(m, nf) == Total(m, olds)) && Total(Size, nf + ToSeq(newRS)) == Total(Size, olds + ToSeq(newRS))
  {
    hide Sorted, Active, Total;
    var nf := Sorted(ByCreationReversed, olds);
    JoinedActive(olds, newRS);
    SortedPermutes(ByCreationReversed, olds);
    SortedKeeps(ByCreationReversed, olds);
    SanePermuted(olds, nf);
    PermutedLength(nf + ToSeq(newRS), olds + ToSeq(newRS));
    DistinctPermuted(olds + ToSeq(newRS), nf + ToSeq(newRS));
    TotalPermuted(Size, nf + ToSeq(newRS), olds + ToSeq(newRS));
  }

  lemma AllAfter(cfg: Config, newRS: Option<ReplicaSet>, olds: seq<ReplicaSet>, budget: nat)
    requires Listing(olds + ToSeq(newRS)) && Distributes(cfg, newRS, olds)
    ensures var all := CleanedOlds(cfg, newRS, Sorted(ByCreationReversed, olds), budget).list + ToSeq(newRS);
            NonNegative(all) && Total(Size, Active(all)) == Total(Size, all)
  {
    hide Sorted, Active, Total, CleanedOlds;
    var nf := Sorted(ByCreationReversed, olds);
    JoinedActive(olds, newRS);
    PermutedLength(nf + ToSeq(newRS), olds + ToSeq(newRS));
    CleanedFacts(cfg, newRS, nf, budget);
    ActiveTotal(CleanedOlds(cfg, newRS, nf, budget).list + ToSeq(newRS));
  }

  // ---- what the next sync starts from ----

  /** A distribution that succeeds leaves every set with pods counted for the Deployment's size and for
      what it may have with surge: the next one starts from even shares. */
  lemma SyncAnnotates(cfg: Config, newRS: Option<ReplicaSet>, olds: seq<ReplicaSet>, budget: nat)
    requires Listing(olds + ToSeq(newRS)) && Distributes(cfg, newRS, olds) && Scale(cfg, newRS, olds, budget).ok
    ensures forall x :: x in Scale(cfg, newRS, olds, budget).list && IsActive(x)
                        ==> x.desired == Some(cfg.replicas) && x.maxReplicas == Some(cfg.replicas + MaxSurge(cfg))
  {
    hide Sorted, Active, Total, CleanedOlds, Spread, MaxSurge;
    JoinedActive(olds, newRS);
    var c := CleanedOlds(cfg, newRS, Sorted(ByCreationReversed, olds), budget);
    SpreadAnnotates(cfg, c.list + ToSeq(newRS), c.budget);
  }

  lemma SpreadAnnotates(cfg: Config, all: seq<ReplicaSet>, budget: nat)
    requires Spread(cfg, all, budget).ok
    ensures forall x :: x in Spread(cfg, all, budget).list && IsActive(x)
                        ==> x.desired == Some(cfg.replicas) && x.maxReplicas == Some(cfg.replicas + MaxSurge(cfg))
  {
    hide Total, Sorted, Active, Arranged, Targets, WriteAll, MaxSurge, Ids;
    var toAdd := cfg.replicas - Total(Size, Active(all));
    var rss := Arranged(Active(all), toAdd);
    var targets := Targets(cfg, rss, toAdd);
    WriteAllFacts(cfg, rss, targets, budget);
    ListLength(cfg, rss, targets, budget);
    var list := WriteAll(cfg, rss, targets, budget).list;
    forall x | x in list ensures x.desired == Some(cfg.replicas) && x.maxReplicas == Some(cfg.replicas + MaxSurge(cfg)) {
      var i :| 0 <= i < |list| && list[i] == x;
    }
  }
}
