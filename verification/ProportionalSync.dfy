/** What a whole scaling sync leaves: the wanted total, no negative size, and no pending event. */
module ProportionalSync {
  import opened Base
  import opened Limits
  import opened ReplicaSets
  import opened Ordering
  import opened Scaling
  import opened ScalingFacts
  import opened UpgradeFacts
  import opened Proportional
  import opened ProportionalFacts
  import RolloutRuns

  /** What the first of the arranged sets is short of when it takes the leftover: the replicas
      that stay above the wanted total because no size goes below zero. */
  function Overshoot(cfg: Config, all: seq<ReplicaSet>): nat {
    var active := Active(all);
    var toAdd := cfg.replicas - Total(Size, active);
    var rss := Arranged(active, toAdd);
    if toAdd == 0 || rss == [] then 0 else Positive(-FirstTarget(cfg, rss, toAdd))
  }

  lemma ArrangedPermutes(active: seq<ReplicaSet>, toAdd: int)
    ensures var rss := Arranged(active, toAdd);
            && multiset(rss) == multiset(active) && |rss| == |active| && SameIds(active, rss)
            && Total(Size, rss) == Total(Size, active) && (forall x :: x in rss <==> x in active)
  {
    if toAdd != 0 {
      SortedKeeps(ScalingOrder(toAdd), active);
      SortedPermutes(ScalingOrder(toAdd), active);
    }
  }

  /** The set that takes the leftover is the largest one. */
  lemma FirstIsLargest(active: seq<ReplicaSet>, toAdd: int)
    requires Distinct(active) && active != [] && toAdd != 0
    ensures Arranged(active, toAdd) != []
    ensures forall x :: x in active ==> x.size <= Arranged(active, toAdd)[0].size
  {
    var rss := Arranged(active, toAdd);
    SortedPermutes(ScalingOrder(toAdd), active);
    SortedOrdered(ScalingOrder(toAdd), active);
    forall x | x in active ensures x.size <= rss[0].size {
      assert x in rss;
      var i :| 0 <= i < |rss| && rss[i] == x;
      if i > 0 {
        assert Less(ScalingOrder(toAdd), rss[0], rss[i]);
      }
    }
  }

  /** Among sets of one size the newer come first when growing and the older when shrinking. */
  lemma ArrangedTies(active: seq<ReplicaSet>, toAdd: int)
    requires Distinct(active) && toAdd != 0
    ensures var rss := Arranged(active, toAdd);
            forall i, j :: 0 <= i < j < |rss| ==>
              || rss[i].size > rss[j].size
              || (rss[i].size == rss[j].size
                  && if toAdd > 0 then CreatedBefore(rss[j], rss[i]) else CreatedBefore(rss[i], rss[j]))
  {
    var rss := Arranged(active, toAdd);
    SortedOrdered(ScalingOrder(toAdd), active);
    forall i, j | 0 <= i < j < |rss| ensures Less(ScalingOrder(toAdd), rss[i], rss[j]) {}
  }

  /** Conservation of one distribution, for any annotations: the total ends at the wanted one
      plus the overshoot. */
  lemma SpreadConserves(cfg: Config, all: seq<ReplicaSet>, budget: nat)
    requires NonNegative(all) && (Active(all) != [] || cfg.replicas == 0)
    ensures var r := Spread(cfg, all, budget);
            && SameIds(all, r.list)
            && (r.ok ==> Total(Size, r.list) == cfg.replicas + Overshoot(cfg, all))
  {
    hide Total, Sum, Ids, Sorted, Active, Inactive, Proportions, FirstTarget, Targets, WriteAll, Arranged,
         MaxSurge, Resized, NonNegative, GetProportion, NeedsWrite;
    var active := Active(all);
    var toAdd := cfg.replicas - Total(Size, active);
    var rss := Arranged(active, toAdd);
    var targets := Targets(cfg, rss, toAdd);
    var written := WriteAll(cfg, rss, targets, budget);
    ArrangedPermutes(active, toAdd);
    WriteAllFacts(cfg, rss, targets, budget);
    Rejoin(all, written.list);
    if rss == [] {
      EmptySums(active, targets);
    } else {
      TargetsTotal(cfg, rss, toAdd);
    }
  }

  lemma EmptySums(active: seq<ReplicaSet>, targets: seq<int>)
    ensures active == [] ==> Total(Size, active) == 0
    ensures targets == [] ==> Sum(targets) == 0
  {
  }

  /** With representable numbers growing and level distributions hit the wanted total exactly
      and no size is negative. */
  lemma SpreadIsExactUpwards(cfg: Config, all: seq<ReplicaSet>, budget: nat)
    requires NonNegative(all) && AllRepresentable(cfg, Active(all))
    ensures Total(Size, Active(all)) <= cfg.replicas ==> Overshoot(cfg, all) == 0
    ensures Spread(cfg, all, budget).ok ==> NonNegative(Spread(cfg, all, budget).list)
  {
    hide Total, Sum, Ids, Sorted, Active, Inactive, Proportions, FirstTarget, Targets, WriteAll, Arranged, MaxSurge;
    var active := Active(all);
    var toAdd := cfg.replicas - Total(Size, active);
    var rss := Arranged(active, toAdd);
    var targets := Targets(cfg, rss, toAdd);
    ArrangedPermutes(active, toAdd);
    TargetsNonNegative(cfg, rss, toAdd);
    WriteAllFacts(cfg, rss, targets, budget);
    var written := WriteAll(cfg, rss, targets, budget);
    if written.ok {
      forall x | x in written.list ensures x.size >= 0 {
        var i :| 0 <= i < |written.list| && written.list[i] == x;
        assert |Ids(written.list)| == |Ids(rss)|;
      }
    }
  }

  /** A deployment scaled to zero ends with every set at zero. */
  lemma SpreadToZero(cfg: Config, all: seq<ReplicaSet>, budget: nat)
    requires NonNegative(all) && cfg.replicas == 0
    ensures Overshoot(cfg, all) == 0
    ensures Spread(cfg, all, budget).ok ==> forall x :: x in Spread(cfg, all, budget).list ==> x.size == 0
  {
    hide Total, Sum, Ids, Sorted, Active, Inactive, Proportions, WriteAll, Arranged, MaxSurge;
    var active := Active(all);
    var toAdd := cfg.replicas - Total(Size, active);
    var rss := Arranged(active, toAdd);
    var targets := Targets(cfg, rss, toAdd);
    ArrangedPermutes(active, toAdd);
    WriteAllFacts(cfg, rss, targets, budget);
    ScaleToZeroProportions(cfg, rss, 0);
    var written := WriteAll(cfg, rss, targets, budget);
    if written.ok {
      forall x | x in written.list ensures x.size == 0 {
        var i :| 0 <= i < |written.list| && written.list[i] == x;
        assert |Ids(written.list)| == |Ids(rss)|;
        assert 0 <= i < |rss| && rss[i] in rss;
        if toAdd == 0 {
          ProportionsZero(cfg, rss, 0);
        }
      }
    }
  }

  // ---- the whole sync ----

  /** The new set has all the pods the deployment wants, available and counted for it. */
  predicate Complete(cfg: Config, newRS: Option<ReplicaSet>) {
    newRS.Some? && newRS.value.size == newRS.value.available == cfg.replicas && newRS.value.desired == Some(cfg.replicas)
  }

  /** Several active sets, and a new one that lacks something: the case that distributes. */
  ghost predicate Distributes(cfg: Config, newRS: Option<ReplicaSet>, olds: seq<ReplicaSet>) {
    |Active(olds + ToSeq(newRS))| > 1 && !Complete(cfg, newRS)
  }

  lemma JoinedActive(olds: seq<ReplicaSet>, newRS: Option<ReplicaSet>)
    ensures var nf := Sorted(ByCreationReversed, olds);
            && multiset(Active(nf + ToSeq(newRS))) == multiset(Active(olds + ToSeq(newRS)))
            && |Active(nf + ToSeq(newRS))| == |Active(olds + ToSeq(newRS))|
            && multiset(nf + ToSeq(newRS)) == multiset(olds + ToSeq(newRS))
            && Total(Size, Active(nf + ToSeq(newRS))) == Total(Size, Active(olds + ToSeq(newRS)))
  {
    hide Total, Sorted, Active;
    var nf := Sorted(ByCreationReversed, olds);
    SortedPermutes(ByCreationReversed, olds);
    ActivePermuted(nf + ToSeq(newRS), olds + ToSeq(newRS));
    PermutedLength(Active(nf + ToSeq(newRS)), Active(olds + ToSeq(newRS)));
    TotalPermuted(Size, Active(nf + ToSeq(newRS)), Active(olds + ToSeq(newRS)));
  }

  lemma {:induction false} ActivePermuted(a: seq<ReplicaSet>, b: seq<ReplicaSet>)
    requires multiset(a) == multiset(b)
    ensures multiset(Active(a)) == multiset(Active(b))
  {
    hide Active;
    PermutedLength(a, b);
    if a != [] {
      var i := PermutedTails(a, b);
      ActivePermuted(a[1..], RemoveAt(b, i));
      ActiveAppend(b[..i], b[i + 1..]);
      ActiveAppend(b[..i], b[i..]);
      assert b == b[..i] + b[i..] && b[i..][1..] == b[i + 1..];
      ActiveHead(a);
      ActiveHead(b[i..]);
    } else {
      assert b == a;
    }
  }

  /** Cleanup before the distribution removes exactly what it counts, so the amount left to
      distribute is the wanted total less what is there afterwards; and it never empties a
      deployment that wants pods. */
  lemma CleanedFacts(cfg: Config, newRS: Option<ReplicaSet>, olds: seq<ReplicaSet>, budget: nat)
    requires NonNegative(olds + ToSeq(newRS)) && Active(olds + ToSeq(newRS)) != []
    ensures var before, c := olds + ToSeq(newRS), CleanedOlds(cfg, newRS, olds, budget);
            var after := c.list + ToSeq(newRS);
            && SameIds(before, after) && NonNegative(after)
            && Total(Size, Active(after)) == Total(Size, Active(before)) - c.removed
            && 0 <= c.removed <= Positive(Total(Size, Active(before)) - cfg.replicas)
            && (Active(after) != [] || cfg.replicas == 0)
  {
    hide Total, Ids, Active, NonNegative, CleanedOlds;
    var before, c := olds + ToSeq(newRS), CleanedOlds(cfg, newRS, olds, budget);
    var after := c.list + ToSeq(newRS);
    NonNegativeParts(olds, ToSeq(newRS));
    NonNegativeParts(c.list, ToSeq(newRS));
    CleanedKeeps(cfg, newRS, olds, budget);
    IdsAppend(olds, ToSeq(newRS));
    IdsAppend(c.list, ToSeq(newRS));
    TotalAppend(Size, olds, ToSeq(newRS));
    TotalAppend(Size, c.list, ToSeq(newRS));
    ActiveTotal(before);
    ActiveTotal(after);
    TotalNonNegative(before);
    TotalNonNegative(after);
  }

  lemma CleanedKeeps(cfg: Config, newRS: Option<ReplicaSet>, olds: seq<ReplicaSet>, budget: nat)
    requires NonNegative(olds)
    ensures var c := CleanedOlds(cfg, newRS, olds, budget);
            && SameIds(olds, c.list) && NonNegative(c.list)
            && Total(Size, c.list) == Total(Size, olds) - c.removed
            && 0 <= c.removed <= Positive(Total(Size, Active(olds + ToSeq(newRS))) - cfg.replicas)
  {
    hide Total, Ids, Sorted, Cleanup, Active, NonNegative;
    CleanupKeeps(cfg, olds, Total(Size, Active(olds + ToSeq(newRS))) - cfg.replicas, budget);
  }

  lemma NonNegativeParts(a: seq<ReplicaSet>, b: seq<ReplicaSet>)
    ensures NonNegative(a + b) <==> NonNegative(a) && NonNegative(b)
  {
    assert forall x :: x in a + b <==> x in a || x in b;
    if NonNegative(a + b) {
      assert forall x :: x in a ==> x in a + b;
      assert forall x :: x in b ==> x in a + b;
    }
  }

  /** Conservation of a distributing sync: on success the total is the wanted one plus the
      overshoot of the largest set, so it is never below the wanted one, and equal exactly when
      that set can take what the others leave without going below zero. */
  lemma SyncConserves(cfg: Config, newRS: Option<ReplicaSet>, olds: seq<ReplicaSet>, budget: nat)
    requires Listing(olds + ToSeq(newRS)) && Distributes(cfg, newRS, olds)
    ensures var r := Scale(cfg, newRS, olds, budget);
            var all := CleanedOlds(cfg, newRS, Sorted(ByCreationReversed, olds), budget).list + ToSeq(newRS);
            && SameIds(olds + ToSeq(newRS), r.list)
            && (r.ok ==> && Total(Size, r.list) == cfg.replicas + Overshoot(cfg, all)
                         && (cfg.replicas == 0 ==> forall x :: x in r.list ==> x.size == 0)
                         && (AllRepresentable(cfg, Active(all)) ==>
                               && NonNegative(r.list)
                               && (Total(Size, olds + ToSeq(newRS)) <= cfg.replicas ==> Total(Size, r.list) == cfg.replicas)))
  {
    hide Total, Ids, Sorted, Active, Spread, Overshoot, CleanedOlds, AllRepresentable;
    var nf := Sorted(ByCreationReversed, olds);
    JoinedActive(olds, newRS);
    var before := nf + ToSeq(newRS);
    PermutedLength(before, olds + ToSeq(newRS));
    CleanedFacts(cfg, newRS, nf, budget);
    IdsPermuted(olds + ToSeq(newRS), before);
    var c := CleanedOlds(cfg, newRS, nf, budget);
    var all := c.list + ToSeq(newRS);
    assert Scale(cfg, newRS, olds, budget) == Proportionally(cfg, newRS, nf, budget);
    SpreadConserves(cfg, all, c.budget);
    if cfg.replicas == 0 {
      SpreadToZero(cfg, all, c.budget);
    }
    if AllRepresentable(cfg, Active(all)) {
      SpreadIsExactUpwards(cfg, all, c.budget);
      TotalPermuted(Size, before, olds + ToSeq(newRS));
      ActiveTotal(before);
    }
  }

  /** Whether a distribution over these sets ends above the wanted total: it shrinks them, and all
      but the largest keep more than that total when each takes its share. */
  ghost predicate Overfull(cfg: Config, all: seq<ReplicaSet>) {
    var active := Active(all);
    Total(Size, active) > cfg.replicas && Unabsorbed(cfg, Arranged(active, cfg.replicas - Total(Size, active))) > 0
  }

  lemma ArrangedShrinks(cfg: Config, active: seq<ReplicaSet>)
    requires AllRepresentable(cfg, active) && Total(Size, active) > cfg.replicas
    ensures var toAdd := cfg.replicas - Total(Size, active);
            var rss := Arranged(active, toAdd);
            && rss != [] && Positive(-FirstTarget(cfg, rss, toAdd)) == Unabsorbed(cfg, rss)
            && ((forall rs :: rs in active ==> GetReplicaSetFraction(cfg, rs) <= 0)
                ==> Unabsorbed(cfg, rss) == Positive(Total(Size, rss[1..]) + FractionSum(cfg, rss[1..]) - cfg.replicas))
  {
    hide Total, Sorted, FirstTarget, Arranged, Unabsorbed, MaxSurge, GetReplicaSetFraction;
    var rss := Arranged(active, cfg.replicas - Total(Size, active));
    ArrangedPermutes(active, cfg.replicas - Total(Size, active));
    EmptySums(active, []);
    RepresentableSizes(cfg, active);
    assert rss[0] in active;
    FractionIsShare(cfg, rss[0]);
    FirstTargetExactly(cfg, rss);
  }

  lemma OvershootExactly(cfg: Config, all: seq<ReplicaSet>)
    requires AllRepresentable(cfg, Active(all))
    ensures Overshoot(cfg, all) > 0 <==> Overfull(cfg, all)
    ensures Overfull(cfg, all) ==>
              Overshoot(cfg, all) == Unabsorbed(cfg, Arranged(Active(all), cfg.replicas - Total(Size, Active(all))))
  {
    hide Total, Sorted, Active, FirstTarget, Arranged, Unabsorbed, AllRepresentable;
    var active := Active(all);
    var toAdd := cfg.replicas - Total(Size, active);
    if toAdd < 0 {
      ArrangedShrinks(cfg, active);
    } else if Arranged(active, toAdd) != [] {
      ArrangedPermutes(active, toAdd);
      RepresentableKept(cfg, active, Arranged(active, toAdd));
      TargetsNonNegative(cfg, Arranged(active, toAdd), toAdd);
    }
  }

  lemma RepresentableKept(cfg: Config, a: seq<ReplicaSet>, b: seq<ReplicaSet>)
    requires AllRepresentable(cfg, a) && forall x :: x in b ==> x in a
    ensures AllRepresentable(cfg, b)
  {
  }

  /** When no fraction grows a set, as after a completed sync to a larger size, the condition is a
      sum: all sets but the largest, each with its share, are more than the wanted total. */
  lemma OverfullBySum(cfg: Config, all: seq<ReplicaSet>)
    requires AllRepresentable(cfg, Active(all)) && Total(Size, Active(all)) > cfg.replicas
    requires forall rs :: rs in Active(all) ==> GetReplicaSetFraction(cfg, rs) <= 0
    ensures Arranged(Active(all), cfg.replicas - Total(Size, Active(all))) != []
    ensures var rest := Arranged(Active(all), cfg.replicas - Total(Size, Active(all)))[1..];
            Overfull(cfg, all) <==> Total(Size, rest) + FractionSum(cfg, rest) > cfg.replicas
  {
    hide Total, Sorted, Active, Arranged, Unabsorbed, AllRepresentable, GetReplicaSetFraction;
    ArrangedShrinks(cfg, Active(all));
  }

  /** A distributing sync that succeeds ends at exactly the wanted total unless the sets left after
      the cleanup are overfull, and then above it. */
  lemma SyncExactly(cfg: Config, newRS: Option<ReplicaSet>, olds: seq<ReplicaSet>, budget: nat)
    requires Listing(olds + ToSeq(newRS)) && Distributes(cfg, newRS, olds) && Scale(cfg, newRS, olds, budget).ok
    requires AllRepresentable(cfg, Active(CleanedOlds(cfg, newRS, Sorted(ByCreationReversed, olds), budget).list + ToSeq(newRS)))
    ensures var all := CleanedOlds(cfg, newRS, Sorted(ByCreationReversed, olds), budget).list + ToSeq(newRS);
            && (Total(Size, Scale(cfg, newRS, olds, budget).list) == cfg.replicas <==> !Overfull(cfg, all))
            && Total(Size, Scale(cfg, newRS, olds, budget).list) >= cfg.replicas
  {
    hide Total, Sorted, Active, Scale, CleanedOlds, Overfull, Overshoot;
    SyncConserves(cfg, newRS, olds, budget);
    OvershootExactly(cfg, CleanedOlds(cfg, newRS, Sorted(ByCreationReversed, olds), budget).list + ToSeq(newRS));
  }

  lemma {:induction false} KeepingShares(cfg: Config, rss: seq<ReplicaSet>)
    requires forall rs :: rs in rss ==> rs.size == 1 && GetReplicaSetFraction(cfg, rs) == 0
    ensures Total(Size, rss) == |rss| && FractionSum(cfg, rss) == 0
  {
    hide GetReplicaSetFraction;
    if rss != [] {
      assert rss[0] in rss && forall x :: x in rss[1..] ==> x in rss;
      KeepingShares(cfg, rss[1..]);
    }
  }

  lemma HalfShare(cfg: Config, rs: ReplicaSet)
    requires cfg.replicas == 2 && MaxSurge(cfg) == 0 && rs.size == 1 && rs.maxReplicas == Some(4)
    ensures GetReplicaSetFraction(cfg, rs) == 0 && Representable(cfg, rs)
  {
    hide MaxSurge;
    assert RoundHalfAway(2, 4) == 1;
  }

  /** It does happen: four sets of one available pod each, all annotated alike and without surge,
      are scaled from 4 to 2 and end at 3. */
  lemma FourScaledToTwo() returns (cfg: Config, olds: seq<ReplicaSet>)
    ensures cfg.replicas == 2 && Total(Size, olds) == 4 && MaxSurge(cfg) == 0 && Sane(olds)
    ensures Listing(olds) && Distributes(cfg, None, olds)
    ensures AllRepresentable(cfg, olds) && EvenlyAnnotated(cfg, olds, 4)
    ensures Scale(cfg, None, olds, 4).ok && Total(Size, Scale(cfg, None, olds, 4).list) == 3
  {
    hide Sorted, Active, Total, Scale, GetReplicaSetFraction, Representable;
    cfg := Config(2, 0, Some(Int(0)), Some(Int(1)), Percent(100), 4, 0, {});
    olds := [ReplicaSet("a", 1, 1, 1, Number(1), 1, 1, Some(4), Some(4)),
             ReplicaSet("b", 2, 2, 2, Number(2), 1, 1, Some(4), Some(4)),
             ReplicaSet("c", 3, 3, 3, Number(3), 1, 1, Some(4), Some(4)),
             ReplicaSet("d", 4, 4, 4, Number(4), 1, 1, Some(4), Some(4))];
    assert olds + ToSeq(None) == olds;
    assert Distinct(olds) && |olds| == 4;
    assert forall rs :: rs in olds ==> rs.size == 1 && rs.available == 1 && rs.maxReplicas == Some(4);
    forall rs | rs in olds ensures GetReplicaSetFraction(cfg, rs) == 0 && Representable(cfg, rs) {
      HalfShare(cfg, rs);
    }
    assert Ones(cfg, olds);
    OnesTotal(cfg, olds);
    OnesOvershoot(cfg, olds);
  }

  /** Available sets of one pod that keep it. */
  ghost predicate Ones(cfg: Config, rss: seq<ReplicaSet>) {
    forall rs :: rs in rss ==> rs.size == 1 && rs.available == 1 && GetReplicaSetFraction(cfg, rs) == 0 && Representable(cfg, rs)
  }

  lemma OnesTotal(cfg: Config, rss: seq<ReplicaSet>)
    requires Ones(cfg, rss)
    ensures Active(rss) == rss && Total(Size, rss) == |rss| && FractionSum(cfg, rss) == 0 && AllRepresentable(cfg, rss)
  {
    KeepingShares(cfg, rss);
    AllActive(rss);
  }

  lemma OnesFractions(cfg: Config, rss: seq<ReplicaSet>)
    requires Ones(cfg, rss)
    ensures forall rs :: rs in rss ==> GetReplicaSetFraction(cfg, rs) <= 0
  {
  }

  lemma OnesRest(cfg: Config, s: seq<ReplicaSet>, rss: seq<ReplicaSet>)
    requires Ones(cfg, s) && rss != [] && forall x :: x in rss <==> x in s
    ensures Total(Size, rss[1..]) == |rss| - 1 && FractionSum(cfg, rss[1..]) == 0
  {
    hide GetReplicaSetFraction, Representable;
    assert forall x :: x in rss[1..] ==> x in rss;
    OnesTotal(cfg, rss[1..]);
  }

  lemma OnesSpread(cfg: Config, s: seq<ReplicaSet>)
    requires Ones(cfg, s) && |s| > cfg.replicas + 1
    ensures Overshoot(cfg, s) == |s| - 1 - cfg.replicas
  {
    hide Ones, Active, Total, FractionSum, Arranged, FirstTarget, Unabsorbed, AllRepresentable, GetReplicaSetFraction;
    OnesTotal(cfg, s);
    OnesFractions(cfg, s);
    var rss := Arranged(s, cfg.replicas - Total(Size, s));
    ArrangedPermutes(s, cfg.replicas - Total(Size, s));
    OnesRest(cfg, s, rss);
    ArrangedShrinks(cfg, s);
  }

  /** With all pods there a sync of several active sets is a distribution over them. */
  lemma OnesScale(cfg: Config, olds: seq<ReplicaSet>)
    requires Ones(cfg, olds) && |olds| > 1 && |olds| > cfg.replicas
    ensures var nf := Sorted(ByCreationReversed, olds);
            var s := Sorted(ByCreation, nf);
            && Ones(cfg, s) && |s| == |olds|
            && CleanedOlds(cfg, None, nf, |olds|) == Pass(s, 0, |olds|, true)
            && Scale(cfg, None, olds, |olds|) == Spread(cfg, s, |olds|)
            && Active(olds + ToSeq(None)) == olds
  {
    hide Sorted, Active, Total, Cleanup, GetReplicaSetFraction, Representable, Spread, AllRepresentable, MaxSurge, FractionSum;
    var nf := Sorted(ByCreationReversed, olds);
    var s := Sorted(ByCreation, nf);
    SortedPermutes(ByCreationReversed, olds);
    SortedPermutes(ByCreation, nf);
    assert olds + ToSeq(None) == olds && nf + ToSeq(None) == nf && s + ToSeq(None) == s;
    OnesTotal(cfg, olds);
    OnesTotal(cfg, nf);
    RolloutRuns.CleanupIdle(cfg, s, |olds| - cfg.replicas, |olds|);
  }

  lemma OnesOvershoot(cfg: Config, olds: seq<ReplicaSet>)
    requires Ones(cfg, olds) && Distinct(olds) && |olds| > cfg.replicas + 1 && |olds| > 1
    ensures Scale(cfg, None, olds, |olds|).ok && Total(Size, Scale(cfg, None, olds, |olds|).list) == |olds| - 1
  {
    hide Sorted, Active, Total, Scale, CleanedOlds, Overshoot, Spread, AllRepresentable, Ones;
    var s := Sorted(ByCreation, Sorted(ByCreationReversed, olds));
    assert olds + ToSeq(None) == olds && s + ToSeq(None) == s;
    OnesScale(cfg, olds);
    OnesTotal(cfg, s);
    OnesListed(cfg, olds);
    OnesSpread(cfg, s);
    SyncConserves(cfg, None, olds, |olds|);
    SpreadOk(cfg, s, |olds|);
  }

  lemma OnesListed(cfg: Config, olds: seq<ReplicaSet>)
    requires Ones(cfg, olds)
    ensures NonNegative(olds)
  {
  }

  lemma SpreadOk(cfg: Config, all: seq<ReplicaSet>, budget: nat)
    requires budget >= |Active(all)|
    ensures Spread(cfg, all, budget).ok
  {
    hide Active, Arranged, WriteAll, Targets;
    var active := Active(all);
    var toAdd := cfg.replicas - Total(Size, active);
    ArrangedPermutes(active, toAdd);
    WriteAllFacts(cfg, Arranged(active, toAdd), Targets(cfg, Arranged(active, toAdd), toAdd), budget);
  }

  // ---- settling ----

  lemma {:induction false} ZeroAllFacts(cfg: Config, rss: seq<ReplicaSet>, budget: nat)
    ensures var p := ZeroAll(cfg, rss, budget);
            Ids(p.list) == Ids(rss) && (p.ok ==> forall x :: x in p.list ==> x.size == 0)
  {
    hide Ids;
    if rss != [] {
      var b := if rss[0].size == 0 then budget else budget - 1;
      if b >= 0 {
        var rest, p := ZeroAll(cfg, rss[1..], b), ZeroAll(cfg, rss, budget);
        ZeroAllFacts(cfg, rss[1..], b);
        assert p.list == [p.list[0]] + rest.list;
        assert |Ids(rest.list)| == |Ids(rss[1..])|;
        forall i | 0 <= i < |rss| ensures Id(p.list[i]) == Id(rss[i]) {
          if i > 0 {
            assert Ids(rest.list)[i - 1] == Ids(rss[1..])[i - 1];
          }
        }
        assert Ids(p.list) == Ids(rss);
      }
    }
  }

  lemma SpreadSettles(cfg: Config, all: seq<ReplicaSet>, budget: nat)
    requires Spread(cfg, all, budget).ok
    ensures !IsScalingEvent(cfg, Spread(cfg, all, budget).list)
  {
    hide Total, Sum, Ids, Sorted, Active, Proportions, FirstTarget, Targets, WriteAll, Arranged, MaxSurge;
    var active := Active(all);
    var toAdd := cfg.replicas - Total(Size, active);
    var rss := Arranged(active, toAdd);
    var targets := Targets(cfg, rss, toAdd);
    WriteAllFacts(cfg, rss, targets, budget);
    var written := WriteAll(cfg, rss, targets, budget);
    forall x | x in written.list ensures x.desired == Some(cfg.replicas) {
      var i :| 0 <= i < |written.list| && written.list[i] == x;
      assert |Ids(written.list)| == |Ids(rss)|;
    }
  }

  /** The only active set already has the wanted size but still carries another count. */
  ghost predicate StuckSingle(cfg: Config, all: seq<ReplicaSet>) {
    var active := Active(all);
    |active| == 1 && active[0].size == cfg.replicas && active[0].desired.Some? && active[0].desired.value != cfg.replicas
  }

  lemma SingleSettles(cfg: Config, newRS: Option<ReplicaSet>, olds: seq<ReplicaSet>, budget: nat)
    requires Scale(cfg, newRS, olds, budget).ok && |Active(Sorted(ByCreationReversed, olds) + ToSeq(newRS))| <= 1
    ensures IsScalingEvent(cfg, Scale(cfg, newRS, olds, budget).list)
            <==> StuckSingle(cfg, Sorted(ByCreationReversed, olds) + ToSeq(newRS))
  {
    hide Sorted, Spread, CleanedOlds, ZeroAll, MaxSurge, Total, Active, Without;
    var all := Sorted(ByCreationReversed, olds) + ToSeq(newRS);
    var active := Active(all);
    var single := FindActiveOrLatest(newRS, olds);
    if single.Some? {
      var rest := Without(single.value.uid, all);
      if |active| == 1 {
        assert active[0] in active;
      }
      assert forall x :: x in all && IsActive(x) ==> x in active;
      assert forall x :: x in rest ==> !IsActive(x);
      assert single.value in all;
      assert |active| == 0 ==> !IsActive(single.value);
    } else {
      var c := CleanedOlds(cfg, newRS, Sorted(ByCreationReversed, olds), budget);
      SpreadSettles(cfg, c.list + ToSeq(newRS), c.budget);
    }
  }

  lemma SaturatedSettles(cfg: Config, newRS: Option<ReplicaSet>, nf: seq<ReplicaSet>, budget: nat)
    requires IsSaturated(cfg, newRS) && ZeroAll(cfg, Active(nf), budget).ok
    ensures !IsScalingEvent(cfg, Inactive(nf) + ZeroAll(cfg, Active(nf), budget).list + ToSeq(newRS))
  {
    hide ZeroAll, Active;
    ZeroAllFacts(cfg, Active(nf), budget);
  }

  /** A sync that succeeds leaves no scaling event, with exactly one exception: a single active
      set of the right size and a stale annotation is not written, so the event stays for ever. */
  lemma SyncSettles(cfg: Config, newRS: Option<ReplicaSet>, olds: seq<ReplicaSet>, budget: nat)
    requires Listing(olds + ToSeq(newRS)) && Scale(cfg, newRS, olds, budget).ok
    ensures IsScalingEvent(cfg, Scale(cfg, newRS, olds, budget).list) <==> StuckSingle(cfg, olds + ToSeq(newRS))
  {
    hide Total, Ids, Sorted, Spread, CleanedOlds, ZeroAll, Active, Inactive, IsScalingEvent;
    var nf := Sorted(ByCreationReversed, olds);
    JoinedActive(olds, newRS);
    var active := Active(nf + ToSeq(newRS));
    SameSingle(active, Active(olds + ToSeq(newRS)));
    if |active| <= 1 {
      SingleSettles(cfg, newRS, olds, budget);
    } else if IsSaturated(cfg, newRS) {
      SaturatedSettles(cfg, newRS, nf, budget);
    } else {
      var c := CleanedOlds(cfg, newRS, nf, budget);
      SpreadSettles(cfg, c.list + ToSeq(newRS), c.budget);
    }
  }

  /** In that case the sync succeeds without writing, so the next reconcile finds the same sets and
      the same event again. */
  lemma StuckSingleStays(cfg: Config, newRS: Option<ReplicaSet>, olds: seq<ReplicaSet>, budget: nat)
    requires Listing(olds + ToSeq(newRS)) && StuckSingle(cfg, olds + ToSeq(newRS))
    ensures var r := Scale(cfg, newRS, olds, budget);
            && r.ok && multiset(r.list) == multiset(olds + ToSeq(newRS))
            && IsScalingEvent(cfg, r.list)
  {
    hide Total, Ids, Sorted, Spread, CleanedOlds, ZeroAll, Proportionally;
    var nf := Sorted(ByCreationReversed, olds);
    JoinedActive(olds, newRS);
    var all := nf + ToSeq(newRS);
    SameSingle(Active(all), Active(olds + ToSeq(newRS)));
    var x := Active(all)[0];
    assert x in Active(all) && x in all;
    PermutedLength(all, olds + ToSeq(newRS));
    DistinctPermuted(olds + ToSeq(newRS), all);
    WithoutSplits(x, all);
    SyncSettles(cfg, newRS, olds, budget);
  }

  // ---- the total after any sync ----

  lemma {:induction false} ZeroTotal(rss: seq<ReplicaSet>)
    requires forall x :: x in rss ==> x.size == 0
    ensures Total(Size, rss) == 0
  {
    if rss != [] {
      ZeroTotal(rss[1..]);
    }
  }

  /** With no active set the sync is about the new set, or else about the newest of all. */
  lemma LatestIsNewest(newRS: Option<ReplicaSet>, olds: seq<ReplicaSet>)
    requires Distinct(olds) && Active(olds + ToSeq(newRS)) == []
    ensures newRS.Some? ==> FindActiveOrLatest(newRS, olds) == newRS
    ensures newRS.None? && olds != [] ==>
              var r := FindActiveOrLatest(newRS, olds);
              r.Some? && r.value in olds && forall y :: y in olds ==> y == r.value || CreatedBefore(y, r.value)
  {
    hide Sorted, Active;
    var nf := Sorted(ByCreationReversed, olds);
    JoinedActive(olds, newRS);
    SortedPermutes(ByCreationReversed, olds);
    SortedOrdered(ByCreationReversed, olds);
    if newRS.None? && olds != [] {
      forall y | y in olds ensures y == nf[0] || CreatedBefore(y, nf[0]) {
        assert y in nf;
        var i :| 0 <= i < |nf| && nf[i] == y;
        if i > 0 {
          assert Less(ByCreationReversed, nf[0], nf[i]);
        }
      }
    }
  }

  /** All sets but the one that is scaled are empty when at most one is active. */
  lemma OthersEmpty(all: seq<ReplicaSet>, x: ReplicaSet)
    requires NonNegative(all) && |Active(all)| <= 1 && x in all
    requires |Active(all)| == 1 ==> x == Active(all)[0]
    ensures Total(Size, Without(x.uid, all)) == 0
  {
    hide Active, Without, Total;
    forall y | y in Without(x.uid, all) ensures y.size == 0 {
      assert IsActive(y) <==> y in Active(all);
    }
    ZeroTotal(Without(x.uid, all));
  }

  lemma SingleTotal(cfg: Config, newRS: Option<ReplicaSet>, olds: seq<ReplicaSet>, budget: nat)
    requires Listing(olds + ToSeq(newRS)) && olds + ToSeq(newRS) != [] && |Active(olds + ToSeq(newRS))| <= 1
    requires Scale(cfg, newRS, olds, budget).ok
    ensures Total(Size, Scale(cfg, newRS, olds, budget).list) == cfg.replicas
  {
    hide Total, Sorted, Active, Without, Proportionally, ZeroAll, MaxSurge;
    var nf := Sorted(ByCreationReversed, olds);
    var all := nf + ToSeq(newRS);
    JoinedActive(olds, newRS);
    PermutedLength(all, olds + ToSeq(newRS));
    SortedPermutes(ByCreationReversed, olds);
    var x := FindActiveOrLatest(newRS, olds).value;
    assert |Active(all)| == 1 ==> Active(all)[0] in Active(all);
    assert x in all;
    OthersEmpty(all, x);
    var rest := Without(x.uid, all);
    TotalAppend(Size, rest, [x]);
    TotalAppend(Size, rest, [Resized(cfg, x, cfg.replicas)]);
    TotalOfOne(x);
    TotalOfOne(Resized(cfg, x, cfg.replicas));
  }

  lemma SaturatedTotal(cfg: Config, newRS: Option<ReplicaSet>, nf: seq<ReplicaSet>, budget: nat)
    requires IsSaturated(cfg, newRS) && NonNegative(nf) && ZeroAll(cfg, Active(nf), budget).ok
    ensures Total(Size, Inactive(nf) + ZeroAll(cfg, Active(nf), budget).list + ToSeq(newRS)) == cfg.replicas
  {
    hide Total, ZeroAll, Active, Inactive;
    var zeroed := ZeroAll(cfg, Active(nf), budget).list;
    ZeroAllFacts(cfg, Active(nf), budget);
    ActiveTotal(nf);
    ZeroTotal(zeroed);
    TotalAppend(Size, Inactive(nf), zeroed);
    TotalAppend(Size, Inactive(nf) + zeroed, ToSeq(newRS));
    TotalOfOne(newRS.value);
  }

  /** Every successful sync ends with exactly the wanted total, in all three of its branches; only
      a distribution whose largest set cannot absorb the leftover ends above it. */
  lemma SyncTotal(cfg: Config, newRS: Option<ReplicaSet>, olds: seq<ReplicaSet>, budget: nat)
    requires Listing(olds + ToSeq(newRS)) && olds + ToSeq(newRS) != [] && Scale(cfg, newRS, olds, budget).ok
    ensures var all := CleanedOlds(cfg, newRS, Sorted(ByCreationReversed, olds), budget).list + ToSeq(newRS);
            Total(Size, Scale(cfg, newRS, olds, budget).list)
            == cfg.replicas + (if Distributes(cfg, newRS, olds) then Overshoot(cfg, all) else 0)
  {
    hide Total, Sorted, Active, Inactive, ZeroAll, Overshoot, CleanedOlds, Proportionally;
    if |Active(olds + ToSeq(newRS))| <= 1 {
      SingleTotal(cfg, newRS, olds, budget);
    } else if IsSaturated(cfg, newRS) {
      var nf := Sorted(ByCreationReversed, olds);
      JoinedActive(olds, newRS);
      SortedPermutes(ByCreationReversed, olds);
      NonNegativeParts(olds, ToSeq(newRS));
      SaturatedTotal(cfg, newRS, nf, budget);
    } else {
      SyncConserves(cfg, newRS, olds, budget);
    }
  }

  // ---- a sync does not know the batch ----

  lemma SpreadGrows(cfg: Config, all: seq<ReplicaSet>, budget: nat, i: nat)
    requires Total(Size, Active(all)) < cfg.replicas && Spread(cfg, all, budget).ok
    requires forall rs :: rs in Active(all) ==> GetReplicaSetFraction(cfg, rs) >= 0
    requires i < |Arranged(Active(all), cfg.replicas - Total(Size, Active(all)))|
    ensures var rss := Arranged(Active(all), cfg.replicas - Total(Size, Active(all)));
            Resized(cfg, rss[i], GrownSize(cfg, rss, i)) in Spread(cfg, all, budget).list
  {
    hide Total, Sorted, Active, Arranged, Targets, WriteAll, GrownSize, GetReplicaSetFraction, Ids;
    var active := Active(all);
    var toAdd := cfg.replicas - Total(Size, active);
    var rss := Arranged(active, toAdd);
    ArrangedPermutes(active, toAdd);
    GrownTarget(cfg, rss, i);
    var targets := Targets(cfg, rss, toAdd);
    WriteAllFacts(cfg, rss, targets, budget);
    var list := WriteAll(cfg, rss, targets, budget).list;
    assert |Ids(list)| == |Ids(rss)|;
    assert list[i] in list;
  }

  /** Growing a deployment of which no set's annotation is above its new size gives the new set its
      share, whatever its batch asks for: it ends above the batch exactly when that share is. */
  lemma SyncGrowsNewSet(cfg: Config, newRS: ReplicaSet, olds: seq<ReplicaSet>, budget: nat) returns (i: nat, rss: seq<ReplicaSet>)
    requires Listing(olds + [newRS]) && Distributes(cfg, Some(newRS), olds) && IsActive(newRS)
    requires Total(Size, Active(olds + [newRS])) < cfg.replicas && Scale(cfg, Some(newRS), olds, budget).ok
    requires forall rs :: rs in Active(olds + [newRS]) ==> GetReplicaSetFraction(cfg, rs) >= 0
    ensures i < |rss| && rss[i] == newRS && multiset(rss) == multiset(Active(olds + [newRS]))
    ensures rss == Arranged(Active(Sorted(ByCreationReversed, olds) + [newRS]), cfg.replicas - Total(Size, Active(olds + [newRS])))
    ensures Resized(cfg, newRS, GrownSize(cfg, rss, i)) in Scale(cfg, Some(newRS), olds, budget).list
  {
    hide Total, Sorted, Active, Arranged, GrownSize, GetReplicaSetFraction, Spread, Cleanup;
    var nf := Sorted(ByCreationReversed, olds);
    JoinedActive(olds, Some(newRS));
    assert nf + ToSeq(Some(newRS)) == nf + [newRS] && olds + ToSeq(Some(newRS)) == olds + [newRS];
    var all := nf + [newRS];
    PermutedLength(Active(all), Active(olds + [newRS]));
    rss := Arranged(Active(all), cfg.replicas - Total(Size, Active(all)));
    ArrangedPermutes(Active(all), cfg.replicas - Total(Size, Active(all)));
    assert newRS in all && newRS in rss;
    i :| 0 <= i < |rss| && rss[i] == newRS;
    SpreadGrows(cfg, all, budget, i);
  }

  lemma GrowingSucceeds(cfg: Config, newRS: ReplicaSet, olds: seq<ReplicaSet>, budget: nat)
    requires Distributes(cfg, Some(newRS), olds) && Total(Size, Active(olds + [newRS])) < cfg.replicas
    requires budget >= |olds| + 1
    ensures Scale(cfg, Some(newRS), olds, budget).ok
  {
    hide Total, Sorted, Active, Spread, Cleanup;
    var nf := Sorted(ByCreationReversed, olds);
    JoinedActive(olds, Some(newRS));
    SortedPermutes(ByCreationReversed, olds);
    assert nf + ToSeq(Some(newRS)) == nf + [newRS] && olds + ToSeq(Some(newRS)) == olds + [newRS];
    ActiveFits(nf + [newRS]);
    SpreadOk(cfg, nf + [newRS], budget);
  }

  lemma ActiveFits(rss: seq<ReplicaSet>)
    ensures |Active(rss)| <= |rss|
  {
  }

  lemma DoubledShare(cfg: Config, rs: ReplicaSet)
    requires cfg.replicas == 20 && MaxSurge(cfg) == 0 && rs.maxReplicas == Some(10) && 0 < rs.size <= 10
    ensures GetReplicaSetFraction(cfg, rs) == rs.size
  {
    hide MaxSurge, GetReplicaSetFraction;
    FractionIsShare(cfg, rs);
    RoundedQuotient(rs.size * 20, 10);
  }

  /** It does happen: a batch of two pods, of ten in all, has four after the deployment is scaled
      to twenty. */
  lemma SyncPassesBatch() returns (cfg: Config, newRS: ReplicaSet, olds: seq<ReplicaSet>)
    ensures Listing(olds + [newRS]) && Sane(olds + [newRS]) && ValidStrategy(cfg) && newRS.template == cfg.template
    ensures newRS.size == BatchLimit(cfg) == 2 && Scale(cfg, Some(newRS), olds, 2).ok
    ensures Resized(cfg, newRS, 4) in Scale(cfg, Some(newRS), olds, 2).list
  {
    hide Sorted, Scale, Active, Arranged, GrownSize;
    cfg := Config(20, 0, Some(Int(0)), Some(Int(1)), Int(2), 10, 0, {});
    newRS := ReplicaSet("new", 9, 9, 0, Number(9), 2, 2, Some(10), Some(10));
    var oldRS := ReplicaSet("a", 1, 1, 1, Number(1), 8, 8, Some(10), Some(10));
    olds := [oldRS];
    TwoToFour(cfg, newRS, oldRS);
  }

  lemma TwoToFour(cfg: Config, newRS: ReplicaSet, oldRS: ReplicaSet)
    requires cfg.replicas == 20 && MaxSurge(cfg) == 0 && Distinct([oldRS] + [newRS])
    requires newRS.size == 2 && oldRS.size == 8 && newRS.maxReplicas == Some(10) == oldRS.maxReplicas
    ensures Scale(cfg, Some(newRS), [oldRS], 2).ok && Resized(cfg, newRS, 4) in Scale(cfg, Some(newRS), [oldRS], 2).list
  {
    hide Sorted, Scale, Active, Arranged, GrownSize, Total, GetReplicaSetFraction, MaxSurge;
    var both := [oldRS] + [newRS];
    assert [oldRS] + ToSeq(Some(newRS)) == both;
    AllActive(both);
    TotalAppend(Size, [oldRS], [newRS]);
    TotalOfOne(oldRS);
    TotalOfOne(newRS);
    DoubledShare(cfg, oldRS);
    DoubledShare(cfg, newRS);
    GrowingSucceeds(cfg, newRS, [oldRS], 2);
    var i, rss := SyncGrowsNewSet(cfg, newRS, [oldRS], 2);
    PermutedLength(rss, both);
    LargerFirst(cfg, rss, both, newRS, oldRS);
    TotalPermuted(Size, rss, both);
    GrownSecond(cfg, rss);
  }

  lemma LargerFirst(cfg: Config, rss: seq<ReplicaSet>, both: seq<ReplicaSet>, newRS: ReplicaSet, oldRS: ReplicaSet)
    requires both == [oldRS] + [newRS] && Distinct(both) && newRS.size < oldRS.size && Total(Size, both) == 10 && cfg.replicas == 20
    requires rss == Arranged(Active(Sorted(ByCreationReversed, [oldRS]) + [newRS]), 10) && multiset(rss) == multiset(both)
    requires IsActive(newRS) && IsActive(oldRS)
    ensures rss == [oldRS, newRS]
  {
    hide Sorted, Active, Arranged, Total;
    SortedPermutes(ByCreationReversed, [oldRS]);
    assert Sorted(ByCreationReversed, [oldRS])[0] in [oldRS];
    assert Sorted(ByCreationReversed, [oldRS]) + [newRS] == both;
    AllActive(both);
    FirstIsLargest(both, 10);
    PermutedLength(rss, both);
    DistinctPermuted(both, rss);
    assert oldRS in both && rss[0] in both && rss[1] in both && rss[0].name != rss[1].name;
  }

  lemma GrownSecond(cfg: Config, rss: seq<ReplicaSet>)
    requires |rss| == 2 && cfg.replicas == 20 && Total(Size, rss) == 10 && rss[1].size == 2
    requires GetReplicaSetFraction(cfg, rss[0]) == 8 && GetReplicaSetFraction(cfg, rss[1]) == 2
    ensures GrownSize(cfg, rss, 1) == 4
  {
    hide GetReplicaSetFraction, Total;
    var front := rss[..1];
    assert front[1..] == [] && front[0] == rss[0];
    assert FractionSum(cfg, front) == GetReplicaSetFraction(cfg, front[0]) + FractionSum(cfg, front[1..]);
  }

  // ---- batches and syncs do not chase each other ----

  /** Every set of the list is one of `base`, or carries the current replica count. */
  ghost predicate Marked(cfg: Config, base: seq<ReplicaSet>, list: seq<ReplicaSet>) {
    forall x :: x in list ==> x in base || x.desired == Some(cfg.replicas)
  }

  lemma {:induction false} CleanupMarks(cfg: Config, rss: seq<ReplicaSet>, most: int, budget: nat)
    ensures Marked(cfg, rss, Cleanup(cfg, rss, most, budget).list)
  {
    hide MaxSurge;
    if rss != [] {
      var count := Min(most, rss[0].size - rss[0].available);
      CleanupMarks(cfg, rss[1..], most, budget);
      if budget > 0 {
        CleanupMarks(cfg, rss[1..], most - count, budget - 1);
      }
      assert forall x :: x in rss[1..] ==> x in rss;
    }
  }

  lemma {:induction false} DrainMarks(cfg: Config, rss: seq<ReplicaSet>, most: int, budget: nat)
    ensures Marked(cfg, rss, Drain(cfg, rss, most, budget).list)
  {
    hide MaxSurge;
    if rss != [] {
      DrainMarks(cfg, rss[1..], most, budget);
      if budget > 0 {
        DrainMarks(cfg, rss[1..], most - Min(rss[0].size, most), budget - 1);
      }
      assert forall x :: x in rss[1..] ==> x in rss;
    }
  }

  lemma OldsMarked(cfg: Config, newRS: ReplicaSet, olds: seq<ReplicaSet>, allPods: int, budget: nat)
    ensures Marked(cfg, olds, ReconcileOld(cfg, newRS, olds, allPods, budget).list)
  {
    hide Sorted, Cleanup, Drain, Total, MaxSurge, MaxUnavailable, ScaleDownLimitForOld;
    SortedPermutes(ByCreation, olds);
    SortedPermutes(BySizeOlder, olds);
    var most := MaxScaledDown(cfg, newRS, Total(Size, olds), allPods);
    var c := Cleanup(cfg, Sorted(ByCreation, olds), most, budget);
    CleanupMarks(cfg, Sorted(ByCreation, olds), most, budget);
    var spare := Total(Available, c.list) + newRS.available - (cfg.replicas - MaxUnavailable(cfg));
    SortedPermutes(DrainOrder(cfg, c.list), c.list);
    DrainMarks(cfg, Sorted(DrainOrder(cfg, c.list), c.list),
               Min(spare, ScaleDownLimitForOld(cfg, Total(Size, c.list), newRS.size)), c.budget);
  }

  /** A batch step never raises a scaling event: without one before it there is none after it, so
      a sync is only ever caused by a change of the deployment's replicas. */
  lemma UpgradeRaisesNoEvent(cfg: Config, rss: seq<ReplicaSet>, id: Identity, budget: nat)
    requires Distinct(rss) && !IsScalingEvent(cfg, rss)
    ensures !IsScalingEvent(cfg, Upgrade(cfg, rss, id, budget).list)
  {
    hide Sorted, Total, NewOf, OldsOf, Active, Inactive, ReconcileOld, MaxSurge, NewTarget, NewRSNewReplicas,
         IsScalingEvent;
    OldsAreTheRest(cfg.template, rss);
    var found, olds := NewOf(cfg.template, rss), OldsOf(cfg.template, rss);
    var newRS := if found.Some? then found.value else Created(cfg, olds, id);
    assert found.Some? ==> newRS in multiset(rss);
    var b := if found.Some? || budget == 0 then budget else budget - 1;
    OldsMarked(cfg, newRS, Active(olds), Total(Size, olds) + newRS.size, b);
    var list := Upgrade(cfg, rss, id, budget).list;
    assert Marked(cfg, rss, list);
    MarkedNoEvent(cfg, rss, list);
  }

  lemma MarkedNoEvent(cfg: Config, base: seq<ReplicaSet>, list: seq<ReplicaSet>)
    requires Marked(cfg, base, list) && !IsScalingEvent(cfg, base)
    ensures !IsScalingEvent(cfg, list)
  {
  }

  lemma SameSingle(a: seq<ReplicaSet>, b: seq<ReplicaSet>)
    requires multiset(a) == multiset(b)
    ensures |a| == |b| && (|a| == 1 ==> a == b)
  {
    PermutedLength(a, b);
    if |a| == 1 {
      assert a[0] in b;
    }
  }
}
