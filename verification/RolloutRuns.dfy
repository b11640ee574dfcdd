/**
  Theorems about one Upgrade reconcile and about whole runs of them. Between two reconciles the
  pods come and go as they like and the API server lists the sets in any order; any replica-set
  write may fail. The deployment, the strategy and the step stay the same over a run.
 */
module RolloutRuns {
  import opened Base
  import opened Limits
  import opened ReplicaSets
  import opened Ordering
  import opened Scaling
  import opened ScalingFacts
  import opened UpgradeFacts

  ghost predicate Unused(id: Identity, rss: seq<ReplicaSet>) {
    forall rs :: rs in rss ==> rs.name != id.name && rs.uid != id.uid
  }

  // ---- one reconcile, at the level of listings ----

  lemma SplitListing(t: Template, rss: seq<ReplicaSet>, olds: seq<ReplicaSet>, x: ReplicaSet)
    requires Distinct(rss) && NewOf(t, rss) == Some(x) && multiset(rss) == multiset(olds + [x])
    ensures NewSize(t, rss) == x.size && OldTotal(t, rss) == Total(Size, olds)
  {
    OldsAreTheRest(t, rss);
    assert multiset(olds) == multiset(rss) - multiset{x};
    assert multiset(OldsOf(t, rss)) == multiset(rss) - multiset{x};
    TotalPermuted(Size, olds, OldsOf(t, rss));
  }

  /** From any split into old sets and a new one: the next listing splits the same way. */
  lemma FoundListing(cfg: Config, rss: seq<ReplicaSet>, newRS: ReplicaSet, olds: seq<ReplicaSet>, budget: nat)
    requires Listing(rss) && NewOf(cfg.template, rss) == Some(newRS) && multiset(rss) == multiset(olds + [newRS])
    ensures var l := UpgradeFound(cfg, newRS, olds, budget).list;
            && Listing(l) && SameIds(rss, l) && l != [] && NewOf(cfg.template, l) == Some(l[|l| - 1])
            && SizesStep(cfg, newRS.size, Total(Size, olds), NewSize(cfg.template, l), OldTotal(cfg.template, l))
            && (NewSize(cfg.template, l) == newRS.size && OldTotal(cfg.template, l) == Total(Size, olds)
                ==> multiset(l) == multiset(rss))
  {
    hide Total, Sorted, Ids, UpgradeFound, SizesStep, OldsOf;
    PermutedLength(rss, olds + [newRS]);
    var list, after := FoundSizes(cfg, newRS, olds, budget);
    var l := list + [after];
    JoinIds(olds, list, newRS, after);
    IdsPermuted(rss, olds + [newRS]);
    DistinctByIds(rss, l);
    assert after in l;
    NewOfSameIds(cfg.template, rss, l, after);
    SplitListing(cfg.template, l, list, after);
  }

  lemma CreatedListing(cfg: Config, rss: seq<ReplicaSet>, id: Identity)
    requires Listing(rss) && Unused(id, rss) && NewOf(cfg.template, rss).None?
    ensures var olds := OldsOf(cfg.template, rss);
            var newRS := Created(cfg, olds, id);
            && Listing(olds + [newRS]) && NewOf(cfg.template, olds + [newRS]) == Some(newRS)
  {
    hide Total;
    var olds := OldsOf(cfg.template, rss);
    var newRS := Created(cfg, olds, id);
    SortedPermutes(ByCreation, rss);
    NewOfIsNew(cfg.template, rss, newRS);
    var l := olds + [newRS];
    forall i | 0 <= i < |olds| ensures olds[i].name != newRS.name && olds[i].uid != newRS.uid {
      assert olds[i] in rss;
    }
    assert Distinct(l);
    assert newRS.size >= 0;
    NewOfIsNew(cfg.template, l, newRS);
  }

  /** How a reconcile moves the size n of the new set and the total o of the old ones; a missing
      new set is created first, by a write of its own. */
  lemma UpgradeSizes(cfg: Config, rss: seq<ReplicaSet>, id: Identity, budget: nat)
    requires Listing(rss) && Unused(id, rss)
    ensures var l := Upgrade(cfg, rss, id, budget).list;
            var found := NewOf(cfg.template, rss);
            var start := if found.Some? then found.value.size else Created(cfg, OldsOf(cfg.template, rss), id).size;
            && Listing(l)
            && (found.None? && budget == 0 ==> l == rss)
            && (found.Some? || budget > 0 ==>
                  && NewOf(cfg.template, l).Some?
                  && SizesStep(cfg, start, OldTotal(cfg.template, rss), NewSize(cfg.template, l), OldTotal(cfg.template, l)))
            && ((found.Some? && NewSize(cfg.template, l) == NewSize(cfg.template, rss)
                 && OldTotal(cfg.template, l) == OldTotal(cfg.template, rss)) ==> multiset(l) == multiset(rss))
  {
    hide Total, Sorted, Ids, UpgradeFound, SizesStep, Created;
    var found := NewOf(cfg.template, rss);
    var olds := OldsOf(cfg.template, rss);
    OldsAreTheRest(cfg.template, rss);
    if found.Some? {
      FoundListing(cfg, rss, found.value, olds, budget);
    } else if budget > 0 {
      CreatedListing(cfg, rss, id);
      FoundListing(cfg, olds + [Created(cfg, olds, id)], Created(cfg, olds, id), olds, budget - 1);
    }
  }

  // ---- what the pods and the API server do between two reconciles ----

  function Unseen(rs: ReplicaSet): ReplicaSet {
    rs.(available := 0)
  }

  function AllUnseen(rss: seq<ReplicaSet>): (r: seq<ReplicaSet>)
    ensures |r| == |rss| && forall i :: 0 <= i < |rss| ==> r[i] == Unseen(rss[i])
  {
    if rss == [] then [] else [Unseen(rss[0])] + AllUnseen(rss[1..])
  }

  /** The same sets with the same sizes, listed in any order and with any available pods. */
  ghost predicate Observed(a: seq<ReplicaSet>, b: seq<ReplicaSet>) {
    multiset(AllUnseen(a)) == multiset(AllUnseen(b))
  }

  lemma {:induction false} UnseenTotal(rss: seq<ReplicaSet>)
    ensures Total(Size, AllUnseen(rss)) == Total(Size, rss)
    ensures Ids(AllUnseen(rss)) == Ids(rss)
  {
    if rss != [] {
      UnseenTotal(rss[1..]);
      assert AllUnseen(rss)[1..] == AllUnseen(rss[1..]);
    }
  }

  lemma SeenCounterpart(a: seq<ReplicaSet>, b: seq<ReplicaSet>, x: ReplicaSet) returns (y: ReplicaSet)
    requires Observed(a, b) && x in a
    ensures y in b && Unseen(y) == Unseen(x)
  {
    var i :| 0 <= i < |a| && a[i] == x;
    assert AllUnseen(a)[i] == Unseen(x);
    assert Unseen(x) in multiset(AllUnseen(b));
    var j :| 0 <= j < |b| && AllUnseen(b)[j] == Unseen(x);
    y := b[j];
  }

  lemma ObservedSizes(t: Template, a: seq<ReplicaSet>, b: seq<ReplicaSet>)
    requires Listing(a) && Observed(a, b)
    ensures Listing(b) && Total(Size, a) == Total(Size, b) && SameIds(a, b)
    ensures NewOf(t, a).Some? <==> NewOf(t, b).Some?
    ensures NewSize(t, a) == NewSize(t, b) && OldTotal(t, a) == OldTotal(t, b)
  {
    hide Total, Ids, Sorted, AllUnseen;
    UnseenTotal(a);
    UnseenTotal(b);
    TotalPermuted(Size, AllUnseen(a), AllUnseen(b));
    IdsPermuted(AllUnseen(a), AllUnseen(b));
    DistinctByIds(a, b);
    forall y | y in b ensures y.size >= 0 {
      var x := SeenCounterpart(b, a, y);
    }
    WholeIsSum(t, a);
    WholeIsSum(t, b);
    if NewOf(t, a).Some? {
      var x := NewOf(t, a).value;
      NewOfIsNew(t, a, x);
      var y := SeenCounterpart(a, b, x);
      assert Id(y) == Id(Unseen(y)) == Id(x);
      NewOfSameIds(t, a, b, y);
    } else if b != [] {
      NewOfSameIds(t, a, b, b[0]);
    }
  }

  lemma WholeIsSum(t: Template, rss: seq<ReplicaSet>)
    requires Distinct(rss)
    ensures Total(Size, rss) == NewSize(t, rss) + OldTotal(t, rss)
  {
    OldsAreTheRest(t, rss);
    var olds := OldsOf(t, rss);
    if NewOf(t, rss).Some? {
      TotalPermuted(Size, rss, olds + [NewOf(t, rss).value]);
      TotalAppend(Size, olds, [NewOf(t, rss).value]);
    } else {
      TotalPermuted(Size, rss, olds);
    }
  }

  /** One reconcile and what the cluster does before the next one. */
  ghost predicate NextBy(cfg: Config, a: seq<ReplicaSet>, b: seq<ReplicaSet>, id: Identity, budget: nat) {
    Unused(id, a) && Observed(Upgrade(cfg, a, id, budget).list, b)
  }

  /** `writes` is the least number of replica-set writes each reconcile gets accepted. */
  ghost predicate Next(cfg: Config, a: seq<ReplicaSet>, b: seq<ReplicaSet>, writes: nat) {
    exists id, budget: nat :: budget >= writes && NextBy(cfg, a, b, id, budget)
  }

  ghost predicate IsRun(cfg: Config, trace: seq<seq<ReplicaSet>>, writes: nat) {
    && trace != [] && Listing(trace[0])
    && forall k :: 0 <= k < |trace| - 1 ==> Next(cfg, trace[k], trace[k + 1], writes)
  }

  /** The size a reconcile starts from: what it finds, or what it creates. */
  function StartSize(cfg: Config, rss: seq<ReplicaSet>): int {
    if NewOf(cfg.template, rss).Some? then NewSize(cfg.template, rss)
    else Max(NewRSNewReplicas(cfg, 0, OldTotal(cfg.template, rss)), NewRSReplicasLowerBound(cfg))
  }

  lemma NextSizes(cfg: Config, a: seq<ReplicaSet>, b: seq<ReplicaSet>, writes: nat)
    requires Listing(a) && Next(cfg, a, b, writes)
    ensures Listing(b)
    ensures NewOf(cfg.template, a).Some? || writes > 0 ==> NewOf(cfg.template, b).Some?
    ensures NewOf(cfg.template, b).None? ==> NewOf(cfg.template, a).None? && OldTotal(cfg.template, b) == OldTotal(cfg.template, a)
    ensures NewOf(cfg.template, b).Some? ==>
              SizesStep(cfg, StartSize(cfg, a), OldTotal(cfg.template, a), NewSize(cfg.template, b), OldTotal(cfg.template, b))
  {
    hide Total, Ids, Sorted, AllUnseen, UpgradeFound, SizesStep, NewOf, OldsOf;
    var id, budget: nat :| budget >= writes && NextBy(cfg, a, b, id, budget);
    UpgradeSizes(cfg, a, id, budget);
    ObservedSizes(cfg.template, Upgrade(cfg, a, id, budget).list, b);
  }

  // ---- convergence ----

  /** How far the sizes are from what the batch asks for. */
  function Distance(cfg: Config, n: int, o: int): nat {
    Positive(BatchLimit(cfg) - n) + Abs(o - (cfg.replicas - Max(BatchLimit(cfg), n)))
  }

  function DistanceOf(cfg: Config, rss: seq<ReplicaSet>): nat {
    Distance(cfg, NewSize(cfg.template, rss), OldTotal(cfg.template, rss))
  }

  lemma SizesNonNegative(t: Template, rss: seq<ReplicaSet>)
    requires Listing(rss)
    ensures NewSize(t, rss) >= 0 && OldTotal(t, rss) >= 0
  {
    OldsAreTheRest(t, rss);
    TotalNonNegative(OldsOf(t, rss));
    if NewOf(t, rss).Some? {
      NewOfIsNew(t, rss, NewOf(t, rss).value);
    }
  }

  /** Each change strictly shortens the distance, whatever the pods do and whatever fails. */
  lemma StepShortens(cfg: Config, n: int, o: int, n': int, o': int)
    requires n >= 0 && o >= 0 && SizesStep(cfg, n, o, n', o')
    ensures Distance(cfg, n', o') <= Distance(cfg, n, o)
    ensures n' != n || o' != o ==> Distance(cfg, n', o') < Distance(cfg, n, o)
  {
    LimitInRange(cfg.partition, cfg.replicas);
  }

  /** The number of reconciles of a run that change a size. */
  ghost function Changes(cfg: Config, trace: seq<seq<ReplicaSet>>): nat {
    if |trace| < 2 then 0
    else
      var k := |trace| - 2;
      Changes(cfg, trace[..k + 1])
      + (if NewSize(cfg.template, trace[k]) != NewSize(cfg.template, trace[k + 1])
         || OldTotal(cfg.template, trace[k]) != OldTotal(cfg.template, trace[k + 1]) then 1 else 0)
  }

  lemma RunPrefix(cfg: Config, trace: seq<seq<ReplicaSet>>, writes: nat)
    requires IsRun(cfg, trace, writes) && |trace| > 1
    ensures IsRun(cfg, trace[..|trace| - 1], writes)
    ensures Next(cfg, trace[|trace| - 2], trace[|trace| - 1], writes)
  {
    var p := trace[..|trace| - 1];
    forall k | 0 <= k < |p| - 1 ensures Next(cfg, p[k], p[k + 1], writes) {
      assert Next(cfg, trace[k], trace[k + 1], writes);
    }
    assert Next(cfg, trace[|trace| - 2], trace[|trace| - 2 + 1], writes);
  }

  /** Every state of a run is a proper listing, and once there the new set stays. */
  lemma {:induction false} RunKeeps(cfg: Config, trace: seq<seq<ReplicaSet>>, writes: nat)
    requires IsRun(cfg, trace, writes)
    ensures forall k :: 0 <= k < |trace| ==> Listing(trace[k])
    ensures NewOf(cfg.template, trace[0]).Some? ==> forall k :: 0 <= k < |trace| ==> NewOf(cfg.template, trace[k]).Some?
    decreases |trace|
  {
    hide Total, Sorted, NewOf, OldsOf, Upgrade, SizesStep, Next;
    if |trace| > 1 {
      RunPrefix(cfg, trace, writes);
      RunKeeps(cfg, trace[..|trace| - 1], writes);
      NextSizes(cfg, trace[|trace| - 2], trace[|trace| - 1], writes);
    }
  }

  /** How far a listing is from the goal in reconciles: the distance, or that of the set to be
      created and the creation. */
  function Remaining(cfg: Config, rss: seq<ReplicaSet>): nat {
    if NewOf(cfg.template, rss).Some? then DistanceOf(cfg, rss)
    else 1 + Distance(cfg, StartSize(cfg, rss), OldTotal(cfg.template, rss))
  }

  /** Creating the set costs two more than the distance at most. */
  lemma RemainingBound(cfg: Config, rss: seq<ReplicaSet>)
    requires Listing(rss)
    ensures Remaining(cfg, rss) <= DistanceOf(cfg, rss) + (if NewOf(cfg.template, rss).Some? then 0 else 2)
  {
    hide NewOf, OldsOf, Total, MaxSurge, NewRSReplicasLimit;
    SizesNonNegative(cfg.template, rss);
    LimitInRange(cfg.partition, cfg.replicas);
    NoNewSize(cfg.template, rss);
  }

  lemma NoNewSize(t: Template, rss: seq<ReplicaSet>)
    ensures NewOf(t, rss).None? ==> NewSize(t, rss) == 0
  {
  }

  lemma StartNonNegative(cfg: Config, rss: seq<ReplicaSet>)
    requires Listing(rss)
    ensures StartSize(cfg, rss) >= 0 && OldTotal(cfg.template, rss) >= 0
  {
    hide NewOf, OldsOf, Total, MaxSurge, NewRSReplicasLimit;
    SizesNonNegative(cfg.template, rss);
    LimitInRange(cfg.partition, cfg.replicas);
  }

  lemma RemainingStep(cfg: Config, a: seq<ReplicaSet>, b: seq<ReplicaSet>, writes: nat)
    requires Listing(a) && Next(cfg, a, b, writes)
    ensures Listing(b)
    ensures Remaining(cfg, b) <= Remaining(cfg, a)
    ensures NewSize(cfg.template, a) != NewSize(cfg.template, b) || OldTotal(cfg.template, a) != OldTotal(cfg.template, b)
            ==> Remaining(cfg, b) < Remaining(cfg, a)
    ensures NewOf(cfg.template, a).None? && writes > 0 ==> Remaining(cfg, b) < Remaining(cfg, a)
  {
    hide NewOf, OldsOf, Total, Next, SizesStep, Distance, MaxSurge, NewRSNewReplicas;
    NextSizes(cfg, a, b, writes);
    StartNonNegative(cfg, a);
    NoNewSize(cfg.template, a);
    NoNewSize(cfg.template, b);
    if NewOf(cfg.template, b).Some? {
      StepShortens(cfg, StartSize(cfg, a), OldTotal(cfg.template, a), NewSize(cfg.template, b), OldTotal(cfg.template, b));
    }
  }

  /** Sizes never oscillate: a run changes them at most as often as its first listing says. */
  lemma {:induction false} ChangesBounded(cfg: Config, trace: seq<seq<ReplicaSet>>, writes: nat)
    requires IsRun(cfg, trace, writes)
    ensures Changes(cfg, trace) + Remaining(cfg, trace[|trace| - 1]) <= Remaining(cfg, trace[0])
    decreases |trace|
  {
    hide Total, Sorted, NewOf, OldsOf, Upgrade, Next, Remaining;
    if |trace| > 1 {
      RunPrefix(cfg, trace, writes);
      var p := trace[..|trace| - 1];
      ChangesBounded(cfg, p, writes);
      RunKeeps(cfg, p, writes);
      var a, b := trace[|trace| - 2], trace[|trace| - 1];
      assert p[|p| - 1] == a && Listing(a);
      RemainingStep(cfg, a, b, writes);
    }
  }

  // ---- no deadlock ----

  ghost predicate AllAvailable(rss: seq<ReplicaSet>) {
    forall rs :: rs in rss ==> rs.available == rs.size
  }

  /** What a batch asks for: the new set at its limit or beyond, the old sets filling up the rest. */
  ghost predicate Settled(cfg: Config, rss: seq<ReplicaSet>) {
    && NewSize(cfg.template, rss) >= BatchLimit(cfg)
    && NewSize(cfg.template, rss) + OldTotal(cfg.template, rss) == cfg.replicas
  }

  lemma SettledIsDistanceZero(cfg: Config, rss: seq<ReplicaSet>)
    ensures Settled(cfg, rss) <==> DistanceOf(cfg, rss) == 0
  {
    LimitInRange(cfg.partition, cfg.replicas);
  }

  lemma {:induction false} AvailableTotal(rss: seq<ReplicaSet>)
    requires AllAvailable(rss)
    ensures Total(Available, rss) == Total(Size, rss) && NonNegative(rss)
  {
    if rss != [] {
      assert forall x :: x in rss[1..] ==> x in rss;
      assert rss[0] in rss;
      AvailableTotal(rss[1..]);
    }
  }

  lemma {:induction false} CleanupIdle(cfg: Config, rss: seq<ReplicaSet>, most: int, budget: nat)
    requires AllAvailable(rss)
    ensures Cleanup(cfg, rss, most, budget) == Pass(rss, 0, budget, true)
  {
    if rss != [] && most > 0 {
      assert forall x :: x in rss[1..] ==> x in rss;
      assert rss[0] in rss;
      CleanupIdle(cfg, rss[1..], most, budget);
      assert rss == [rss[0]] + rss[1..];
    }
  }

  lemma DrainOldMoves(cfg: Config, newRS: ReplicaSet, olds: seq<ReplicaSet>, budget: nat)
    requires AllAvailable(olds) && newRS.available == newRS.size && budget > 0
    requires ScaleDownLimitForOld(cfg, Total(Size, olds), newRS.size) > 0 && Total(Size, olds) > 0
    requires Total(Size, olds) + newRS.size > cfg.replicas - MaxUnavailable(cfg)
    ensures Total(Size, ScaleDownOld(cfg, newRS, olds, budget).list) < Total(Size, olds)
  {
    hide Sorted, Drain, Total, MaxUnavailable, NewRSReplicasLimit, Lowered, Ids;
    AvailableTotal(olds);
    var t := Sorted(DrainOrder(cfg, olds), olds);
    SortedKeeps(DrainOrder(cfg, olds), olds);
    var most := Min(Total(Available, olds) + newRS.available - (cfg.replicas - MaxUnavailable(cfg)),
                    ScaleDownLimitForOld(cfg, Total(Size, olds), newRS.size));
    DrainMoves(cfg, t, most, budget);
    DrainFacts(cfg, t, most, budget);
  }

  /** With all pods available and more of them than the floor asks for, an old total above its
      share goes down by the first accepted write. */
  lemma ShrinkMoves(cfg: Config, newRS: ReplicaSet, olds: seq<ReplicaSet>, budget: nat)
    requires AllAvailable(olds) && newRS.available == newRS.size && budget > 0
    requires ScaleDownLimitForOld(cfg, Total(Size, olds), newRS.size) > 0 && Total(Size, olds) > 0
    requires Total(Size, olds) + newRS.size > cfg.replicas - MaxUnavailable(cfg)
    ensures Total(Size, ReconcileOld(cfg, newRS, olds, Total(Size, olds) + newRS.size, budget).list) < Total(Size, olds)
  {
    hide Sorted, Cleanup, Total, MaxUnavailable, NewRSReplicasLimit, ScaleDownOld, ScaleUpOld;
    var s := Sorted(ByCreation, olds);
    SortedKeeps(ByCreation, olds);
    SortedPermutes(ByCreation, olds);
    CleanupIdle(cfg, s, MaxScaledDown(cfg, newRS, Total(Size, olds), Total(Size, olds) + newRS.size), budget);
    DrainOldMoves(cfg, newRS, s, budget);
  }

  /** With all pods available and a write accepted, a reconcile that is not at the goal moves. */
  lemma FoundMoves(cfg: Config, newRS: ReplicaSet, olds: seq<ReplicaSet>, budget: nat)
    returns (list: seq<ReplicaSet>, after: ReplicaSet)
    requires AllAvailable(olds) && newRS.available == newRS.size && budget > 0 && ValidStrategy(cfg)
    requires newRS.size < BatchLimit(cfg) || newRS.size + Total(Size, olds) != cfg.replicas
    ensures UpgradeFound(cfg, newRS, olds, budget).list == list + [after]
    ensures after.size != newRS.size || Total(Size, list) != Total(Size, olds)
  {
    hide Sorted, Total, Active, Inactive, ReconcileOld, UpgradeFound, SizesStep, Ids, MaxUnavailable,
         MaxSurge, NewRSReplicasLimit;
    var o := Total(Size, olds);
    AvailableTotal(olds);
    list, after := FoundSizes(cfg, newRS, olds, budget);
    TotalNonNegative(olds);
    LimitInRange(cfg.partition, cfg.replicas);
    FencepostsLeaveRoom(cfg);
    if NewTarget(cfg, newRS.size, o + newRS.size) == newRS.size {
      var act := Active(olds);
      ActiveTotal(olds);
      TotalAppend(Size, Inactive(olds), ReconcileOld(cfg, newRS, act, o + newRS.size, budget).list);
      var limit := ScaleDownLimitForOld(cfg, o, newRS.size);
      assert o > 0 && limit != 0;
      if limit < 0 {
        GrowMoves(cfg, newRS, act, o + newRS.size, budget);
      } else {
        ShrinkMoves(cfg, newRS, act, budget);
      }
    }
  }

  lemma GrowMoves(cfg: Config, newRS: ReplicaSet, olds: seq<ReplicaSet>, allPods: int, budget: nat)
    requires NonNegative(olds) && Total(Size, olds) > 0 && budget > 0
    requires ScaleDownLimitForOld(cfg, Total(Size, olds), newRS.size) < 0
    ensures Total(Size, ReconcileOld(cfg, newRS, olds, allPods, budget).list) > Total(Size, olds)
  {
    hide Sorted, Total;
    TotalNonNegative(olds);
    ScaleUpFacts(cfg, olds, -ScaleDownLimitForOld(cfg, Total(Size, olds), newRS.size), budget);
  }

  /** No deadlock: once all pods are available, a reconcile whose first write is accepted leaves
      everything as it is exactly when the batch is where it should be. */
  lemma QuietOnlyAtGoal(cfg: Config, rss: seq<ReplicaSet>, id: Identity, budget: nat)
    requires Listing(rss) && Unused(id, rss) && NewOf(cfg.template, rss).Some?
    requires ValidStrategy(cfg) && AllAvailable(rss) && budget > 0
    ensures multiset(Upgrade(cfg, rss, id, budget).list) == multiset(rss) <==> Settled(cfg, rss)
  {
    hide Sorted, Total, Ids, UpgradeFound, SizesStep, NewTarget, OldsOf, NewRSReplicasLimit, Unused;
    var newRS, olds := NewOf(cfg.template, rss).value, OldsOf(cfg.template, rss);
    var l := Upgrade(cfg, rss, id, budget).list;
    OldsAreTheRest(cfg.template, rss);
    NewOfIsNew(cfg.template, rss, newRS);
    if Settled(cfg, rss) {
      GoalIsStable(cfg, rss, id, budget);
    } else {
      var list, after := FoundMoves(cfg, newRS, olds, budget);
      FoundListing(cfg, rss, newRS, olds, budget);
      assert l[|l| - 1] == after;
      SplitListing(cfg.template, l, list, after);
      if multiset(l) == multiset(rss) {
        NewOfPermuted(cfg.template, rss, l);
      }
    }
  }

  /** At the goal nothing is written, whatever the pods' availability and the writes. */
  lemma GoalIsStable(cfg: Config, rss: seq<ReplicaSet>, id: Identity, budget: nat)
    requires Listing(rss) && Unused(id, rss) && NewOf(cfg.template, rss).Some? && Settled(cfg, rss)
    ensures multiset(Upgrade(cfg, rss, id, budget).list) == multiset(rss)
  {
    hide Sorted, Total, Ids, SizesStep, OldsOf, NewRSReplicasLimit, Unused;
    UpgradeSizes(cfg, rss, id, budget);
    SizesNonNegative(cfg.template, rss);
    var n, o := NewSize(cfg.template, rss), OldTotal(cfg.template, rss);
    var l := Upgrade(cfg, rss, id, budget).list;
    StepShortens(cfg, n, o, NewSize(cfg.template, l), OldTotal(cfg.template, l));
    SettledIsDistanceZero(cfg, rss);
  }

  /** Progress: in a run whose reconciles each get a write accepted and see all pods available,
      the goal is reached within as many reconciles as the first listing says, and kept. */
  lemma {:induction false} GoalReached(cfg: Config, trace: seq<seq<ReplicaSet>>)
    requires IsRun(cfg, trace, 1) && ValidStrategy(cfg)
    requires forall k :: 0 <= k < |trace| ==> AllAvailable(trace[k])
    ensures Remaining(cfg, trace[|trace| - 1]) <= Positive(Remaining(cfg, trace[0]) - (|trace| - 1))
    ensures |trace| > Remaining(cfg, trace[0])
            ==> NewOf(cfg.template, trace[|trace| - 1]).Some? && Settled(cfg, trace[|trace| - 1])
    decreases |trace|
  {
    hide Total, Sorted, OldsOf, Upgrade, Settled, DistanceOf, Next, StartSize, NewOf;
    if |trace| > 1 {
      var p := trace[..|trace| - 1];
      RunPrefix(cfg, trace, 1);
      GoalReached(cfg, p);
      RunKeeps(cfg, p, 1);
      var a := trace[|trace| - 2];
      assert p[|p| - 1] == a && AllAvailable(a);
      if NewOf(cfg.template, a).Some? {
        AdvanceOrStay(cfg, a, trace[|trace| - 1]);
      } else {
        RemainingStep(cfg, a, trace[|trace| - 1], 1);
      }
    }
    SettledIsDistanceZero(cfg, trace[|trace| - 1]);
  }

  lemma AdvanceOrStay(cfg: Config, a: seq<ReplicaSet>, b: seq<ReplicaSet>)
    requires Listing(a) && NewOf(cfg.template, a).Some? && ValidStrategy(cfg) && AllAvailable(a)
    requires Next(cfg, a, b, 1)
    ensures NewOf(cfg.template, b).Some? && DistanceOf(cfg, b) <= Positive(DistanceOf(cfg, a) - 1)
  {
    hide Total, Sorted, AllUnseen, Ids, NewOf, OldsOf, Settled, Distance, SizesStep, UpgradeFound;
    var id, budget: nat :| budget >= 1 && NextBy(cfg, a, b, id, budget);
    var l := Upgrade(cfg, a, id, budget).list;
    UpgradeSizes(cfg, a, id, budget);
    ObservedSizes(cfg.template, l, b);
    SizesNonNegative(cfg.template, a);
    StepShortens(cfg, NewSize(cfg.template, a), OldTotal(cfg.template, a), NewSize(cfg.template, l), OldTotal(cfg.template, l));
    QuietOnlyAtGoal(cfg, a, id, budget);
    SettledIsDistanceZero(cfg, a);
  }

  // ---- partition safety ----

  lemma StepWithinPartition(cfg: Config, n: int, o: int, n': int, o': int, most: int, least: int)
    requires SizesStep(cfg, n, o, n', o')
    requires 0 <= n <= most < cfg.replicas && BatchLimit(cfg) <= most && 0 < least <= o && least <= cfg.replicas - most
    ensures 0 <= n' <= most && least <= o'
  {
    LimitInRange(cfg.partition, cfg.replicas);
  }

  /** The largest new set a run from this listing may show while old pods remain. */
  function PartitionBound(cfg: Config, rss: seq<ReplicaSet>): int {
    Max(BatchLimit(cfg), if NewOf(cfg.template, rss).Some? then NewSize(cfg.template, rss) else NewRSReplicasLowerBound(cfg))
  }

  /** An unfinished batch never becomes a full rollout: while old pods were left at the start,
      every state of every run keeps the new set within the batch, and of the old pods at least
      as many as the batch leaves them or as there were. */
  lemma {:induction false} PartitionSafety(cfg: Config, trace: seq<seq<ReplicaSet>>)
    requires IsRun(cfg, trace, 0) && OldTotal(cfg.template, trace[0]) > 0
    requires PartitionBound(cfg, trace[0]) < cfg.replicas
    ensures var most := PartitionBound(cfg, trace[0]);
            var last := trace[|trace| - 1];
            && 0 <= NewSize(cfg.template, last) <= most
            && OldTotal(cfg.template, last) >= Min(OldTotal(cfg.template, trace[0]), cfg.replicas - most) > 0
            && (NewOf(cfg.template, last).Some? || PartitionBound(cfg, last) == most)
    decreases |trace|
  {
    hide Total, Sorted, NewOf, OldsOf, Upgrade, SizesStep, Next;
    var most := PartitionBound(cfg, trace[0]);
    SizesNonNegative(cfg.template, trace[0]);
    if |trace| > 1 {
      var p := trace[..|trace| - 1];
      RunPrefix(cfg, trace, 0);
      PartitionSafety(cfg, p);
      RunKeeps(cfg, p, 0);
      var a, b := trace[|trace| - 2], trace[|trace| - 1];
      assert p[|p| - 1] == a && Listing(a);
      NextSizes(cfg, a, b, 0);
      if NewOf(cfg.template, b).Some? {
        LimitInRange(cfg.partition, cfg.replicas);
        SizesNonNegative(cfg.template, a);
        StepWithinPartition(cfg, StartSize(cfg, a), OldTotal(cfg.template, a), NewSize(cfg.template, b),
                            OldTotal(cfg.template, b), most, Min(OldTotal(cfg.template, trace[0]), cfg.replicas - most));
      }
    }
  }

  /** Exactly when that holds: without any old pod the next accepted write takes the new set, found
      or created, to the whole deployment, whatever the partition says. */
  lemma PartitionHoldsWhileOldPodsRemain(cfg: Config, rss: seq<ReplicaSet>, id: Identity)
    requires Listing(rss) && PartitionBound(cfg, rss) < cfg.replicas && Unused(id, rss)
    ensures OldTotal(cfg.template, rss) > 0
            <==> forall trace :: IsRun(cfg, trace, 0) && trace[0] == rss
                                 ==> NewSize(cfg.template, trace[|trace| - 1]) <= PartitionBound(cfg, rss)
  {
    hide Total, Sorted, NewOf, OldsOf, SizesStep, UpgradeFound, Upgrade;
    if OldTotal(cfg.template, rss) > 0 {
      forall trace | IsRun(cfg, trace, 0) && trace[0] == rss
        ensures NewSize(cfg.template, trace[|trace| - 1]) <= PartitionBound(cfg, rss)
      {
        PartitionSafety(cfg, trace);
      }
    } else {
      var l := Upgrade(cfg, rss, id, 1).list;
      SizesNonNegative(cfg.template, rss);
      EmptiedOldsJump(cfg, rss, id);
      assert NextBy(cfg, rss, l, id, 1);
      assert Next(cfg, rss, l, 0);
      var trace := [rss, l];
      assert IsRun(cfg, trace, 0);
      assert trace[|trace| - 1] == l;
    }
  }

  lemma EmptiedOldsJump(cfg: Config, rss: seq<ReplicaSet>, id: Identity)
    requires Listing(rss) && NewSize(cfg.template, rss) < cfg.replicas && Unused(id, rss)
    requires OldTotal(cfg.template, rss) <= 0
    ensures NewSize(cfg.template, Upgrade(cfg, rss, id, 1).list) == cfg.replicas
  {
    hide Total, Sorted, NewOf, SizesStep, Ids, OldsOf, NewRSReplicasLimit, MaxSurge, MaxRevision, ReconcileOld, Active, Inactive;
    var found, olds := NewOf(cfg.template, rss), OldsOf(cfg.template, rss);
    SizesNonNegative(cfg.template, rss);
    OldsAreTheRest(cfg.template, rss);
    if found.Some? {
      FoundListing(cfg, rss, found.value, olds, 1);
      var l := Upgrade(cfg, rss, id, 1).list;
      assert l == olds + [Resized(cfg, found.value, cfg.replicas)];
    } else {
      var newRS := Created(cfg, olds, id);
      CreatedListing(cfg, rss, id);
      assert newRS.size == cfg.replicas;
      FoundListing(cfg, olds + [newRS], newRS, olds, 0);
      var l := Upgrade(cfg, rss, id, 1).list;
      assert l[|l| - 1] == newRS;
    }
  }

  // ---- surge ceiling ----

  /** Once the new set exists the total never grows past replicas + surge, and bringing old sets
      back never takes it above the replicas. */
  lemma StepWithinSurge(cfg: Config, n: int, o: int, n': int, o': int)
    requires n >= 0 && o >= 0 && SizesStep(cfg, n, o, n', o') && ValidStrategy(cfg)
    ensures n' + o' <= Max(n + o, cfg.replicas + MaxSurge(cfg))
    ensures o' > o ==> n' + o' <= cfg.replicas
  {
    FencepostsLeaveRoom(cfg);
    LimitInRange(cfg.partition, cfg.replicas);
  }

  /** When the new set is created empty: never without surge, whatever the batch; with surge when
      there are old pods and either the batch asks for none or there is no room. */
  lemma CreatedEmptyExactly(cfg: Config, olds: seq<ReplicaSet>, id: Identity)
    requires ValidStrategy(cfg) && NonNegative(olds)
    ensures Created(cfg, olds, id).size == 0
            <==> cfg.replicas == 0
                 || (MaxSurge(cfg) > 0 && Total(Size, olds) > 0
                     && (BatchLimit(cfg) == 0 || Total(Size, olds) >= cfg.replicas + MaxSurge(cfg)))
  {
    hide MaxSurge, Total, NewRSReplicasLimit, MaxRevision;
    TotalNonNegative(olds);
    FencepostsLeaveRoom(cfg);
    LimitInRange(cfg.partition, cfg.replicas);
  }

  /** From a state without a new set and with at most the wanted pods, creation and all that
      follows stay within replicas + max(surge, 1); the 1 only comes from the first pod of a
      deployment without surge. */
  lemma {:induction false} SurgeCeiling(cfg: Config, trace: seq<seq<ReplicaSet>>)
    requires IsRun(cfg, trace, 0) && ValidStrategy(cfg)
    requires NewOf(cfg.template, trace[0]).None? && Total(Size, trace[0]) <= cfg.replicas
    ensures Total(Size, trace[|trace| - 1]) <= cfg.replicas + Max(MaxSurge(cfg), NewRSReplicasLowerBound(cfg))
    ensures NewOf(cfg.template, trace[|trace| - 1]).None? ==> Total(Size, trace[|trace| - 1]) <= cfg.replicas
    decreases |trace|
  {
    hide Total, Sorted, NewOf, OldsOf, Upgrade, SizesStep, Next, MaxSurge;
    FencepostsLeaveRoom(cfg);
    if |trace| > 1 {
      var p := trace[..|trace| - 1];
      RunPrefix(cfg, trace, 0);
      SurgeCeiling(cfg, p);
      RunKeeps(cfg, p, 0);
      var a, b := trace[|trace| - 2], trace[|trace| - 1];
      assert p[|p| - 1] == a && Listing(a);
      NextSizes(cfg, a, b, 0);
      WholeIsSum(cfg.template, a);
      WholeIsSum(cfg.template, b);
      SizesNonNegative(cfg.template, a);
      LimitInRange(cfg.partition, cfg.replicas);
      if NewOf(cfg.template, b).Some? {
        StepWithinSurge(cfg, StartSize(cfg, a), OldTotal(cfg.template, a), NewSize(cfg.template, b), OldTotal(cfg.template, b));
      }
    }
  }

  // ---- availability floor ----

  lemma {:induction false} SaneTotals(rss: seq<ReplicaSet>)
    requires Sane(rss)
    ensures Total(Serving, rss) == Total(Available, rss) && NonNegative(rss)
  {
    if rss != [] {
      assert rss[0] in rss;
      assert forall x :: x in rss[1..] ==> x in rss;
      SaneTotals(rss[1..]);
    }
  }

  lemma {:induction false} NoneAvailable(rss: seq<ReplicaSet>)
    requires Sane(rss) && forall x :: x in rss ==> !IsActive(x)
    ensures Total(Available, rss) == 0
  {
    if rss != [] {
      assert rss[0] in rss;
      assert forall x :: x in rss[1..] ==> x in rss;
      NoneAvailable(rss[1..]);
    }
  }

  lemma ActiveServe(rss: seq<ReplicaSet>)
    requires Sane(rss)
    ensures Sane(Active(rss)) && Sane(Inactive(rss))
    ensures Total(Available, Inactive(rss)) == 0 && Total(Available, Active(rss)) == Total(Available, rss)
  {
    hide Total, Active, Inactive;
    ActiveSplit(rss);
    TotalPermuted(Available, rss, Inactive(rss) + Active(rss));
    TotalAppend(Available, Inactive(rss), Active(rss));
    NoneAvailable(Inactive(rss));
  }

  /** The two scale-down passes together take no more available pods than are spare, however
      many old sets there are and wherever the writes fail. */
  lemma OldsFloor(cfg: Config, newRS: ReplicaSet, olds: seq<ReplicaSet>, allPods: int, budget: nat)
    requires Sane(olds)
    ensures Total(Serving, ReconcileOld(cfg, newRS, olds, allPods, budget).list) + newRS.available
            >= Min(Total(Available, olds) + newRS.available, cfg.replicas - MaxUnavailable(cfg))
  {
    hide Sorted, Cleanup, Drain, Total, Ids, MaxUnavailable, NewRSReplicasLimit, ScaleDownOld, ScaleUpOld,
         MaxScaledDown;
    SaneTotals(olds);
    var limit := ScaleDownLimitForOld(cfg, Total(Size, olds), newRS.size);
    var most := MaxScaledDown(cfg, newRS, Total(Size, olds), allPods);
    if Total(Size, olds) != 0 {
      if limit <= 0 {
        ScaleUpFacts(cfg, olds, -limit, budget);
      } else if most > 0 {
        CleanupKeeps(cfg, olds, most, budget);
        var c := Cleanup(cfg, Sorted(ByCreation, olds), most, budget);
        if c.ok {
          ScaleDownFacts(cfg, newRS, c.list, c.budget);
        }
      }
    }
  }

  /** Availability floor of a whole reconcile: pods that serve before keep serving down to the
      smaller of what was available and replicas - unavailability. */
  lemma AvailabilityFloor(cfg: Config, rss: seq<ReplicaSet>, id: Identity, budget: nat)
    requires Listing(rss) && Sane(rss) && ValidStrategy(cfg)
    ensures Total(Serving, Upgrade(cfg, rss, id, budget).list)
            >= Min(Total(Available, rss), cfg.replicas - MaxUnavailable(cfg))
  {
    hide Sorted, Total, Ids, UpgradeFound, OldsOf, NewOf, MaxUnavailable, NewRSNewReplicas, MaxSurge, MaxRevision;
    var found, olds := NewOf(cfg.template, rss), OldsOf(cfg.template, rss);
    OldsAreTheRest(cfg.template, rss);
    FencepostsLeaveRoom(cfg);
    SaneTotals(rss);
    assert Sane(olds);
    if found.Some? {
      NewOfIsNew(cfg.template, rss, found.value);
      assert found.value in rss;
      TotalPermuted(Available, rss, olds + [found.value]);
      TotalAppend(Available, olds, [found.value]);
      TotalOfOne(found.value);
      FoundFloor(cfg, found.value, olds, budget);
    } else if budget > 0 {
      TotalPermuted(Available, rss, olds);
      FoundFloor(cfg, Created(cfg, olds, id), olds, budget - 1);
    }
  }

  lemma FoundFloor(cfg: Config, newRS: ReplicaSet, olds: seq<ReplicaSet>, budget: nat)
    requires Sane(olds) && newRS.available <= newRS.size && ValidStrategy(cfg)
    ensures Total(Serving, UpgradeFound(cfg, newRS, olds, budget).list)
            >= Min(Total(Available, olds) + newRS.available, cfg.replicas - MaxUnavailable(cfg))
  {
    hide Sorted, Total, ReconcileOld, MaxUnavailable, NewRSNewReplicas, Active, Inactive;
    SaneTotals(olds);
    AvailableNonNegative(olds);
    FencepostsLeaveRoom(cfg);
    var allPods := Total(Size, olds) + newRS.size;
    var target := NewTarget(cfg, newRS.size, allPods);
    if target != newRS.size {
      TargetGrowsOrCaps(cfg, newRS.size, allPods);
      TotalAppend(Serving, olds, [newRS]);
      TotalAppend(Serving, olds, [Resized(cfg, newRS, target)]);
      TotalOfOne(newRS);
      TotalOfOne(Resized(cfg, newRS, target));
    } else {
      var r := ReconcileOld(cfg, newRS, Active(olds), allPods, budget);
      ActiveServe(olds);
      OldsFloor(cfg, newRS, Active(olds), allPods, budget);
      SaneTotals(Inactive(olds));
      TotalAppend(Serving, Inactive(olds), r.list);
      TotalAppend(Serving, Inactive(olds) + r.list, [newRS]);
      TotalOfOne(newRS);
    }
  }

  lemma TargetGrowsOrCaps(cfg: Config, n: int, allPods: int)
    requires ValidStrategy(cfg)
    ensures NewTarget(cfg, n, allPods) >= Min(n, cfg.replicas)
  {
    FencepostsLeaveRoom(cfg);
    LimitInRange(cfg.partition, cfg.replicas);
  }

  lemma {:induction false} AvailableNonNegative(rss: seq<ReplicaSet>)
    ensures Total(Available, rss) >= 0
  {
    if rss != [] {
      AvailableNonNegative(rss[1..]);
    }
  }
}
