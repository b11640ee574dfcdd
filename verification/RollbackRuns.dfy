/**
  Runs of the reconcile as the code does it, the shared array included: what is lost when the new
  set is not the youngest.
 */
module RollbackRuns {
  import opened Base
  import opened Limits
  import opened ReplicaSets
  import opened Ordering
  import opened Scaling
  import opened UpgradeFacts
  import opened RolloutRuns
  import opened ScalingFacts
  import opened SharedSlices

  /** One reconcile with no write refused, and what the cluster does before the next one. */
  ghost predicate NextAppended(cfg: Config, a: seq<ReplicaSet>, b: seq<ReplicaSet>) {
    exists id, budget: nat :: budget >= |a| && NextAppendedBy(cfg, a, b, id, budget)
  }

  ghost predicate NextAppendedBy(cfg: Config, a: seq<ReplicaSet>, b: seq<ReplicaSet>, id: Identity, budget: nat) {
    Unused(id, a) && Observed(UpgradeAppended(cfg, a, id, false, budget).list, b)
  }

  ghost predicate IsRunAppended(cfg: Config, trace: seq<seq<ReplicaSet>>) {
    && trace != [] && Listing(trace[0])
    && forall k :: 0 <= k < |trace| - 1 ==> NextAppended(cfg, trace[k], trace[k + 1])
  }

  /** The reconcile meets the new set as the theorems about runs have it: up to date, and the
      youngest where the array is shared. */
  ghost predicate Plain(cfg: Config, rss: seq<ReplicaSet>) {
    var found, olds := NewOf(cfg.template, rss), OldsOf(cfg.template, rss);
    found.Some? && Separable(cfg, found.value, olds) && Renumbered(found.value, olds) == found.value
  }

  /** A run of plain reconciles is one of the theorems' runs. */
  lemma {:induction false} PlainRunIsRun(cfg: Config, trace: seq<seq<ReplicaSet>>)
    requires IsRunAppended(cfg, trace) && forall k :: 0 <= k < |trace| ==> Plain(cfg, trace[k])
    ensures IsRun(cfg, trace, 1)
    decreases |trace|
  {
    hide Plain, NextAppended, Next, NewOf, OldsOf;
    if |trace| > 1 {
      var p := trace[..|trace| - 1];
      forall k | 0 <= k < |p| - 1 ensures NextAppended(cfg, p[k], p[k + 1]) {
        assert NextAppended(cfg, trace[k], trace[k + 1]);
      }
      PlainRunIsRun(cfg, p);
      RunKeeps(cfg, p, 1);
      assert NextAppended(cfg, trace[|p| - 1], trace[|p| - 1 + 1]);
      PlainStep(cfg, p[|p| - 1], trace[|p|]);
      forall k | 0 <= k < |trace| - 1 ensures Next(cfg, trace[k], trace[k + 1], 1) {
        assert k < |p| - 1 ==> Next(cfg, p[k], p[k + 1], 1);
      }
    }
  }

  lemma PlainStep(cfg: Config, a: seq<ReplicaSet>, b: seq<ReplicaSet>)
    requires Listing(a) && Plain(cfg, a) && NextAppended(cfg, a, b)
    ensures Next(cfg, a, b, 1)
  {
    hide NewOf, OldsOf, UpgradeAppended, Upgrade, Observed, Separable, Renumbered;
    var id, budget: nat :| budget >= |a| && NextAppendedBy(cfg, a, b, id, budget);
    UpgradeSame(cfg, a, id, budget);
    NewOfIsNew(cfg.template, a, NewOf(cfg.template, a).value);
    assert NextBy(cfg, a, b, id, budget);
  }

  lemma {:induction false} ObservedPermuted(a: seq<ReplicaSet>, b: seq<ReplicaSet>)
    requires multiset(a) == multiset(b)
    ensures Observed(a, b)
  {
    PermutedLength(a, b);
    if a != [] {
      var i := PermutedTails(a, b);
      ObservedPermuted(a[1..], RemoveAt(b, i));
      UnseenWithout(a, b, i);
    }
  }

  lemma UnseenWithout(a: seq<ReplicaSet>, b: seq<ReplicaSet>, i: nat)
    requires a != [] && i < |b| && b[i] == a[0] && Observed(a[1..], RemoveAt(b, i))
    ensures Observed(a, b)
  {
    hide AllUnseen;
    assert AllUnseen(RemoveAt(b, i)) == RemoveAt(AllUnseen(b), i);
    assert AllUnseen(a)[1..] == AllUnseen(a[1..]);
    RemoveAtCounts(AllUnseen(b), i);
    HeadCounts(AllUnseen(a));
  }

  /** One set exchanged for another that differs in its pods only. */
  lemma ObservedJoin(list: seq<ReplicaSet>, olds: seq<ReplicaSet>, x: ReplicaSet, y: ReplicaSet)
    requires multiset(list) == multiset(olds) + multiset{x} && Unseen(x) == Unseen(y)
    ensures Observed(list, olds + [y])
  {
    hide AllUnseen;
    assert multiset(list) == multiset(olds + [x]);
    ObservedPermuted(list, olds + [x]);
    assert AllUnseen(olds + [x]) == AllUnseen(olds + [y]);
  }

  lemma {:induction false} MaxRevisionBound(rss: seq<ReplicaSet>, most: nat)
    requires forall x :: x in rss ==> RevisionNumber(x) <= most
    ensures 0 <= MaxRevision(rss) <= most
  {
    if rss != [] {
      assert rss[0] in rss && forall x :: x in rss[1..] ==> x in rss;
      MaxRevisionBound(rss[1..], most);
    }
  }

  // ---- a rollback that never completes ----

  const CFG := Config(4, 0, Some(Int(1)), Some(Int(1)), Percent(100), 5, 0, {3})

  /** The set rolled back to, older than all others, with so many pods. */
  function Target(size: nat): ReplicaSet {
    ReplicaSet("new", 9, 1, 0, Number(9), size, size, Some(4), Some(5))
  }

  /** Three younger sets of another template with one available pod each. */
  ghost predicate Younger(olds: seq<ReplicaSet>) {
    && |olds| == 3 && Distinct(olds)
    && forall x :: x in olds ==>
         && x.size == 1 && x.available == 1 && x.template != 0 && RevisionNumber(x) <= 3
         && x.created > 1 && x.name != "new" && x.name != "unused" && x.uid < 9
  }

  lemma YoungerExist() returns (olds: seq<ReplicaSet>)
    ensures Younger(olds)
  {
    olds := [ReplicaSet("a", 1, 2, 1, Number(1), 1, 1, Some(4), Some(5)),
             ReplicaSet("b", 2, 3, 2, Number(2), 1, 1, Some(4), Some(5)),
             ReplicaSet("c", 3, 4, 3, Number(3), 1, 1, Some(4), Some(5))];
  }

  lemma YoungerPermuted(a: seq<ReplicaSet>, b: seq<ReplicaSet>)
    requires Younger(a) && multiset(a) == multiset(b)
    ensures Younger(b)
  {
    PermutedLength(a, b);
    DistinctPermuted(a, b);
  }

  lemma YoungerFacts(olds: seq<ReplicaSet>, size: nat)
    requires Younger(olds)
    ensures Listing(olds + [Target(size)]) && AllAvailable(olds + [Target(size)])
    ensures Active(olds) == olds && Inactive(olds) == []
    ensures Total(Size, olds) == 3 && Total(Available, olds) == 3
    ensures forall x :: x in olds ==> CreatedBefore(Target(size), x)
    ensures Renumbered(Target(size), olds) == Target(size)
  {
    hide Total, MaxRevision;
    ThreeOnes(olds);
    AllActive(olds);
    MaxRevisionBound(olds, 3);
  }

  lemma TargetIsNew(olds: seq<ReplicaSet>, size: nat)
    requires Younger(olds)
    ensures IsNew(0, olds + [Target(size)], Target(size))
  {
    var rss := olds + [Target(size)];
    assert Target(size) in rss && forall x :: x in rss ==> x in olds || x == Target(size);
  }

  lemma SetsFacts(olds: seq<ReplicaSet>, size: nat) returns (rest: seq<ReplicaSet>)
    requires Younger(olds)
    ensures NewOf(0, olds + [Target(size)]) == Some(Target(size))
    ensures rest == OldsOf(0, olds + [Target(size)]) && multiset(rest) == multiset(olds) && Younger(rest)
    ensures NewSize(0, olds + [Target(size)]) == size && OldTotal(0, olds + [Target(size)]) == 3
  {
    hide Sorted, NewOf, OldsOf, Total, Younger, AllAvailable, Renumbered, Distinct, NonNegative, IsNew;
    var rss := olds + [Target(size)];
    rest := OldsOf(0, rss);
    YoungerFacts(olds, size);
    TargetIsNew(olds, size);
    NewOfIsNew(0, rss, Target(size));
    OldsAreTheRest(0, rss);
    assert multiset(rss) - multiset{Target(size)} == multiset(olds);
    assert multiset(rest) == multiset(rss) - multiset{Target(size)};
    YoungerPermuted(olds, rest);
    SplitListing(0, rss, olds, Target(size));
  }

  lemma Numbers()
    ensures BatchLimit(CFG) == 4 && MaxSurge(CFG) == 1 && MaxUnavailable(CFG) == 1
    ensures NewTarget(CFG, 0, 3) == 2 && NewTarget(CFG, 2, 5) == 2
    ensures ScaleDownLimitForOld(CFG, 3, 2) == 3 && ScaleDownLimitForOld(CFG, 4, 2) == 4
    ensures MaxScaledDown(CFG, Target(2), 3, 5) == 2
  {
  }

  lemma FoundUnwritten(olds: seq<ReplicaSet>, size: nat, id: Identity, budget: nat) returns (rest: seq<ReplicaSet>)
    requires Younger(olds)
    ensures UpgradeAppended(CFG, olds + [Target(size)], id, false, budget) == UpgradeFoundAppended(CFG, Target(size), rest, budget)
    ensures multiset(rest) == multiset(olds) && Younger(rest)
  {
    hide NewOf, OldsOf, Renumbered, Younger, UpgradeFoundAppended;
    rest := SetsFacts(olds, size);
    YoungerFacts(rest, size);
  }

  /** From no pod of the new set: it is given two. */
  lemma Refills(olds: seq<ReplicaSet>, id: Identity, budget: nat)
    requires Younger(olds) && budget > 0
    ensures Observed(UpgradeAppended(CFG, olds + [Target(0)], id, false, budget).list, olds + [Target(2)])
  {
    hide UpgradeAppended, Total, ReconcileOldAppended, Younger, NewTarget, Observed;
    var rest := FoundUnwritten(olds, 0, id, budget);
    YoungerFacts(rest, 0);
    Numbers();
    ObservedJoin(rest + [Resized(CFG, Target(0), 2)], olds, Resized(CFG, Target(0), 2), Target(2));
  }

  /** From two available pods of the new set: the scale-down meant for an old one takes both. */
  lemma Empties(olds: seq<ReplicaSet>, id: Identity, budget: nat)
    requires Younger(olds) && budget > 0
    ensures Observed(UpgradeAppended(CFG, olds + [Target(2)], id, false, budget).list, olds + [Target(0)])
  {
    hide UpgradeAppended, Total, ReconcileOldAppended, Younger, NewTarget, Observed, Active, Inactive;
    var rest := FoundUnwritten(olds, 2, id, budget);
    YoungerFacts(rest, 2);
    Numbers();
    var list := EmptiesByReconcile(rest, budget);
    assert [] + list == list;
    ObservedJoin(list, olds, Resized(CFG, Target(2), 0), Target(0));
  }

  lemma EmptiesByReconcile(olds: seq<ReplicaSet>, budget: nat) returns (list: seq<ReplicaSet>)
    requires Younger(olds) && budget > 0
    ensures list == ReconcileOldAppended(CFG, Target(2), olds, 5, budget).list
    ensures multiset(list) == multiset(olds) + multiset{Resized(CFG, Target(2), 0)}
  {
    hide Sorted, Total, Cleanup, ScaleDownShared, Younger, MaxScaledDown, ScaleDownLimitForOld, AllAvailable;
    list := ReconcileOldAppended(CFG, Target(2), olds, 5, budget).list;
    YoungerFacts(olds, 2);
    Numbers();
    var s := Sorted(ByCreation, olds);
    SortedPermutes(ByCreation, olds);
    YoungerPermuted(olds, s);
    SortedAvailable(s);
    CleanupIdle(CFG, s, 2, budget);
    EmptiesShared(s, budget);
  }

  lemma SortedAvailable(s: seq<ReplicaSet>)
    requires Younger(s)
    ensures AllAvailable(s) && |s| == 3
  {
  }

  lemma EmptiesShared(olds: seq<ReplicaSet>, budget: nat)
    requires Younger(olds) && budget > 0
    ensures |olds| in CFG.slack
    ensures multiset(ScaleDownShared(CFG, Target(2), olds, budget).list) == multiset(olds) + multiset{Resized(CFG, Target(2), 0)}
  {
    hide Total, Younger, MaxUnavailable, ScaleDownLimitForOld, Shared, ScaleDownShared;
    SortedAvailable(olds);
    YoungerFacts(olds, 2);
    YoungerFront(olds);
    Numbers();
    FirstEmptied(CFG, Target(2), olds, budget);
    FirstExchanged(olds, Target(2), Resized(CFG, Target(2), 0));
  }

  lemma FirstEmptied(cfg: Config, newRS: ReplicaSet, olds: seq<ReplicaSet>, budget: nat)
    requires olds != [] && budget > 0 && newRS.size > 0 && Shared(olds, newRS)[0] == newRS
    requires Spare(cfg, newRS, olds) > 0 && SharedMost(cfg, newRS, olds) == newRS.size
    ensures ScaleDownShared(cfg, newRS, olds, budget).list == [Resized(cfg, newRS, 0)] + Shared(olds, newRS)[1..]
  {
    hide Spare, SharedMost, Shared, MaxSurge;
    var all := Shared(olds, newRS);
    var front := all[..|olds|];
    NothingDrained(cfg, front[1..], 0, budget - 1);
    assert front[0] == newRS;
    assert Drain(cfg, front, newRS.size, budget).list == [Resized(cfg, newRS, 0)] + front[1..];
    assert front[1..] + [all[|olds|]] == all[1..];
  }

  lemma FirstExchanged(olds: seq<ReplicaSet>, x: ReplicaSet, y: ReplicaSet)
    requires Shared(olds, x)[0] == x
    ensures multiset([y] + Shared(olds, x)[1..]) == multiset(olds) + multiset{y}
  {
    hide Sorted;
    var all := Shared(olds, x);
    SortedPermutes(ByCreation, olds + [x]);
    HeadCounts(all);
    assert multiset(all) == multiset(olds) + multiset{x};
    assert multiset(all[1..]) == multiset(all) - multiset{x};
  }

  lemma YoungerFront(olds: seq<ReplicaSet>)
    requires Younger(olds)
    ensures Shared(olds, Target(2))[0] == Target(2) && Total(Size, Shared(olds, Target(2))[..3]) == 4
  {
    hide Sorted, Total;
    YoungerFacts(olds, 2);
    OldestIsFirst(olds, Target(2));
    FrontOfThree(olds, Target(2));
  }

  lemma NeverThere(olds: seq<ReplicaSet>, size: nat)
    requires Younger(olds) && size < 4
    ensures !Settled(CFG, olds + [Target(size)]) && NewSize(0, olds + [Target(size)]) == size
    ensures Listing(olds + [Target(size)]) && AllAvailable(olds + [Target(size)])
  {
    hide NewSize, OldTotal, Younger;
    var _ := SetsFacts(olds, size);
    YoungerFacts(olds, size);
    Numbers();
  }

  /** The sizes of the new set alternate between two and none for as long as one looks: in every
      reconcile all pods are available and no write is refused, and the batch is never reached. */
  lemma RollbackNeverCompletes(n: nat) returns (trace: seq<seq<ReplicaSet>>)
    ensures |trace| == n + 1 && IsRunAppended(CFG, trace) && ValidStrategy(CFG)
    ensures forall k :: 0 <= k <= n ==> AllAvailable(trace[k]) && !Settled(CFG, trace[k])
    ensures forall k :: 0 <= k <= n ==> NewSize(0, trace[k]) == if k % 2 == 0 then 2 else 0
  {
    hide Younger, NextAppended, NewSize, AllAvailable, Settled, Listing;
    var olds := YoungerExist();
    var a, b := olds + [Target(2)], olds + [Target(0)];
    NeverThere(olds, 2);
    NeverThere(olds, 0);
    Alternates(olds);
    trace := seq(n + 1, k => if k % 2 == 0 then a else b);
    forall k | 0 <= k < |trace| - 1 ensures NextAppended(CFG, trace[k], trace[k + 1]) {
      assert (k + 1) % 2 == 1 - k % 2;
    }
  }

  lemma Alternates(olds: seq<ReplicaSet>)
    requires Younger(olds)
    ensures NextAppended(CFG, olds + [Target(2)], olds + [Target(0)])
    ensures NextAppended(CFG, olds + [Target(0)], olds + [Target(2)])
  {
    hide UpgradeAppended, Observed;
    var id := Identity("unused", 10, 5);
    Empties(olds, id, 4);
    Refills(olds, id, 4);
    assert NextAppendedBy(CFG, olds + [Target(2)], olds + [Target(0)], id, 4);
    assert NextAppendedBy(CFG, olds + [Target(0)], olds + [Target(2)], id, 4);
  }
}
