/** Conservation, rounding and settling of the proportional scaling. */
module ProportionalFacts {
  import opened Base
  import opened Limits
  import opened ReplicaSets
  import opened Ordering
  import opened Scaling
  import opened ScalingFacts
  import opened UpgradeFacts
  import opened Proportional
  import PassFacts

  // ---- the running sum ----

  /** `added` has not passed `toAdd` in the direction of the scaling. */
  predicate Within(toAdd: int, added: int) {
    if toAdd >= 0 then added <= toAdd else added >= toAdd
  }

  /** After every set of the list what has been given stays within what is to be given, for any
      annotations, any overflow and any value of a division by zero. */
  lemma {:induction false} AddedNeverPasses(cfg: Config, rss: seq<ReplicaSet>, toAdd: int, added: int, k: nat)
    requires Within(toAdd, added) && k <= |rss|
    ensures Within(toAdd, added + Sum(Proportions(cfg, rss, toAdd, added)[..k]))
  {
    if k > 0 {
      var p := GetProportion(cfg, rss[0], toAdd, added);
      var ps, rest := Proportions(cfg, rss, toAdd, added), Proportions(cfg, rss[1..], toAdd, added + p);
      AddedNeverPasses(cfg, rss[1..], toAdd, added + p, k - 1);
      assert ps[..k] == [p] + rest[..k - 1];
      assert ps[..k][1..] == rest[..k - 1];
    }
  }

  // ---- no negative size ----

  /** The product that is divided fits int32 and the annotation it is divided by is positive. */
  predicate Representable(cfg: Config, rs: ReplicaSet) {
    && rs.size > 0 && AnnotatedReplicas(cfg, rs) > 0 && MaxSurge(cfg) >= 0
    && rs.size * (cfg.replicas + MaxSurge(cfg)) < TWO_31
  }

  ghost predicate AllRepresentable(cfg: Config, rss: seq<ReplicaSet>) {
    forall rs :: rs in rss ==> Representable(cfg, rs)
  }

  lemma Division(a: int, b: int)
    requires b > 0
    ensures a - b < b * (a / b) <= a
  {
    assert a == b * (a / b) + a % b;
  }

  /** Rounding is off by at most one half: twice the error in multiples of 1/q is at most q. */
  lemma RoundedQuotient(p: int, q: int)
    requires p >= 0 && q > 0
    ensures 0 <= RoundHalfAway(p, q) <= p
    ensures -q <= 2 * (q * RoundHalfAway(p, q)) - 2 * p <= q
  {
    var m := (2 * p + q) / (2 * q);
    assert m == RoundHalfAway(p, q);
    Division(2 * p + q, 2 * q);
    assert (2 * q) * m == 2 * (q * m);
    if m < 0 {
      ScaleMonotone(m, -1, q);
    }
    ScaleMonotone(1, q, p);
    assert (p + 1) * q == p * q + q;
    if m > p {
      ScaleMonotone(p + 1, m, q);
    }
  }

  lemma Int32Fits(x: int)
    requires FitsInt32(x)
    ensures Int32(x) == x
  {
  }

  /** With representable numbers the fraction is the rounded share, and never removes more than
      the set has. */
  lemma FractionIsShare(cfg: Config, rs: ReplicaSet)
    requires Representable(cfg, rs)
    ensures rs.size * (cfg.replicas + MaxSurge(cfg)) >= 0
    ensures cfg.replicas > 0 ==>
              GetReplicaSetFraction(cfg, rs)
              == RoundHalfAway(rs.size * (cfg.replicas + MaxSurge(cfg)), AnnotatedReplicas(cfg, rs)) - rs.size
    ensures GetReplicaSetFraction(cfg, rs) >= -rs.size
  {
    hide MaxSurge, Int32, RoundHalfAway;
    var wanted := cfg.replicas + MaxSurge(cfg);
    ScaleMonotone(1, rs.size, wanted);
    if cfg.replicas > 0 {
      ScaleMonotone(1, wanted, rs.size);
      var product := rs.size * wanted;
      var share := RoundHalfAway(product, AnnotatedReplicas(cfg, rs));
      RoundedQuotient(product, AnnotatedReplicas(cfg, rs));
      Int32Fits(wanted);
      Int32Fits(product);
      Int32Fits(share - rs.size);
    }
  }

  lemma {:induction false} ShareKeepsSize(cfg: Config, rss: seq<ReplicaSet>, toAdd: int, added: int, i: nat)
    requires AllRepresentable(cfg, rss) && Within(toAdd, added) && i < |rss|
    ensures rss[i].size + Proportions(cfg, rss, toAdd, added)[i] >= 0
  {
    FractionIsShare(cfg, rss[0]);
    if i > 0 {
      assert forall x :: x in rss[1..] ==> x in rss;
      ShareKeepsSize(cfg, rss[1..], toAdd, added + GetProportion(cfg, rss[0], toAdd, added), i - 1);
    }
  }

  lemma TargetsNonNegative(cfg: Config, rss: seq<ReplicaSet>, toAdd: int)
    requires AllRepresentable(cfg, rss)
    ensures forall i :: 0 <= i < |rss| ==> Targets(cfg, rss, toAdd)[i] >= 0
    ensures toAdd > 0 && rss != [] ==> FirstTarget(cfg, rss, toAdd) >= 0
  {
    forall i | 0 <= i < |rss| ensures rss[i].size + Proportions(cfg, rss, toAdd, 0)[i] >= 0 {
      ShareKeepsSize(cfg, rss, toAdd, 0, i);
    }
    var ps := Proportions(cfg, rss, toAdd, 0);
    AddedNeverPasses(cfg, rss, toAdd, 0, |rss|);
    assert ps[..|rss|] == ps;
  }

  /** A set whose annotation is no smaller than what the deployment may have now only shrinks. */
  lemma FractionShrinks(cfg: Config, rs: ReplicaSet)
    requires Representable(cfg, rs) && AnnotatedReplicas(cfg, rs) >= cfg.replicas + MaxSurge(cfg)
    ensures -rs.size <= GetReplicaSetFraction(cfg, rs) <= 0
  {
    hide MaxSurge, Int32, RoundHalfAway;
    FractionIsShare(cfg, rs);
    if cfg.replicas > 0 {
      var wanted, q := cfg.replicas + MaxSurge(cfg), AnnotatedReplicas(cfg, rs);
      var share := RoundHalfAway(rs.size * wanted, q);
      RoundedQuotient(rs.size * wanted, q);
      ScaleMonotone(wanted, q, rs.size);
      if share > rs.size {
        ScaleMonotone(rs.size + 1, share, q);
      }
    }
  }

  // ---- what the sets take when shrinking ----

  function FractionSum(cfg: Config, rss: seq<ReplicaSet>): int {
    if rss == [] then 0 else GetReplicaSetFraction(cfg, rss[0]) + FractionSum(cfg, rss[1..])
  }

  /** The fractions of the first few sets alone come down to `allowed`, which is not positive. */
  predicate Exhausts(cfg: Config, rss: seq<ReplicaSet>, allowed: int) {
    allowed >= 0 || (rss != [] && Exhausts(cfg, rss[1..], allowed - GetReplicaSetFraction(cfg, rss[0])))
  }

  /** Shrinking, the sets together take the sum of their fractions, unless some of them already
      take everything. */
  lemma {:induction false} ProportionsShrink(cfg: Config, rss: seq<ReplicaSet>, toAdd: int, added: int)
    requires toAdd < 0 && toAdd <= added && forall rs :: rs in rss ==> rs.size != 0
    ensures Sum(Proportions(cfg, rss, toAdd, added))
            == if Exhausts(cfg, rss, toAdd - added) then toAdd - added else FractionSum(cfg, rss)
  {
    hide GetReplicaSetFraction;
    if rss != [] {
      var p := GetProportion(cfg, rss[0], toAdd, added);
      assert rss[0] in rss && forall x :: x in rss[1..] ==> x in rss;
      DoneStays(cfg, rss[1..], toAdd);
      ProportionsShrink(cfg, rss[1..], toAdd, added + p);
    }
  }

  /** With fractions that do not grow any set the order in which they are taken does not matter. */
  lemma {:induction false} ExhaustsBySum(cfg: Config, rss: seq<ReplicaSet>, allowed: int)
    requires allowed <= 0 && forall rs :: rs in rss ==> GetReplicaSetFraction(cfg, rs) <= 0
    ensures Exhausts(cfg, rss, allowed) <==> FractionSum(cfg, rss) <= allowed
  {
    hide GetReplicaSetFraction;
    if rss != [] {
      assert rss[0] in rss && forall x :: x in rss[1..] ==> x in rss;
      FractionSumNegative(cfg, rss[1..]);
      if allowed - GetReplicaSetFraction(cfg, rss[0]) <= 0 {
        ExhaustsBySum(cfg, rss[1..], allowed - GetReplicaSetFraction(cfg, rss[0]));
      }
    }
  }

  lemma {:induction false} FractionSumNegative(cfg: Config, rss: seq<ReplicaSet>)
    requires forall rs :: rs in rss ==> GetReplicaSetFraction(cfg, rs) <= 0
    ensures FractionSum(cfg, rss) <= 0
  {
    hide GetReplicaSetFraction;
    if rss != [] {
      assert rss[0] in rss && forall x :: x in rss[1..] ==> x in rss;
      FractionSumNegative(cfg, rss[1..]);
    }
  }

  /** What stays above the wanted total when all sets but the first keep their shares and the
      first goes to zero. */
  function Unabsorbed(cfg: Config, rss: seq<ReplicaSet>): nat
    requires rss != []
  {
    var toAdd, rest := cfg.replicas - Total(Size, rss), rss[1..];
    if Exhausts(cfg, rest, toAdd - Max(GetReplicaSetFraction(cfg, rss[0]), toAdd)) then 0
    else Positive(Total(Size, rest) + FractionSum(cfg, rest) - cfg.replicas)
  }

  /** The first set would have to go below zero by exactly that. */
  lemma FirstTargetExactly(cfg: Config, rss: seq<ReplicaSet>)
    requires rss != [] && Total(Size, rss) > cfg.replicas && forall rs :: rs in rss ==> rs.size > 0
    requires GetReplicaSetFraction(cfg, rss[0]) >= -rss[0].size
    ensures Positive(-FirstTarget(cfg, rss, cfg.replicas - Total(Size, rss))) == Unabsorbed(cfg, rss)
    ensures (forall rs :: rs in rss ==> GetReplicaSetFraction(cfg, rs) <= 0)
            ==> Unabsorbed(cfg, rss) == Positive(Total(Size, rss[1..]) + FractionSum(cfg, rss[1..]) - cfg.replicas)
  {
    hide GetReplicaSetFraction, Total;
    TotalHead(rss);
    var toAdd, rest := cfg.replicas - Total(Size, rss), rss[1..];
    assert rss[0] in rss && forall x :: x in rest ==> x in rss;
    var p := GetProportion(cfg, rss[0], toAdd, 0);
    assert Proportions(cfg, rss, toAdd, 0) == [p] + Proportions(cfg, rest, toAdd, p);
    ProportionsShrink(cfg, rest, toAdd, p);
    if forall rs :: rs in rss ==> GetReplicaSetFraction(cfg, rs) <= 0 {
      ExhaustsBySum(cfg, rest, toAdd - p);
    }
  }

  // ---- what the sets take when growing ----

  /** A set whose annotation is no larger than what the deployment may have now only grows. */
  lemma FractionGrows(cfg: Config, rs: ReplicaSet)
    requires Representable(cfg, rs) && AnnotatedReplicas(cfg, rs) <= cfg.replicas + MaxSurge(cfg) && cfg.replicas > 0
    ensures GetReplicaSetFraction(cfg, rs) >= 0
  {
    hide MaxSurge, Int32, RoundHalfAway;
    FractionIsShare(cfg, rs);
    var wanted, q := cfg.replicas + MaxSurge(cfg), AnnotatedReplicas(cfg, rs);
    var share := RoundHalfAway(rs.size * wanted, q);
    RoundedQuotient(rs.size * wanted, q);
    ScaleMonotone(q, wanted, rs.size);
    if share < rs.size {
      ScaleMonotone(share, rs.size - 1, q);
    }
  }

  /** Growing, the sets together take the sum of their fractions or all there is. */
  lemma {:induction false} ProportionsGrow(cfg: Config, rss: seq<ReplicaSet>, toAdd: int, added: int)
    requires toAdd > 0 && added <= toAdd && forall rs :: rs in rss ==> rs.size != 0 && GetReplicaSetFraction(cfg, rs) >= 0
    ensures Sum(Proportions(cfg, rss, toAdd, added)) == Min(FractionSum(cfg, rss), toAdd - added)
    ensures FractionSum(cfg, rss) >= 0
  {
    hide GetReplicaSetFraction;
    if rss != [] {
      var p := GetProportion(cfg, rss[0], toAdd, added);
      assert rss[0] in rss && forall x :: x in rss[1..] ==> x in rss;
      ProportionsGrow(cfg, rss[1..], toAdd, added + p);
    }
  }

  lemma {:induction false} ProportionsPrefix(cfg: Config, rss: seq<ReplicaSet>, toAdd: int, added: int, i: nat)
    requires i <= |rss|
    ensures Proportions(cfg, rss, toAdd, added)[..i] == Proportions(cfg, rss[..i], toAdd, added)
  {
    hide GetProportion;
    if i > 0 {
      var p := GetProportion(cfg, rss[0], toAdd, added);
      ProportionsPrefix(cfg, rss[1..], toAdd, added + p, i - 1);
      assert rss[..i][0] == rss[0] && rss[..i][1..] == rss[1..][..i - 1];
      assert Proportions(cfg, rss, toAdd, added)[..i] == [p] + Proportions(cfg, rss[1..], toAdd, added + p)[..i - 1];
    }
  }

  /** Each takes its own as long as the fractions before it leave enough. */
  lemma ProportionGrown(cfg: Config, rss: seq<ReplicaSet>, toAdd: int, i: nat)
    requires toAdd > 0 && i < |rss| && forall rs :: rs in rss ==> rs.size != 0 && GetReplicaSetFraction(cfg, rs) >= 0
    ensures Proportions(cfg, rss, toAdd, 0)[i] == Positive(Min(GetReplicaSetFraction(cfg, rss[i]), toAdd - FractionSum(cfg, rss[..i])))
  {
    hide GetReplicaSetFraction, Proportions, FractionSum;
    PassFacts.ProportionAt(cfg, rss, toAdd, 0, i);
    ProportionsPrefix(cfg, rss, toAdd, 0, i);
    ProportionsGrow(cfg, rss[..i], toAdd, 0);
    assert rss[i] in rss;
  }

  /** The size of the i-th set of a growing distribution. */
  function GrownSize(cfg: Config, rss: seq<ReplicaSet>, i: nat): int
    requires i < |rss|
  {
    var toAdd, f := cfg.replicas - Total(Size, rss), GetReplicaSetFraction(cfg, rss[i]);
    if i > 0 then rss[i].size + Positive(Min(f, toAdd - FractionSum(cfg, rss[..i])))
    else cfg.replicas - Total(Size, rss[1..]) - Min(FractionSum(cfg, rss[1..]), toAdd - Min(f, toAdd))
  }

  lemma GrownTarget(cfg: Config, rss: seq<ReplicaSet>, i: nat)
    requires i < |rss| && Total(Size, rss) < cfg.replicas
    requires forall rs :: rs in rss ==> rs.size > 0 && GetReplicaSetFraction(cfg, rs) >= 0
    ensures Targets(cfg, rss, cfg.replicas - Total(Size, rss))[i] == GrownSize(cfg, rss, i)
  {
    hide GetReplicaSetFraction, Total, Proportions, FractionSum, Sum;
    var toAdd := cfg.replicas - Total(Size, rss);
    if i > 0 {
      ProportionGrown(cfg, rss, toAdd, i);
    } else {
      GrownFirst(cfg, rss);
    }
  }

  lemma GrownFirst(cfg: Config, rss: seq<ReplicaSet>)
    requires rss != [] && Total(Size, rss) < cfg.replicas
    requires forall rs :: rs in rss ==> rs.size > 0 && GetReplicaSetFraction(cfg, rs) >= 0
    ensures FirstTarget(cfg, rss, cfg.replicas - Total(Size, rss)) == GrownSize(cfg, rss, 0) >= 0
  {
    hide GetReplicaSetFraction, Total;
    TotalHead(rss);
    var toAdd := cfg.replicas - Total(Size, rss);
    var p := GetProportion(cfg, rss[0], toAdd, 0);
    assert rss[0] in rss && forall x :: x in rss[1..] ==> x in rss;
    ProportionsGrow(cfg, rss[1..], toAdd, p);
    assert Proportions(cfg, rss, toAdd, 0) == [p] + Proportions(cfg, rss[1..], toAdd, p);
  }

  // ---- conservation ----

  lemma {:induction false} SumOfSums(rss: seq<ReplicaSet>, ps: seq<int>, ts: seq<int>)
    requires |ps| == |rss| == |ts| && forall i :: 0 <= i < |rss| ==> ts[i] == rss[i].size + ps[i]
    ensures Sum(ts) == Total(Size, rss) + Sum(ps)
  {
    if rss != [] {
      SumOfSums(rss[1..], ps[1..], ts[1..]);
    }
  }

  lemma ProportionsZero(cfg: Config, rss: seq<ReplicaSet>, added: int)
    ensures forall i :: 0 <= i < |rss| ==> Proportions(cfg, rss, 0, added)[i] == 0
    ensures Sum(Proportions(cfg, rss, 0, added)) == 0
  {
  }

  /** The targets add up to exactly the sizes plus what was to be added, plus what the first set
      would have had to go below zero for. No assumption on annotations. */
  lemma TargetsTotal(cfg: Config, rss: seq<ReplicaSet>, toAdd: int)
    requires rss != []
    ensures Sum(Targets(cfg, rss, toAdd))
            == Total(Size, rss) + toAdd + (if toAdd == 0 then 0 else Positive(-FirstTarget(cfg, rss, toAdd)))
  {
    var ps, ts := Proportions(cfg, rss, toAdd, 0), Targets(cfg, rss, toAdd);
    if toAdd == 0 {
      ProportionsZero(cfg, rss, 0);
      SumOfSums(rss, ps, ts);
    } else {
      SumOfSums(rss[1..], ps[1..], ts[1..]);
    }
  }

  lemma ZeroProportion(cfg: Config, rs: ReplicaSet, toAdd: int, added: int)
    requires cfg.replicas == 0 && rs.size > 0 && added <= 0 && toAdd <= added - rs.size
    ensures GetProportion(cfg, rs, toAdd, added) == -rs.size
  {
    hide MaxSurge, RoundToInt32;
  }

  /** A deployment scaled to zero takes every set to exactly zero. */
  lemma {:induction false} ScaleToZeroProportions(cfg: Config, rss: seq<ReplicaSet>, added: int)
    requires cfg.replicas == 0 && forall rs :: rs in rss ==> rs.size > 0
    ensures Total(Size, rss) >= 0
    ensures var toAdd := added - Total(Size, rss);
            added <= 0 ==> forall i :: 0 <= i < |rss| ==> Proportions(cfg, rss, toAdd, added)[i] == -rss[i].size
    ensures var toAdd := added - Total(Size, rss);
            added <= 0 ==> Sum(Proportions(cfg, rss, toAdd, added)) == -Total(Size, rss)
  {
    hide MaxSurge, RoundToInt32, Total, GetProportion;
    TotalOfNone();
    if rss != [] {
      TotalHead(rss);
      assert rss[0] in rss;
      assert forall x :: x in rss[1..] ==> x in rss;
      ScaleToZeroProportions(cfg, rss[1..], added - rss[0].size);
      if added <= 0 {
        ZeroProportion(cfg, rss[0], added - Total(Size, rss), added);
      }
    }
  }

  lemma {:induction false} WriteAllFacts(cfg: Config, rss: seq<ReplicaSet>, targets: seq<int>, budget: nat)
    requires |targets| == |rss|
    ensures var p := WriteAll(cfg, rss, targets, budget);
            && Ids(p.list) == Ids(rss)
            && (p.ok ==> && Total(Size, p.list) == Sum(targets)
                         && forall i :: 0 <= i < |rss| ==> p.list[i] == Resized(cfg, rss[i], targets[i]))
            && (budget >= |rss| ==> p.ok)
  {
    if rss != [] {
      var b := if NeedsWrite(cfg, rss[0], targets[0]) then budget - 1 else budget;
      if b >= 0 {
        WriteAllFacts(cfg, rss[1..], targets[1..], b);
        assert WriteAll(cfg, rss, targets, budget).list[1..] == WriteAll(cfg, rss[1..], targets[1..], b).list;
      }
    }
  }

  // ---- the rounding error ----

  lemma {:induction false} DoneStays(cfg: Config, rss: seq<ReplicaSet>, toAdd: int)
    ensures Sum(Proportions(cfg, rss, toAdd, toAdd)) == 0
  {
    if rss != [] {
      DoneStays(cfg, rss[1..], toAdd);
    }
  }

  /** Every set was last annotated when the deployment had its present total and no surge. */
  ghost predicate EvenlyAnnotated(cfg: Config, rss: seq<ReplicaSet>, total: int) {
    forall rs :: rs in rss ==> AnnotatedReplicas(cfg, rs) == total
  }

  lemma {:induction false} RoundingError(cfg: Config, rss: seq<ReplicaSet>, total: int, added: int)
    requires AllRepresentable(cfg, rss) && EvenlyAnnotated(cfg, rss, total) && MaxSurge(cfg) == 0 && cfg.replicas > 0
    requires total > 0 && cfg.replicas != total
    ensures var toAdd := cfg.replicas - total;
            var given := Sum(Proportions(cfg, rss, toAdd, added));
            || added + given == toAdd
            || -(total * |rss|) <= 2 * (total * given) - 2 * (toAdd * Total(Size, rss)) <= total * |rss|
  {
    hide MaxSurge, GetReplicaSetFraction;
    var toAdd := cfg.replicas - total;
    if rss != [] {
      var rs := rss[0];
      var p := GetProportion(cfg, rs, toAdd, added);
      assert rs in rss && forall x :: x in rss[1..] ==> x in rss;
      DoneStays(cfg, rss[1..], toAdd);
      RoundingError(cfg, rss[1..], total, added + p);
      FractionIsShare(cfg, rs);
      var share := RoundHalfAway(rs.size * cfg.replicas, total);
      RoundedQuotient(rs.size * cfg.replicas, total);
      if added + p != toAdd {
        assert p == share - rs.size;
        var given := Sum(Proportions(cfg, rss[1..], toAdd, added + p));
        ErrorStep(total, cfg.replicas, share, rs.size, given, Total(Size, rss[1..]), |rss| - 1);
      }
    }
  }

  /** One rounded share added to an error bound. */
  lemma ErrorStep(total: int, replicas: int, share: int, size: int, given: int, rest: int, k: int)
    requires -total <= 2 * (total * share) - 2 * (size * replicas) <= total
    ensures var toAdd := replicas - total;
            -(total * k) <= 2 * (total * given) - 2 * (toAdd * rest) <= total * k
            ==> -(total * (k + 1)) <= 2 * (total * (share - size + given)) - 2 * (toAdd * (size + rest)) <= total * (k + 1)
  {
    var toAdd := replicas - total;
    assert total * (share - size + given) == total * share - total * size + total * given;
    assert toAdd * (size + rest) == replicas * size - total * size + toAdd * rest;
    assert total * (k + 1) == total * k + total;
  }

  lemma RepresentableSizes(cfg: Config, rss: seq<ReplicaSet>)
    requires AllRepresentable(cfg, rss) && rss != []
    ensures Total(Size, rss) > 0
    ensures forall rs :: rs in rss ==> rs.size > 0
  {
    hide Total;
    TotalNonNegative(rss);
    assert rss[0] in rss;
  }

  /** What is left for the largest set is at most half a replica per active set. */
  lemma LeftoverBound(cfg: Config, rss: seq<ReplicaSet>)
    requires rss != [] && AllRepresentable(cfg, rss)
    requires EvenlyAnnotated(cfg, rss, Total(Size, rss)) && MaxSurge(cfg) == 0
    ensures var toAdd := cfg.replicas - Total(Size, rss);
            2 * Abs(toAdd - Sum(Proportions(cfg, rss, toAdd, 0))) <= |rss|
  {
    hide Total, Proportions, Sum, MaxSurge, AllRepresentable;
    var total := Total(Size, rss);
    var toAdd := cfg.replicas - total;
    var given := Sum(Proportions(cfg, rss, toAdd, 0));
    RepresentableSizes(cfg, rss);
    if toAdd == 0 {
      ProportionsZero(cfg, rss, 0);
    } else if cfg.replicas == 0 {
      ScaleToZeroProportions(cfg, rss, 0);
    } else {
      RoundingError(cfg, rss, total, 0);
      if given != toAdd {
        CancelTotal(total, given, toAdd, |rss|);
      }
    }
  }

  lemma CancelTotal(total: int, given: int, toAdd: int, k: int)
    requires total > 0 && -(total * k) <= 2 * (total * given) - 2 * (toAdd * total) <= total * k
    ensures 2 * Abs(toAdd - given) <= k
  {
    assert 2 * (total * given) - 2 * (toAdd * total) == total * (2 * (given - toAdd));
    Cancel(total, 2 * (given - toAdd), k);
  }

  lemma Cancel(t: int, a: int, b: int)
    requires t > 0 && -(t * b) <= t * a <= t * b
    ensures -b <= a <= b
  {
    assert (b + 1) * t == b * t + t && (-b - 1) * t == -(b * t) - t;
    if a > b {
      ScaleMonotone(b + 1, a, t);
    }
    if a < -b {
      ScaleMonotone(a, -b - 1, t);
    }
  }
}
