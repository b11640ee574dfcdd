/**
  The four numbers that bound one batch: the wanted replicas, the surge, the tolerated
  unavailability and the partition limit (pkg/util/deployment/deployment.go).
  Percentages are exact; a text that is not a percentage is `Malformed`.
 */
module Limits {
  import opened Base

  datatype IntOrString = Int(i: int) | Percent(p: int) | Malformed

  /** The identity of a pod template; hashing a template is taken to be injective. */
  type Template = nat

  /** What one reconcile reads from the deployment, the release status and the current step. */
  datatype Config = Config(
    replicas: nat,
    template: Template,
    surge: Option<IntOrString>,
    unavailable: Option<IntOrString>,
    partition: IntOrString,
    // the replica count the deployment status reports, the fallback of the proportional scaling
    statusReplicas: int,
    // what the platform makes of a non-finite float when it is converted to int32
    nonFinite: int,
    // the lengths at which a slice grown by appending has room for one more element
    slack: set<nat>)

  function ScaledValue(v: IntOrString, total: int, roundUp: bool): Option<int> {
    match v
    case Int(i) => Some(i)
    case Percent(p) => Some(if roundUp then (p * total + 99) / 100 else p * total / 100)
    case Malformed => None
  }

  function ValueOrZero(v: Option<IntOrString>): IntOrString {
    if v.Some? then v.value else Int(0)
  }

  /** Surge and unavailability in pods; None is the error return. */
  function ResolveFenceposts(maxSurge: Option<IntOrString>, maxUnavailable: Option<IntOrString>,
          desired: int): Option<(int, int)> {
    var surge := ScaledValue(ValueOrZero(maxSurge), desired, true);
    var unavailable := ScaledValue(ValueOrZero(maxUnavailable), desired, false);
    if surge.None? || unavailable.None? then None
    else if surge.value == 0 && unavailable.value == 0 then Some((0, 1))
    else Some((surge.value, unavailable.value))
  }

  /** The callers drop the error, so a malformed strategy reads as (0, 0). */
  function MaxSurge(cfg: Config): int {
    var posts := ResolveFenceposts(cfg.surge, cfg.unavailable, cfg.replicas);
    if posts.Some? then posts.value.0 else 0
  }

  function MaxUnavailable(cfg: Config): int {
    var posts := ResolveFenceposts(cfg.surge, cfg.unavailable, cfg.replicas);
    if cfg.replicas == 0 || posts.None? then 0 else Min(posts.value.1, cfg.replicas)
  }

  /** How many pods of the new version a partition allows. */
  function NewRSReplicasLimit(partition: IntOrString, replicas: int): int {
    var scaled := ScaledValue(partition, replicas, true);
    var limit := Max(Min(if scaled.Some? then scaled.value else 0, replicas), 0);
    if replicas > 1 && !partition.Int? && partition != Percent(100) then Min(limit, replicas - 1) else limit
  }

  function BatchLimit(cfg: Config): int {
    NewRSReplicasLimit(cfg.partition, cfg.replicas)
  }

  /** What API validation leaves of a threshold: no negative number and no malformed text. */
  predicate ValidThreshold(v: Option<IntOrString>) {
    match ValueOrZero(v)
    case Int(i) => i >= 0
    case Percent(p) => p >= 0
    case Malformed => false
  }

  predicate ValidStrategy(cfg: Config) {
    ValidThreshold(cfg.surge) && ValidThreshold(cfg.unavailable)
  }

  lemma ScaleMonotone(p: int, q: int, r: int)
    requires p <= q && r >= 0
    ensures p * r <= q * r
  {
  }

  /** A valid strategy always leaves room to move: no deployment can be stuck with surge 0 and
      unavailability 0, and both numbers are usable bounds. */
  lemma FencepostsLeaveRoom(cfg: Config)
    requires ValidStrategy(cfg)
    ensures MaxSurge(cfg) >= 0
    ensures 0 <= MaxUnavailable(cfg) <= cfg.replicas
    ensures cfg.replicas > 0 ==> MaxSurge(cfg) + MaxUnavailable(cfg) > 0
  {
    var s, u := ValueOrZero(cfg.surge), ValueOrZero(cfg.unavailable);
    if s.Percent? {
      ScaleMonotone(0, s.p, cfg.replicas);
    }
    if u.Percent? {
      ScaleMonotone(0, u.p, cfg.replicas);
    }
  }

  /** Only a malformed threshold can make the resolved pair (0, 0). */
  lemma BothZeroOnlyOnError(maxSurge: Option<IntOrString>, maxUnavailable: Option<IntOrString>, desired: int)
    ensures ResolveFenceposts(maxSurge, maxUnavailable, desired) != Some((0, 0))
    ensures ResolveFenceposts(maxSurge, maxUnavailable, desired).None?
            <==> ValueOrZero(maxSurge) == Malformed || ValueOrZero(maxUnavailable) == Malformed
  {
  }

  /** A threshold that is not given counts as none, one that cannot be read takes both away, and numbers
      are taken as they are, unless both are zero: then one pod may be unavailable. */
  lemma ThresholdsAsGiven(cfg: Config)
    ensures cfg.replicas == 0 ==> MaxUnavailable(cfg) == 0
    ensures cfg.surge == Some(Malformed) || cfg.unavailable == Some(Malformed) ==> MaxSurge(cfg) == 0 == MaxUnavailable(cfg)
    ensures cfg.surge.None? ==> MaxSurge(cfg) == 0
    ensures cfg.unavailable.None? && cfg.surge != Some(Malformed) && cfg.replicas > 0
            ==> MaxUnavailable(cfg) == if MaxSurge(cfg) == 0 then 1 else 0
    ensures forall s, u :: cfg.surge == Some(Int(s)) && cfg.unavailable == Some(Int(u)) && (s != 0 || u != 0) && cfg.replicas > 0
                           ==> MaxSurge(cfg) == s && MaxUnavailable(cfg) == Min(u, cfg.replicas)
  {
  }

  /** A percentage is rounded to the nearest pod above it or below it. */
  lemma ScaledValueRounds(p: int, total: int, roundUp: bool)
    ensures ScaledValue(Percent(p), total, roundUp).Some?
    ensures var v := ScaledValue(Percent(p), total, roundUp).value;
            if roundUp then 100 * v - 100 < p * total <= 100 * v else 100 * v <= p * total < 100 * v + 100
  {
  }

  /** Surge is rounded up and unavailability down; only when both come out as zero is one pod
      more allowed to be unavailable. */
  lemma FencepostsRound(s: int, u: int, desired: int)
    ensures ResolveFenceposts(Some(Percent(s)), Some(Percent(u)), desired).Some?
    ensures var (surge, unavailable) := ResolveFenceposts(Some(Percent(s)), Some(Percent(u)), desired).value;
            && 100 * surge - 100 < s * desired <= 100 * surge
            && (if -100 < s * desired <= 0 <= u * desired < 100 then unavailable == 1
                else 100 * unavailable <= u * desired < 100 * unavailable + 100)
  {
    ScaledValueRounds(s, desired, true);
    ScaledValueRounds(u, desired, false);
  }

  /** Between 0% and 100% the limit is the share rounded up, held one pod below the whole as
      soon as there are two. */
  lemma LimitIsRoundedShare(p: int, replicas: nat)
    requires 0 <= p < 100
    ensures var limit := NewRSReplicasLimit(Percent(p), replicas);
            && 100 * limit - 100 < p * replicas
            && (p * replicas <= 100 * limit || (replicas > 1 && limit == replicas - 1))
  {
    ScaledValueRounds(p, replicas, true);
    ScaleMonotone(0, p, replicas);
    ScaleMonotone(p, 100, replicas);
  }

  /** Any partition asks for at least 0 and at most all of the replicas. */
  lemma LimitInRange(partition: IntOrString, replicas: nat)
    ensures 0 <= NewRSReplicasLimit(partition, replicas) <= replicas
  {
  }

  /** A step given as a number asks for as many pods, held within what there is to have; a text that
      is not a percentage asks for none. */
  lemma LimitOfCount(i: int, replicas: nat)
    ensures NewRSReplicasLimit(Int(i), replicas) == Max(0, Min(i, replicas))
    ensures NewRSReplicasLimit(Malformed, replicas) == 0
  {
  }

  /** The whole deployment is reached at 100%, and below 100% at least one old pod remains
      as soon as there are two replicas. */
  lemma LimitAtEnds(p: int, replicas: nat)
    ensures NewRSReplicasLimit(Percent(100), replicas) == replicas
    ensures p != 100 && replicas > 1 ==> NewRSReplicasLimit(Percent(p), replicas) <= replicas - 1
    ensures p <= 0 ==> NewRSReplicasLimit(Percent(p), replicas) == 0
  {
    if p <= 0 {
      ScaleMonotone(p, 0, replicas);
    }
  }

  /** A later, larger percentage never asks for fewer new pods, except that a text above 100%
      is held one pod below the full deployment that 100% itself reaches. */
  lemma LimitMonotoneInPercent(p: int, q: int, replicas: nat)
    requires p <= q
    ensures NewRSReplicasLimit(Percent(p), replicas) <= NewRSReplicasLimit(Percent(q), replicas)
            <==> !(replicas > 1 && p == 100 && q > 100)
  {
    ScaleMonotone(p, q, replicas);
    if q == 100 {
      LimitAtEnds(p, replicas);
      LimitInRange(Percent(p), replicas);
    }
    if p == 100 && q > 100 {
      ScaleMonotone(100, q, replicas);
    }
  }

  /** Growing the deployment never lowers the limit of a percentage step. */
  lemma LimitMonotoneInReplicas(p: int, r: nat, t: nat)
    requires r <= t
    ensures NewRSReplicasLimit(Percent(p), r) <= NewRSReplicasLimit(Percent(p), t)
  {
    if p <= 0 {
      LimitAtEnds(p, r);
      LimitAtEnds(p, t);
    } else {
      ScaleMonotone(r, t, p);
      assert p * r <= p * t;
      if p > 100 {
        ScaleMonotone(100, p, r);
        ScaleMonotone(100, p, t);
      } else if p < 100 && t > 1 {
        ScaleMonotone(p, 100, r);
        PositiveShare(p, t);
        if r == t { } else {
          assert NewRSReplicasLimit(Percent(p), r) <= r <= t - 1;
        }
      }
    }
  }

  lemma PositiveShare(p: int, t: nat)
    requires p > 0 && t > 0
    ensures p * t >= 1
  {
  }
}
