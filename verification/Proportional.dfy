/**
  Following a change of the deployment's replicas: the proportional scaling of all active sets
  (internal/controller/partition/executor.go, scale and GetProportion). int32 arithmetic is
  written out where it can wrap; the quotient is rounded exactly, half away from zero.
 */
module Proportional {
  import opened Base
  import opened Limits
  import opened ReplicaSets
  import opened Ordering
  import opened Scaling

  const TWO_31 := 0x8000_0000

  function Int32(x: int): int {
    (x + TWO_31) % (2 * TWO_31) - TWO_31
  }

  predicate FitsInt32(x: int) {
    -TWO_31 <= x < TWO_31
  }

  function RoundHalfAway(p: int, q: int): int
    requires q != 0
  {
    var magnitude := (2 * Abs(p) + Abs(q)) / (2 * Abs(q));
    if (p < 0) == (q < 0) then magnitude else -magnitude
  }

  /** The conversion of p / q to int32; a quotient without an int32 value is the platform's. */
  function RoundToInt32(p: int, q: int, nonFinite: int): int {
    if q == 0 || !FitsInt32(RoundHalfAway(p, q)) then nonFinite else RoundHalfAway(p, q)
  }

  function AnnotatedReplicas(cfg: Config, rs: ReplicaSet): int {
    if rs.maxReplicas.Some? then rs.maxReplicas.value else cfg.statusReplicas
  }

  /** By how much a set would change if it kept its share of the deployment. */
  function GetReplicaSetFraction(cfg: Config, rs: ReplicaSet): int {
    if cfg.replicas == 0 then -rs.size
    else
      var product := Int32(rs.size * Int32(cfg.replicas + MaxSurge(cfg)));
      Int32(RoundToInt32(product, AnnotatedReplicas(cfg, rs), cfg.nonFinite) - rs.size)
  }

  function GetProportion(cfg: Config, rs: ReplicaSet, toAdd: int, added: int): int {
    if rs.size == 0 || toAdd == 0 || toAdd == added then 0
    else
      var fraction := GetReplicaSetFraction(cfg, rs);
      var allowed := toAdd - added;
      if toAdd > 0 then Min(fraction, allowed) else Max(fraction, allowed)
  }

  function Sum(s: seq<int>): int {
    if s == [] then 0 else s[0] + Sum(s[1..])
  }

  /** What each set of the list is given, one after the other, `added` having been given before. */
  function Proportions(cfg: Config, rss: seq<ReplicaSet>, toAdd: int, added: int): (ps: seq<int>)
    ensures |ps| == |rss|
  {
    if rss == [] then []
    else
      var p := GetProportion(cfg, rss[0], toAdd, added);
      [p] + Proportions(cfg, rss[1..], toAdd, added + p)
  }

  /** The size of the first set before it is held at zero: it takes whatever the others leave. */
  function FirstTarget(cfg: Config, rss: seq<ReplicaSet>, toAdd: int): int
    requires rss != []
  {
    var ps := Proportions(cfg, rss, toAdd, 0);
    rss[0].size + ps[0] + (toAdd - Sum(ps))
  }

  /** The size every set of the list is scaled to. */
  function Targets(cfg: Config, rss: seq<ReplicaSet>, toAdd: int): (ts: seq<int>)
    ensures |ts| == |rss|
  {
    var ps := Proportions(cfg, rss, toAdd, 0);
    seq(|rss|, i requires 0 <= i < |rss| =>
      if i == 0 && toAdd != 0 then Max(0, FirstTarget(cfg, rss, toAdd)) else rss[i].size + ps[i])
  }

  /** Scale each set to its target; a set whose size and annotations are right is not written. */
  function WriteAll(cfg: Config, rss: seq<ReplicaSet>, targets: seq<int>, budget: nat): Pass
    requires |targets| == |rss|
  {
    if rss == [] then Pass([], 0, budget, true)
    else if !NeedsWrite(cfg, rss[0], targets[0]) then Prepend(rss[0], 0, WriteAll(cfg, rss[1..], targets[1..], budget))
    else if budget == 0 then Pass(rss, 0, 0, false)
    else Prepend(Resized(cfg, rss[0], targets[0]), rss[0].size - targets[0], WriteAll(cfg, rss[1..], targets[1..], budget - 1))
  }

  /** Scale every set of the list to zero, writing only those that are not there yet. */
  function ZeroAll(cfg: Config, rss: seq<ReplicaSet>, budget: nat): Pass {
    if rss == [] then Pass([], 0, budget, true)
    else if rss[0].size == 0 then Prepend(rss[0], 0, ZeroAll(cfg, rss[1..], budget))
    else if budget == 0 then Pass(rss, 0, 0, false)
    else Prepend(Resized(cfg, rss[0], 0), rss[0].size, ZeroAll(cfg, rss[1..], budget - 1))
  }

  function ToSeq(rs: Option<ReplicaSet>): seq<ReplicaSet> {
    if rs.Some? then [rs.value] else []
  }

  /** The only active set, or the newest when none is active; None when several are active. */
  function FindActiveOrLatest(newRS: Option<ReplicaSet>, olds: seq<ReplicaSet>): Option<ReplicaSet> {
    var newestFirst := Sorted(ByCreationReversed, olds);
    var active := Active(newestFirst + ToSeq(newRS));
    if |active| == 1 then Some(active[0])
    else if |active| > 1 then None
    else if newRS.Some? then newRS
    else if newestFirst == [] then None
    else Some(newestFirst[0])
  }

  predicate IsSaturated(cfg: Config, rs: Option<ReplicaSet>) {
    && rs.Some?
    && rs.value.size == cfg.replicas
    && rs.value.desired == Some(cfg.replicas)
    && rs.value.available == cfg.replicas
  }

  function ScalingOrder(toAdd: int): Order {
    if toAdd > 0 then BySizeNewer else BySizeOlder
  }

  function Arranged(active: seq<ReplicaSet>, toAdd: int): seq<ReplicaSet> {
    if toAdd == 0 then active else Sorted(ScalingOrder(toAdd), active)
  }

  /** All sets as they are stored afterwards, and whether the sync ended without an error. */
  datatype Synced = Synced(list: seq<ReplicaSet>, ok: bool)

  /** The old sets after the unhealthy replicas went, when there are too many replicas. */
  function CleanedOlds(cfg: Config, newRS: Option<ReplicaSet>, olds: seq<ReplicaSet>, budget: nat): Pass {
    var excess := Total(Size, Active(olds + ToSeq(newRS))) - cfg.replicas;
    if excess > 0 then Cleanup(cfg, Sorted(ByCreation, olds), excess, budget) else Pass(olds, 0, budget, true)
  }

  /** The distribution over `all`, the sets left after the cleanup. */
  function Spread(cfg: Config, all: seq<ReplicaSet>, budget: nat): Synced {
    var active := Active(all);
    var toAdd := cfg.replicas - Total(Size, active);
    var rss := Arranged(active, toAdd);
    var written := WriteAll(cfg, rss, Targets(cfg, rss, toAdd), budget);
    Synced(Inactive(all) + written.list, written.ok)
  }

  function Proportionally(cfg: Config, newRS: Option<ReplicaSet>, olds: seq<ReplicaSet>, budget: nat): Synced {
    var cleaned := CleanedOlds(cfg, newRS, olds, budget);
    if !cleaned.ok then Synced(cleaned.list + ToSeq(newRS), false)
    else Spread(cfg, cleaned.list + ToSeq(newRS), cleaned.budget)
  }

  function Scale(cfg: Config, newRS: Option<ReplicaSet>, olds: seq<ReplicaSet>, budget: nat): Synced {
    var newestFirst := Sorted(ByCreationReversed, olds);
    var single := FindActiveOrLatest(newRS, olds);
    if single.Some? then
      var rest := Without(single.value.uid, newestFirst + ToSeq(newRS));
      if single.value.size == cfg.replicas then Synced(rest + [single.value], true)
      else if budget == 0 then Synced(rest + [single.value], false)
      else Synced(rest + [Resized(cfg, single.value, cfg.replicas)], true)
    else if IsSaturated(cfg, newRS) then
      var zeroed := ZeroAll(cfg, Active(newestFirst), budget);
      Synced(Inactive(newestFirst) + zeroed.list + ToSeq(newRS), zeroed.ok)
    else Proportionally(cfg, newRS, newestFirst, budget)
  }

  /** A set still carries another replica count than the deployment's. */
  ghost predicate IsScalingEvent(cfg: Config, rss: seq<ReplicaSet>) {
    exists rs :: rs in rss && IsActive(rs) && rs.desired.Some? && rs.desired.value != cfg.replicas
  }
}
