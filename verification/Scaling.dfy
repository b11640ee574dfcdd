/**
  What one Upgrade reconcile makes of the replica sets, as functions of the listing
  (internal/controller/partition/executor.go). `budget` is the number of replica-set writes the
  API server still accepts: a reconcile stops writing replica sets at its first failed write,
  so a budget covers every way the writes can fail.
 */
module Scaling {
  import opened Base
  import opened Limits
  import opened ReplicaSets
  import opened Ordering

  // ---- one write ----

  /** The copy that is written: the new size and both replica annotations. */
  function Resized(cfg: Config, rs: ReplicaSet, size: int): ReplicaSet {
    rs.(size := size, desired := Some(cfg.replicas), maxReplicas := Some(cfg.replicas + MaxSurge(cfg)))
  }

  predicate NeedsWrite(cfg: Config, rs: ReplicaSet, size: int) {
    rs != Resized(cfg, rs, size)
  }

  // ---- the old replica sets ----

  /** A pass over a list of sets: the sets as they are stored afterwards, how many replicas the
      pass removed, the writes left, and whether it ended without an error. */
  datatype Pass = Pass(list: seq<ReplicaSet>, removed: int, budget: nat, ok: bool)

  function Prepend(rs: ReplicaSet, removed: int, p: Pass): Pass {
    p.(list := [rs] + p.list, removed := removed + p.removed)
  }

  /** Lower each set by its unhealthy replicas, at most `most` in all. A set that reports more
      available pods than it asked for ends the pass with an error. */
  function Cleanup(cfg: Config, rss: seq<ReplicaSet>, most: int, budget: nat): Pass {
    if rss == [] || most <= 0 then Pass(rss, 0, budget, true)
    else if rss[0].size == 0 || rss[0].size == rss[0].available then
      Prepend(rss[0], 0, Cleanup(cfg, rss[1..], most, budget))
    else
      var count := Min(most, rss[0].size - rss[0].available);
      if count < 0 || budget == 0 then Pass(rss, 0, budget, false)
      else Prepend(Resized(cfg, rss[0], rss[0].size - count), count, Cleanup(cfg, rss[1..], most - count, budget - 1))
  }

  /** Lower the sets in list order, each down to zero before the next, `most` replicas in all. */
  function Drain(cfg: Config, rss: seq<ReplicaSet>, most: int, budget: nat): Pass {
    if rss == [] || most <= 0 then Pass(rss, 0, budget, true)
    else if rss[0].size == 0 then Prepend(rss[0], 0, Drain(cfg, rss[1..], most, budget))
    else
      var count := Min(rss[0].size, most);
      if count < 0 || budget == 0 then Pass(rss, 0, budget, false)
      else Prepend(Resized(cfg, rss[0], rss[0].size - count), count, Drain(cfg, rss[1..], most - count, budget - 1))
  }

  /** How many old replicas the partition lets go; negative when too few are left. */
  function ScaleDownLimitForOld(cfg: Config, oldPods: int, newSize: int): int {
    oldPods - (cfg.replicas - Max(BatchLimit(cfg), newSize))
  }

  /** The order of the slice that is drained: by revision. But where the slice of old sets has room
      for the new one, both lists are one array, and looking the new set up sorts it by creation. */
  function DrainOrder(cfg: Config, olds: seq<ReplicaSet>): Order {
    if |olds| in cfg.slack then ByCreation else BySmallerRevision
  }

  function ScaleDownOld(cfg: Config, newRS: ReplicaSet, olds: seq<ReplicaSet>, budget: nat): Pass {
    var spare := Total(Available, olds) + newRS.available - (cfg.replicas - MaxUnavailable(cfg));
    if spare <= 0 then Pass(olds, 0, budget, true)
    else
      var limit := ScaleDownLimitForOld(cfg, Total(Size, olds), newRS.size);
      Drain(cfg, Sorted(DrainOrder(cfg, olds), olds), Min(spare, limit), budget)
  }

  /** The outcome of reconciling the old sets. Errors of the two scale-down passes are dropped
      by the source: they read as `scaled == false` without an error. */
  datatype OldPass = OldPass(list: seq<ReplicaSet>, scaled: bool, budget: nat, ok: bool)

  function ScaleUpOld(cfg: Config, olds: seq<ReplicaSet>, count: int, budget: nat): OldPass {
    if count <= 0 || olds == [] then OldPass(olds, false, budget, true)
    else
      var s := Sorted(BySizeOlder, olds);
      if s == [] || budget == 0 then OldPass(s, false, budget, false)
      else OldPass([Resized(cfg, s[0], s[0].size + count)] + s[1..], true, budget - 1, true)
  }

  /** How many replicas may go in all: bounded by availability and by the partition. */
  function MaxScaledDown(cfg: Config, newRS: ReplicaSet, oldPods: int, allPods: int): int {
    var minAvailable := cfg.replicas - MaxUnavailable(cfg);
    Min(allPods - minAvailable - (newRS.size - newRS.available), ScaleDownLimitForOld(cfg, oldPods, newRS.size))
  }

  /** `olds` are the active old sets, `allPods` the size of all sets together. */
  function ReconcileOld(cfg: Config, newRS: ReplicaSet, olds: seq<ReplicaSet>, allPods: int, budget: nat): OldPass {
    var oldPods := Total(Size, olds);
    var limit := ScaleDownLimitForOld(cfg, oldPods, newRS.size);
    var most := MaxScaledDown(cfg, newRS, oldPods, allPods);
    if oldPods == 0 then OldPass(olds, false, budget, true)
    else if limit <= 0 then ScaleUpOld(cfg, olds, -limit, budget)
    else if most <= 0 then OldPass(olds, false, budget, true)
    else
      var cleaned := Cleanup(cfg, Sorted(ByCreation, olds), most, budget);
      if !cleaned.ok then OldPass(cleaned.list, false, cleaned.budget, true)
      else
        var drained := ScaleDownOld(cfg, newRS, cleaned.list, cleaned.budget);
        OldPass(drained.list, drained.ok && cleaned.removed + drained.removed > 0, drained.budget, true)
  }

  // ---- the new replica set ----

  /** The size a growing new set is given, `allPods` counting it too. */
  function NewRSNewReplicas(cfg: Config, size: int, allPods: int): int {
    var limit := BatchLimit(cfg);
    var maxTotal := cfg.replicas + MaxSurge(cfg);
    if allPods > size then
      if size >= limit || allPods >= maxTotal then size
      else Min(size + Min(maxTotal - allPods, cfg.replicas - size), limit)
    else cfg.replicas
  }

  function NewTarget(cfg: Config, size: int, allPods: int): int {
    if size >= cfg.replicas then cfg.replicas else NewRSNewReplicas(cfg, size, allPods)
  }

  /** Without surge the new set starts with one pod, so that it is never created empty. */
  function NewRSReplicasLowerBound(cfg: Config): int {
    if MaxSurge(cfg) > 0 then 0 else Min(1, cfg.replicas)
  }

  function MaxRevision(rss: seq<ReplicaSet>): int {
    if rss == [] then 0
    else Max(MaxRevision(rss[1..]), RevisionNumber(rss[0]))
  }

  /** The revision of a set about to be created: the successor in int64, written only when it is
      above the 0 that the missing annotation counts as. */
  function NextRevision(olds: seq<ReplicaSet>): Revision {
    var next := Int64(MaxRevision(olds) + 1);
    if next > 0 then Number(next) else Absent
  }

  /** A found set with its revision raised above the old ones, unless its annotation does not parse
      or is as high already. */
  function Renumbered(rs: ReplicaSet, olds: seq<ReplicaSet>): ReplicaSet {
    var next := Int64(MaxRevision(olds) + 1);
    if !rs.revision.Garbled? && RevisionNumber(rs) < next then rs.(revision := Number(next)) else rs
  }

  /** What the API server gives a created object. */
  datatype Identity = Identity(name: string, uid: nat, created: int)

  function Created(cfg: Config, olds: seq<ReplicaSet>, id: Identity): ReplicaSet {
    ReplicaSet(id.name, id.uid, id.created, cfg.template, NextRevision(olds),
               Max(NewRSNewReplicas(cfg, 0, Total(Size, olds)), NewRSReplicasLowerBound(cfg)), 0,
               Some(cfg.replicas), Some(cfg.replicas + MaxSurge(cfg)))
  }

  // ---- one Upgrade reconcile ----

  /** Failed: the reconcile returns an error. Scaled: it changed a size and stops there.
      Quiet: it goes on to ask whether the batch is ready. */
  datatype Outcome = Failed | Scaled | Quiet

  datatype Upgraded = Upgraded(list: seq<ReplicaSet>, outcome: Outcome)

  function UpgradeFound(cfg: Config, newRS: ReplicaSet, olds: seq<ReplicaSet>, budget: nat): Upgraded {
    var allPods := Total(Size, olds) + newRS.size;
    var target := NewTarget(cfg, newRS.size, allPods);
    if target != newRS.size then
      if budget == 0 then Upgraded(olds + [newRS], Failed)
      else Upgraded(olds + [Resized(cfg, newRS, target)], Scaled)
    else
      var r := ReconcileOld(cfg, newRS, Active(olds), allPods, budget);
      Upgraded(Inactive(olds) + r.list + [newRS], if !r.ok then Failed else if r.scaled then Scaled else Quiet)
  }

  /** The stored sets after an Upgrade reconcile over the listing `rss`. */
  function Upgrade(cfg: Config, rss: seq<ReplicaSet>, id: Identity, budget: nat): Upgraded {
    var found := NewOf(cfg.template, rss);
    var olds := OldsOf(cfg.template, rss);
    if found.Some? then UpgradeFound(cfg, found.value, olds, budget)
    else if budget == 0 then Upgraded(rss, Failed)
    else UpgradeFound(cfg, Created(cfg, olds, id), olds, budget - 1)
  }
}
