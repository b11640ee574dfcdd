/**
  Runs of the whole controller: the state machine of the release and the replica sets it resizes,
  each reconcile computing what it does from both.
 */
module JointRuns {
  import opened Base
  import opened Limits
  import opened ReplicaSets
  import opened Ordering
  import opened Scaling
  import opened UpgradeFacts
  import opened RolloutRuns
  import opened BatchGate
  import P = Proportional
  import PS = ProportionalSync
  import R = Release
  import RR = ReleaseRuns
  import BP = BatchProgress

  /** What a reconcile of a rolling release meets besides the writes of the release objects. */
  datatype Meets = Meets(
    readable: bool,
    id: Identity,
    budget: nat,
    ready: int,
    patched: bool,
    statusReplicas: int,
    nonFinite: int,
    slack: set<nat>)

  datatype World = World(c: R.Cluster, rss: seq<ReplicaSet>, g: Gate)

  datatype Event =
    | Controller(x: R.Inputs, m: Meets)
    | Pods(rss: seq<ReplicaSet>)
    | User(e: R.Event)

  function ConfigOf(c: R.Cluster, m: Meets): Config
    requires R.IndexInRange(c, c.status)
  {
    Config(c.deployment.replicas, c.deployment.template, c.status.maxSurge, c.status.maxUnavailable,
           c.spec.steps[c.status.index], m.statusReplicas, m.nonFinite, m.slack)
  }

  /** The reconcile comes to the replica sets. */
  predicate Rolls(c: R.Cluster) {
    && !R.TemplateUpdated(c) && !c.annotations.mark && R.IndexInRange(c, c.status)
    && (c.status.phase == R.RollingUpdate || c.status.phase == R.RollingBack)
  }

  /** The replica sets after a rolling reconcile, and what the state machine sees of it. */
  ghost function Engine(c: R.Cluster, rss: seq<ReplicaSet>, m: Meets): (seq<ReplicaSet>, R.Rolling)
    requires Rolls(c)
  {
    var cfg := ConfigOf(c, m);
    if !m.readable then (rss, R.Unreadable)
    else if P.IsScalingEvent(cfg, rss) then
      var synced := P.Scale(cfg, NewOf(cfg.template, rss), OldsOf(cfg.template, rss), m.budget);
      (synced.list, if synced.ok && m.patched then R.SyncDone else R.SyncFailed)
    else if c.status.state == R.StepUpgrade then
      var u := Upgrade(cfg, rss, m.id, m.budget);
      (u.list, R.Stepped(u.outcome, m.ready, m.patched))
    else (rss, R.Stepped(Quiet, m.ready, m.patched))
  }

  ghost function NextWorld(w: World, e: Event): World {
    match e
    case Controller(x, m) =>
      if Rolls(w.c) then
        var (rss, rolling) := Engine(w.c, w.rss, m);
        var y := x.(rolling := rolling);
        World(R.Reconcile(w.c, y), rss, NextGate(w.c, R.Controller(y), w.g))
      else World(R.Reconcile(w.c, x), w.rss, NextGate(w.c, R.Controller(x), w.g))
    case Pods(rss) => w.(rss := rss)
    case User(e) => World(R.Apply(w.c, e), w.rss, NextGate(w.c, e, w.g))
  }

  /** Pods come and go, users only continue, and the Deployment keeps its size, whatever it reports. */
  ghost predicate Steady(w: World, e: Event) {
    match e
    case Controller(x, m) => Unused(m.id, w.rss)
    case Pods(rss) => Observed(w.rss, rss)
    case User(u) =>
      || u.Continue?
      || (u.Observe? && u.replicas == w.c.deployment.replicas)
  }

  ghost predicate SteadyRun(w: World, events: seq<Event>) {
    forall k :: 0 <= k < |events| ==> Steady(RunWorld(w, events[..k]), events[k])
  }

  ghost function RunWorld(w: World, events: seq<Event>): World {
    if events == [] then w else NextWorld(RunWorld(w, events[..|events| - 1]), events[|events| - 1])
  }

  lemma SteadyPrefix(w: World, events: seq<Event>)
    requires SteadyRun(w, events) && events != []
    ensures SteadyRun(w, events[..|events| - 1])
    ensures Steady(RunWorld(w, events[..|events| - 1]), events[|events| - 1])
  {
    var p := events[..|events| - 1];
    forall k | 0 <= k < |p| ensures Steady(RunWorld(w, p[..k]), p[k]) {
      assert p[..k] == events[..k];
      assert Steady(RunWorld(w, events[..k]), events[k]);
    }
  }

  // ---- one rolling reconcile, in sizes ----

  /** The new set only grows, and stays within any bound that the batch and its start respect as
      long as old pods are left. */
  ghost predicate SizesKept(cfg: Config, rss: seq<ReplicaSet>, list: seq<ReplicaSet>) {
    var n, o := NewSize(cfg.template, rss), OldTotal(cfg.template, rss);
    var n', o' := NewSize(cfg.template, list), OldTotal(cfg.template, list);
    && n <= n' <= cfg.replicas
    && (NewOf(cfg.template, list).None? ==> o' == o)
    && forall most, least :: Bounds(cfg, rss, most, least) ==> n' <= most && least <= o'
  }

  ghost predicate Bounds(cfg: Config, rss: seq<ReplicaSet>, most: int, least: int) {
    && PartitionBound(cfg, rss) <= most < cfg.replicas
    && 0 < least <= OldTotal(cfg.template, rss) && least <= cfg.replicas - most
  }

  lemma StepKeepsSizes(cfg: Config, n: int, o: int, n': int, o': int)
    requires SizesStep(cfg, n, o, n', o') && 0 <= n <= cfg.replicas && o >= 0
    ensures n <= n' <= cfg.replicas
  {
    LimitInRange(cfg.partition, cfg.replicas);
  }

  lemma StartInRange(cfg: Config, rss: seq<ReplicaSet>)
    requires Listing(rss) && NewSize(cfg.template, rss) <= cfg.replicas
    ensures NewSize(cfg.template, rss) <= StartSize(cfg, rss) <= cfg.replicas
    ensures OldTotal(cfg.template, rss) > 0 ==> StartSize(cfg, rss) <= PartitionBound(cfg, rss)
  {
    hide NewOf, OldsOf, Total, MaxSurge;
    SizesNonNegative(cfg.template, rss);
    LimitInRange(cfg.partition, cfg.replicas);
  }

  lemma UpgradeKeepsSizes(cfg: Config, rss: seq<ReplicaSet>, id: Identity, budget: nat)
    requires Listing(rss) && Unused(id, rss) && NewSize(cfg.template, rss) <= cfg.replicas
    ensures Listing(Upgrade(cfg, rss, id, budget).list)
    ensures SizesKept(cfg, rss, Upgrade(cfg, rss, id, budget).list)
  {
    hide NewOf, OldsOf, Total, Upgrade, SizesStep, PartitionBound;
    var list := Upgrade(cfg, rss, id, budget).list;
    var n', o' := NewSize(cfg.template, list), OldTotal(cfg.template, list);
    var n, o := StartSize(cfg, rss), OldTotal(cfg.template, rss);
    SizesNonNegative(cfg.template, rss);
    StartInRange(cfg, rss);
    UpgradeStart(cfg, rss, id, budget);
    if list != rss {
      StepKeepsSizes(cfg, n, o, n', o');
    }
    forall most, least | Bounds(cfg, rss, most, least) ensures n' <= most && least <= o' {
      StepBounded(cfg, rss, list, most, least);
    }
  }

  lemma StepBounded(cfg: Config, rss: seq<ReplicaSet>, list: seq<ReplicaSet>, most: int, least: int)
    requires Listing(rss) && Bounds(cfg, rss, most, least)
    requires list == rss || SizesStep(cfg, StartSize(cfg, rss), OldTotal(cfg.template, rss), NewSize(cfg.template, list), OldTotal(cfg.template, list))
    ensures NewSize(cfg.template, list) <= most && least <= OldTotal(cfg.template, list)
  {
    hide NewOf, OldsOf, Total, SizesStep;
    SizesNonNegative(cfg.template, rss);
    LimitInRange(cfg.partition, cfg.replicas);
    StartInRange(cfg, rss);
    if list != rss {
      StepWithinPartition(cfg, StartSize(cfg, rss), OldTotal(cfg.template, rss),
                          NewSize(cfg.template, list), OldTotal(cfg.template, list), most, least);
    }
  }

  lemma UpgradeStart(cfg: Config, rss: seq<ReplicaSet>, id: Identity, budget: nat)
    requires Listing(rss) && Unused(id, rss)
    ensures var list := Upgrade(cfg, rss, id, budget).list;
            && Listing(list)
            && (list == rss || (NewOf(cfg.template, list).Some?
                  && SizesStep(cfg, StartSize(cfg, rss), OldTotal(cfg.template, rss), NewSize(cfg.template, list), OldTotal(cfg.template, list))))
  {
    hide NewOf, OldsOf, Total, Upgrade, SizesStep;
    UpgradeSizes(cfg, rss, id, budget);
  }

  // ---- no sync while the Deployment keeps its size ----

  ghost predicate NoEvent(replicas: nat, rss: seq<ReplicaSet>) {
    forall x :: x in rss && IsActive(x) && x.desired.Some? ==> x.desired.value == replicas
  }

  lemma NoEventMeans(cfg: Config, rss: seq<ReplicaSet>)
    ensures NoEvent(cfg.replicas, rss) <==> !P.IsScalingEvent(cfg, rss)
  {
  }

  lemma ObservedNoEvent(replicas: nat, a: seq<ReplicaSet>, b: seq<ReplicaSet>)
    requires Observed(a, b) && NoEvent(replicas, a)
    ensures NoEvent(replicas, b)
  {
    hide AllUnseen;
    forall y | y in b && IsActive(y) && y.desired.Some? ensures y.desired.value == replicas {
      var x := SeenCounterpart(b, a, y);
    }
  }

  /** Sets that cannot be listed, or a sync that failed or could not be recorded, leave the release
      where it is: the next reconcile meets the same again. */
  lemma FailedSyncRepeats(w: World, x: R.Inputs, m: Meets)
    requires Rolls(w.c)
    requires !m.readable
             || (P.IsScalingEvent(ConfigOf(w.c, m), w.rss)
                 && !(m.patched && P.Scale(ConfigOf(w.c, m), NewOf(w.c.deployment.template, w.rss),
                                           OldsOf(w.c.deployment.template, w.rss), m.budget).ok))
    ensures var v := NextWorld(w, Controller(x, m));
            && v.c == w.c.(status := w.c.status.(blocked := v.c.status.blocked))
            && (!m.readable ==> v.rss == w.rss)
  {
    hide NewOf, OldsOf, P.Scale, P.IsScalingEvent, NextGate;
  }

  // ---- a release that keeps going ----

  /** What stays the same over a run: the steps, the Deployment's size and template, and from where
      it started: a bound of the new set's size and the total of the old ones. */
  datatype Frame = Frame(steps: seq<IntOrString>, replicas: nat, template: Template, start: int, olds: int)

  /** The most pods that one of the batches up to the i-th asks for. */
  function Highest(steps: seq<IntOrString>, replicas: nat, i: nat): int
    requires i < |steps|
  {
    var limit := NewRSReplicasLimit(steps[i], replicas);
    if i == 0 then limit else Max(Highest(steps, replicas, i - 1), limit)
  }

  function Allowed(f: Frame, i: nat): int
    requires i < |f.steps|
  {
    Max(f.start, Highest(f.steps, f.replicas, i))
  }

  lemma {:induction false} AllowedGrows(f: Frame, i: nat, j: nat)
    requires i <= j < |f.steps|
    ensures Allowed(f, i) <= Allowed(f, j)
    ensures NewRSReplicasLimit(f.steps[i], f.replicas) <= Allowed(f, i)
    decreases j
  {
    if i < j {
      AllowedGrows(f, i, j - 1);
    }
  }

  predicate InRelease(c: R.Cluster, f: Frame) {
    && c.spec == R.Spec(f.template, f.steps) && c.deployment.template == f.template
    && c.deployment.replicas == f.replicas
    && !c.annotations.mark && c.status.observed == Some(f.template)
    && (c.status.phase == R.RollingUpdate || c.status.phase == R.RollingBack
        || c.status.phase == R.Finalizing || c.status.phase == R.Completed)
    && 0 <= c.status.index < |f.steps|
  }

  /** While the batches so far leave old pods, the new set stays within them and the old ones keep
      the rest. */
  ghost predicate Within(f: Frame, i: nat, n: int, o: int)
    requires i < |f.steps|
  {
    Allowed(f, i) < f.replicas && f.olds > 0 ==> n <= Allowed(f, i) && Min(f.olds, f.replicas - Allowed(f, i)) <= o
  }

  ghost predicate Going(w: World, f: Frame) {
    var n, o := NewSize(f.template, w.rss), OldTotal(f.template, w.rss);
    && InRelease(w.c, f) && Gated(w.c, w.g)
    && Listing(w.rss) && NoEvent(f.replicas, w.rss)
    && n <= f.replicas
    && (NewOf(f.template, w.rss).None? ==> f.start >= Min(1, f.replicas))
    && Within(f, w.c.status.index, n, o)
  }

  lemma ClusterStays(c: R.Cluster, x: R.Inputs, f: Frame)
    requires InRelease(c, f)
    ensures var d := R.Reconcile(c, x);
            && d.spec == c.spec && d.deployment.template == c.deployment.template
            && d.deployment.replicas == c.deployment.replicas && d.deployment.updatedReplicas == c.deployment.updatedReplicas
            && d.annotations.mark == c.annotations.mark && d.status.observed == c.status.observed
            && (d.status.phase == c.status.phase || d.status.phase == R.Finalizing || d.status.phase == R.Completed)
            && c.status.index <= d.status.index
    ensures !Resets(c, x)
  {
    hide R.RollingStep;
    RR.RollingKeeps(c, c.status.(blocked := false), x);
  }

  lemma EngineKeeps(w: World, m: Meets, f: Frame)
    requires Going(w, f) && Rolls(w.c) && Unused(m.id, w.rss)
    ensures var list := Engine(w.c, w.rss, m).0;
            var n', o' := NewSize(f.template, list), OldTotal(f.template, list);
            && Listing(list) && NoEvent(f.replicas, list)
            && NewSize(f.template, w.rss) <= n' <= f.replicas
            && (NewOf(f.template, list).None? ==> NewOf(f.template, w.rss).None?)
            && Within(f, w.c.status.index, n', o')
  {
    hide NewSize, OldTotal, NewOf, OldsOf, Upgrade, P.Scale, Gated, P.IsScalingEvent, Highest, NewRSReplicasLimit, SizesStep, StartSize;
    var cfg := ConfigOf(w.c, m);
    NoEventMeans(cfg, w.rss);
    if m.readable && w.c.status.state == R.StepUpgrade {
      var list := Upgrade(cfg, w.rss, m.id, m.budget).list;
      UpgradeKeepsSizes(cfg, w.rss, m.id, m.budget);
      UpgradeStart(cfg, w.rss, m.id, m.budget);
      PS.UpgradeRaisesNoEvent(cfg, w.rss, m.id, m.budget);
      NoEventMeans(cfg, list);
      BatchBounds(w, cfg, f);
    }
  }

  lemma BatchBounds(w: World, cfg: Config, f: Frame)
    requires Going(w, f) && cfg.template == f.template && cfg.replicas == f.replicas && cfg.partition == f.steps[w.c.status.index]
    ensures var most := Allowed(f, w.c.status.index);
            most < f.replicas && f.olds > 0 ==> Bounds(cfg, w.rss, most, Min(f.olds, f.replicas - most))
  {
    hide NewOf, OldsOf, Gated, Highest, NewRSReplicasLimit, MaxSurge;
    AllowedGrows(f, w.c.status.index, w.c.status.index);
    EmptyNew(f.template, w.rss);
  }

  lemma EmptyNew(t: Template, rss: seq<ReplicaSet>)
    ensures NewOf(t, rss).None? ==> NewSize(t, rss) == 0
  {
  }

  lemma WithinGrows(f: Frame, i: nat, j: nat, n: int, o: int)
    requires i <= j < |f.steps| && Within(f, i, n, o)
    ensures Within(f, j, n, o)
  {
    hide Highest;
    AllowedGrows(f, i, j);
  }

  lemma GoingController(w: World, x: R.Inputs, m: Meets, f: Frame)
    requires Going(w, f) && Unused(m.id, w.rss)
    ensures Going(NextWorld(w, Controller(x, m)), f)
  {
    hide NewSize, OldTotal, NewOf, Engine, R.Reconcile, Gated, NextGate, Allowed, NewRSReplicasLimit, Within;
    var v := NextWorld(w, Controller(x, m));
    var y := if Rolls(w.c) then x.(rolling := Engine(w.c, w.rss, m).1) else x;
    ClusterStays(w.c, y, f);
    GateController(w.c, y, w.g);
    GatedIndex(v.c, v.g, f);
    if Rolls(w.c) {
      EngineKeeps(w, m, f);
    }
    WithinGrows(f, w.c.status.index, v.c.status.index, NewSize(f.template, v.rss), OldTotal(f.template, v.rss));
  }

  lemma GatedIndex(c: R.Cluster, g: Gate, f: Frame)
    requires Gated(c, g) && !c.annotations.mark && c.spec.steps == f.steps
    ensures 0 <= c.status.index < |f.steps|
  {
  }

  lemma GoingPods(w: World, rss: seq<ReplicaSet>, f: Frame)
    requires Going(w, f) && Observed(w.rss, rss)
    ensures Going(w.(rss := rss), f)
  {
    hide Gated, Allowed, NewRSReplicasLimit, AllUnseen;
    ObservedSizes(f.template, w.rss, rss);
    ObservedNoEvent(f.replicas, w.rss, rss);
  }

  lemma GoingStep(w: World, e: Event, f: Frame)
    requires Going(w, f) && Steady(w, e)
    ensures Going(NextWorld(w, e), f)
  {
    match e {
      case Controller(x, m) => GoingController(w, x, m, f);
      case Pods(rss) => GoingPods(w, rss, f);
      case User(u) => GoingUser(w, u, f);
    }
  }

  lemma GoingUser(w: World, u: R.Event, f: Frame)
    requires Going(w, f) && Steady(w, User(u))
    ensures Going(NextWorld(w, User(u)), f)
  {
    hide NewSize, OldTotal, NewOf, Allowed, NewRSReplicasLimit, Within;
    GateStep(w.c, u, w.g);
  }

  /** A release that has just taken its Deployment over, from replica sets that carry its size. */
  ghost predicate JustTaken(w: World, f: Frame) {
    && InRelease(w.c, f) && (w.c.status.phase == R.RollingUpdate || w.c.status.phase == R.RollingBack)
    && w.c.status.index == 0 && w.c.status.state == R.NoState && w.g == Gate(0, {})
    && Listing(w.rss) && NoEvent(f.replicas, w.rss)
    && NewSize(f.template, w.rss) <= f.replicas
    && f.start == (if NewOf(f.template, w.rss).Some? then NewSize(f.template, w.rss) else Min(1, f.replicas))
    && f.olds == OldTotal(f.template, w.rss)
  }

  lemma {:induction false} RunGoes(w: World, events: seq<Event>, f: Frame)
    requires JustTaken(w, f) && SteadyRun(w, events)
    ensures Going(RunWorld(w, events), f)
    decreases |events|
  {
    hide NextWorld, Steady;
    if events == [] {
      StartGoing(w, f);
    } else {
      SteadyPrefix(w, events);
      RunGoes(w, events[..|events| - 1], f);
      GoingStep(RunWorld(w, events[..|events| - 1]), events[|events| - 1], f);
    }
  }

  lemma StartGoing(w: World, f: Frame)
    requires JustTaken(w, f)
    ensures Going(w, f)
  {
    hide NewOf, OldsOf, Highest;
    EmptyNew(f.template, w.rss);
  }

  /** What a release that keeps going promises. */
  ghost predicate Promised(v: World, f: Frame) {
    var i, n, o := v.c.status.index, NewSize(f.template, v.rss), OldTotal(f.template, v.rss);
    && 0 <= i < |f.steps| && i <= v.g.continues
    && (Allowed(f, i) < f.replicas && f.olds > 0 ==> n <= Allowed(f, i) && o >= Min(f.olds, f.replicas - Allowed(f, i)))
    && (v.g.continues < |f.steps| && Allowed(f, v.g.continues) < f.replicas && f.olds > 0
        ==> n <= Allowed(f, v.g.continues))
  }

  lemma GoingPromised(v: World, f: Frame)
    requires Going(v, f)
    ensures Promised(v, f)
  {
    hide NewSize, OldTotal, NewRSReplicasLimit, Highest;
    if v.g.continues < |f.steps| {
      AllowedGrows(f, v.c.status.index, v.g.continues);
    }
  }

  /** What a partitioned release is for: at any moment of any run, whatever is reported, the new set
      has no more pods than the batches reached ask for and the old ones keep the rest; and a batch
      is reached only by a continue for each before it. */
  lemma PartitionedRelease(w: World, events: seq<Event>, f: Frame)
    requires JustTaken(w, f) && SteadyRun(w, events)
    ensures Promised(RunWorld(w, events), f)
  {
    hide Going, JustTaken, SteadyRun, RunWorld;
    RunGoes(w, events, f);
    GoingPromised(RunWorld(w, events), f);
  }

  /** The reconcile that takes a Deployment over starts such a run, whatever the Deployment still
      reports of the release before. */
  lemma TakeOverStarts(c: R.Cluster, x: R.Inputs, rss: seq<ReplicaSet>)
    requires TakesOver(c) && !c.annotations.mark && c.spec.steps != []
    requires x.deploymentWrite == R.Accepted && R.Stored(x.statusWrite)
    requires Listing(rss) && NoEvent(c.deployment.replicas, rss) && NewSize(c.spec.template, rss) <= c.deployment.replicas
    ensures var t := c.spec.template;
            var start := if NewOf(t, rss).Some? then NewSize(t, rss) else Min(1, c.deployment.replicas);
            JustTaken(World(R.Reconcile(c, x), rss, Gate(0, {})),
                      Frame(c.spec.steps, c.deployment.replicas, t, start, OldTotal(t, rss)))
  {
    hide NewOf, OldsOf, Total, R.RollingStep;
  }

  // ---- finalized only with every batch ----

  /** A reconcile that finds its batch ready is not told of more updated pods than the new set was
      given. */
  ghost predicate Honest(w: World, e: Event) {
    e.Controller? && Rolls(w.c) && FindsReady(w.c, e.x.(rolling := Engine(w.c, w.rss, e.m).1))
    ==> w.c.deployment.updatedReplicas <= NewSize(w.c.deployment.template, w.rss)
  }

  ghost predicate HonestRun(w: World, events: seq<Event>) {
    forall k :: 0 <= k < |events| ==> Honest(RunWorld(w, events[..k]), events[k])
  }

  lemma HonestPrefix(w: World, events: seq<Event>)
    requires HonestRun(w, events) && events != []
    ensures HonestRun(w, events[..|events| - 1])
    ensures Honest(RunWorld(w, events[..|events| - 1]), events[|events| - 1])
  {
    hide Honest, RunWorld;
    var p := events[..|events| - 1];
    forall k | 0 <= k < |p| ensures Honest(RunWorld(w, p[..k]), p[k]) {
      assert p[..k] == events[..k];
      assert Honest(RunWorld(w, events[..k]), events[k]);
    }
  }

  /** Every batch that was found ready has its new pods. */
  ghost predicate ReadyReached(f: Frame, g: Gate, n: int) {
    forall i :: i in g.ready && 0 <= i < |f.steps| ==> NewRSReplicasLimit(f.steps[i], f.replicas) <= n
  }

  /** What the gate records of a reconcile is true of the replica sets. */
  lemma FoundReadyReached(w: World, x: R.Inputs, f: Frame)
    requires Going(w, f) && ReadyReached(f, w.g, NewSize(f.template, w.rss))
    requires FindsReady(w.c, x) ==> w.c.deployment.updatedReplicas <= NewSize(f.template, w.rss)
    ensures ReadyReached(f, NextGate(w.c, R.Controller(x), w.g), NewSize(f.template, w.rss))
  {
    hide R.Reconcile, NewSize, NewOf, NewRSReplicasLimit;
    ClusterStays(w.c, x, f);
  }

  lemma ReadyStep(w: World, e: Event, f: Frame)
    requires Going(w, f) && Steady(w, e) && Honest(w, e) && ReadyReached(f, w.g, NewSize(f.template, w.rss))
    ensures var v := NextWorld(w, e);
            ReadyReached(f, v.g, NewSize(f.template, v.rss))
  {
    hide NewSize, OldTotal, NewOf, Engine, R.Reconcile, Gated, Allowed, NewRSReplicasLimit, Within, FindsReady, Resets;
    match e {
      case Controller(x, m) =>
        if Rolls(w.c) {
          EngineKeeps(w, m, f);
          FoundReadyReached(w, x.(rolling := Engine(w.c, w.rss, m).1), f);
        } else {
          NotRolling(w, x, f);
          FoundReadyReached(w, x, f);
        }
      case Pods(rss) =>
        ObservedSizes(f.template, w.rss, rss);
      case User(u) =>
    }
  }

  lemma NotRolling(w: World, x: R.Inputs, f: Frame)
    requires Going(w, f) && !Rolls(w.c)
    ensures !FindsReady(w.c, x)
  {
    hide NewSize, OldTotal, NewOf, Allowed, NewRSReplicasLimit, Within;
  }

  lemma {:induction false} RunReady(w: World, events: seq<Event>, f: Frame)
    requires JustTaken(w, f) && SteadyRun(w, events) && HonestRun(w, events)
    ensures var v := RunWorld(w, events);
            Going(v, f) && ReadyReached(f, v.g, NewSize(f.template, v.rss))
    decreases |events|
  {
    hide NextWorld, Steady, Honest, Going, NewSize;
    RunGoes(w, events, f);
    if events != [] {
      SteadyPrefix(w, events);
      HonestPrefix(w, events);
      RunReady(w, events[..|events| - 1], f);
      ReadyStep(RunWorld(w, events[..|events| - 1]), events[|events| - 1], f);
    }
  }

  /** A release is finalized only when its new set has the pods of every batch, if no reconcile that
      found a batch ready was told of more updated pods than the new set was given. */
  lemma FinalizedWithEveryBatch(w: World, events: seq<Event>, f: Frame)
    requires JustTaken(w, f) && SteadyRun(w, events) && HonestRun(w, events)
    requires RunWorld(w, events).c.status.phase == R.Finalizing
    ensures forall i :: 0 <= i < |f.steps|
                        ==> NewRSReplicasLimit(f.steps[i], f.replicas) <= NewSize(f.template, RunWorld(w, events).rss)
  {
    hide JustTaken, SteadyRun, HonestRun, RunWorld, NewSize, OldTotal, NewRSReplicasLimit, Within;
    RunReady(w, events, f);
  }

  lemma RunExtends(w: World, events: seq<Event>, e: Event)
    requires SteadyRun(w, events) && Steady(RunWorld(w, events), e)
    ensures SteadyRun(w, events + [e])
    ensures RunWorld(w, events + [e]) == NextWorld(RunWorld(w, events), e)
  {
    hide Steady, NextWorld;
    var all := events + [e];
    assert all[..|all| - 1] == events;
    forall k | 0 <= k < |all| ensures Steady(RunWorld(w, all[..k]), all[k]) {
      assert k < |events| ==> all[..k] == events[..k] && Steady(RunWorld(w, events[..k]), events[k]);
    }
  }

  lemma NothingWritten(cfg: Config, newRS: ReplicaSet, oldRS: ReplicaSet, id: Identity)
    requires cfg.replicas == 10 && MaxSurge(cfg) == 0 && BatchLimit(cfg) == 5 && ValidStrategy(cfg)
    requires Distinct([oldRS, newRS]) && newRS.template == cfg.template != oldRS.template
    requires newRS.size == 1 == newRS.available && oldRS.size == 9 == oldRS.available
    ensures Upgrade(cfg, [oldRS, newRS], id, 0) == Upgraded([oldRS, newRS], Quiet)
    ensures NewSize(cfg.template, [oldRS, newRS]) == 1
  {
    hide Sorted, NewOf, OldsOf, MaxSurge, BatchLimit, ReconcileOld, ValidStrategy;
    var rss, rest := [oldRS, newRS], [oldRS];
    PairListing(cfg.template, oldRS, newRS);
    TotalOfOne(oldRS);
    AllActive(rest);
    BP.NoRoomIsQuiet(cfg, newRS, rest);
    OldsUnwritten(cfg, newRS, oldRS);
    assert [] + [oldRS] + [newRS] == rss;
  }

  lemma OldsUnwritten(cfg: Config, newRS: ReplicaSet, oldRS: ReplicaSet)
    ensures ReconcileOld(cfg, newRS, [oldRS], 10, 0).list == [oldRS]
  {
    hide MaxUnavailable, BatchLimit, MaxSurge, Sorted, Drain, Cleanup, Total, ScaleDownLimitForOld;
    SortedOne(ByCreation, oldRS);
    SortedOne(BySizeOlder, oldRS);
    SortedOne(DrainOrder(cfg, [oldRS]), oldRS);
    BP.CleanupNothing(cfg, [oldRS], MaxScaledDown(cfg, newRS, Total(Size, [oldRS]), 10));
    BP.DrainNothing(cfg, [oldRS], Min(Total(Available, [oldRS]) + newRS.available - (cfg.replicas - MaxUnavailable(cfg)),
                                      ScaleDownLimitForOld(cfg, Total(Size, [oldRS]), newRS.size)));
  }

  /** The states of a release whose one batch of five pods passes on a stale report of ten with one
      new pod: just taken over, upgrading, passed, done, finalizing. */
  function Early(phase: R.Phase, state: R.StepState, ready: int): R.Cluster {
    R.Cluster(R.Deployment(10, 0, true, false, None, true, 10), R.Spec(0, [Int(5)]), R.Annotations(false, Some(1), Some(1)),
              R.Status(phase, 0, state, ready, Some(Int(4)), Some(Int(0)), Some(0), false))
  }

  const EARLY_INPUTS: R.Inputs := R.Inputs(R.Accepted, R.Accepted, R.Accepted, R.SyncDone)

  const EARLY_MEETS: Meets := Meets(true, Identity("unused", 20, 20), 0, 1, true, 10, 0, {})

  const EARLY_SETS: seq<ReplicaSet> :=
    [ReplicaSet("a", 1, 1, 1, Number(1), 9, 9, Some(10), Some(10)), ReplicaSet("new", 9, 9, 0, Number(9), 1, 1, Some(10), Some(10))]

  lemma EarlyStep(w: World, e: Event)
    requires w.rss == EARLY_SETS && e == Controller(EARLY_INPUTS, EARLY_MEETS)
    ensures Steady(w, e)
    ensures w.c == Early(R.RollingUpdate, R.NoState, 0)
            ==> NextWorld(w, e).c == Early(R.RollingUpdate, R.StepUpgrade, 0) && NextWorld(w, e).rss == w.rss
    ensures w.c == Early(R.RollingUpdate, R.StepBlocking, 1)
            ==> NextWorld(w, e).c == Early(R.RollingUpdate, R.StepCompleted, 1) && NextWorld(w, e).rss == w.rss
    ensures w.c == Early(R.RollingUpdate, R.StepCompleted, 1)
            ==> NextWorld(w, e).c == Early(R.Finalizing, R.StepCompleted, 1) && NextWorld(w, e).rss == w.rss
  {
    hide NextGate, Upgrade, P.Scale;
    if w.c.spec.steps == [Int(5)] && Rolls(w.c) {
      NoEventMeans(ConfigOf(w.c, EARLY_MEETS), w.rss);
    }
  }

  lemma EarlyPass(w: World, e: Event)
    requires w.rss == EARLY_SETS && e == Controller(EARLY_INPUTS, EARLY_MEETS)
    requires w.c == Early(R.RollingUpdate, R.StepUpgrade, 0)
    ensures NextWorld(w, e).c == Early(R.RollingUpdate, R.StepBlocking, 1) && NextWorld(w, e).rss == w.rss
  {
    hide NextGate, Upgrade, P.Scale;
    var cfg := ConfigOf(w.c, EARLY_MEETS);
    NoEventMeans(cfg, w.rss);
    NothingWritten(cfg, EARLY_SETS[1], EARLY_SETS[0], EARLY_MEETS.id);
  }

  ghost function EarlyWorld(): World {
    World(Early(R.RollingUpdate, R.NoState, 0), EARLY_SETS, Gate(0, {}))
  }

  ghost function EarlyFrame(): Frame {
    Frame([Int(5)], 10, 0, 1, OldTotal(0, EARLY_SETS))
  }

  lemma EarlyTaken()
    ensures JustTaken(EarlyWorld(), EarlyFrame())
    ensures NewRSReplicasLimit(Int(5), 10) == 5
  {
    hide NewOf, OldsOf, Total, NewSize, OldTotal;
    EarlySetsFacts();
  }

  lemma EmptyRun(w: World)
    ensures SteadyRun(w, []) && RunWorld(w, []) == w
  {
  }

  lemma EarlyOn(w: World, events: seq<Event>, e: Event)
    requires SteadyRun(w, events) && RunWorld(w, events).rss == EARLY_SETS && e == Controller(EARLY_INPUTS, EARLY_MEETS)
    ensures SteadyRun(w, events + [e])
    ensures var c := RunWorld(w, events).c;
            var v := RunWorld(w, events + [e]);
            && (c == Early(R.RollingUpdate, R.NoState, 0)
                ==> v.c == Early(R.RollingUpdate, R.StepUpgrade, 0) && v.rss == EARLY_SETS)
            && (c == Early(R.RollingUpdate, R.StepUpgrade, 0)
                ==> v.c == Early(R.RollingUpdate, R.StepBlocking, 1) && v.rss == EARLY_SETS)
            && (c == Early(R.RollingUpdate, R.StepBlocking, 1)
                ==> v.c == Early(R.RollingUpdate, R.StepCompleted, 1) && v.rss == EARLY_SETS)
            && (c == Early(R.RollingUpdate, R.StepCompleted, 1)
                ==> v.c == Early(R.Finalizing, R.StepCompleted, 1) && v.rss == EARLY_SETS)
  {
    hide NextWorld, Steady, RunWorld, SteadyRun, Early;
    EarlyStep(RunWorld(w, events), e);
    if RunWorld(w, events).c == Early(R.RollingUpdate, R.StepUpgrade, 0) {
      EarlyPass(RunWorld(w, events), e);
    }
    RunExtends(w, events, e);
  }

  /** Without right reports a release can be finalized with one new pod for a batch of five. */
  lemma FinalizedTooEarly() returns (w: World, events: seq<Event>, f: Frame)
    ensures JustTaken(w, f) && SteadyRun(w, events) && RunWorld(w, events).c.status.phase == R.Finalizing
    ensures f.steps == [Int(5)] && f.replicas == 10 && NewRSReplicasLimit(f.steps[0], f.replicas) == 5
    ensures NewSize(f.template, RunWorld(w, events).rss) == 1
  {
    hide JustTaken, RunWorld, SteadyRun, OldTotal, NewSize, NewRSReplicasLimit;
    var e := Controller(EARLY_INPUTS, EARLY_MEETS);
    w, f := EarlyWorld(), EarlyFrame();
    EarlyTaken();
    EarlySetsFacts();
    EmptyRun(w);
    EarlyOn(w, [], e);
    var one := [] + [e];
    EarlyOn(w, one, e);
    EarlyOn(w, one + [e], e);
    EarlyOn(w, one + [e] + [e], e);
    events := one + [e] + [e] + [e];
  }

  lemma EarlySetsFacts()
    ensures Listing(EARLY_SETS) && NoEvent(10, EARLY_SETS)
    ensures NewOf(0, EARLY_SETS).Some? && NewSize(0, EARLY_SETS) == 1
  {
    hide NewOf, OldsOf, Sorted;
    assert EARLY_SETS[1] in EARLY_SETS;
    NewOfIsNew(0, EARLY_SETS, EARLY_SETS[1]);
  }

  // ---- a release that cannot go on ----

  lemma {:induction false} ActiveUnseen(rss: seq<ReplicaSet>)
    ensures Active(AllUnseen(rss)) == AllUnseen(Active(rss))
  {
    if rss != [] {
      ActiveUnseen(rss[1..]);
      assert AllUnseen(rss) == [Unseen(rss[0])] + AllUnseen(rss[1..]);
      var head := if IsActive(rss[0]) then [rss[0]] else [];
      assert Active(rss) == head + Active(rss[1..]);
      assert AllUnseen(head + Active(rss[1..])) == AllUnseen(head) + AllUnseen(Active(rss[1..]));
    }
  }

  lemma ObservedStuck(cfg: Config, a: seq<ReplicaSet>, b: seq<ReplicaSet>)
    requires Observed(a, b) && PS.StuckSingle(cfg, a)
    ensures PS.StuckSingle(cfg, b)
  {
    hide Active, AllUnseen;
    ActiveUnseen(a);
    ActiveUnseen(b);
    PS.ActivePermuted(AllUnseen(a), AllUnseen(b));
    PermutedLength(AllUnseen(Active(a)), AllUnseen(Active(b)));
    assert AllUnseen(Active(b))[0] in AllUnseen(Active(a));
    assert Unseen(Active(b)[0]) == Unseen(Active(a)[0]);
  }

  lemma PermutedStuck(cfg: Config, a: seq<ReplicaSet>, b: seq<ReplicaSet>)
    requires multiset(a) == multiset(b) && PS.StuckSingle(cfg, a)
    ensures PS.StuckSingle(cfg, b)
  {
    hide Active;
    PS.ActivePermuted(a, b);
    PS.SameSingle(Active(a), Active(b));
  }

  /** A rolling release whose only active set has the wanted size and a stale replica count. */
  ghost predicate Stuck(w: World) {
    && Rolls(w.c) && Listing(w.rss)
    && forall m :: PS.StuckSingle(ConfigOf(w.c, m), w.rss)
  }

  lemma StuckEngine(w: World, m: Meets)
    requires Stuck(w)
    ensures var (list, rolling) := Engine(w.c, w.rss, m);
            && multiset(list) == multiset(w.rss)
            && (rolling == R.Unreadable || rolling == R.SyncDone || rolling == R.SyncFailed)
  {
    hide NewOf, OldsOf, P.Scale;
    var cfg := ConfigOf(w.c, m);
    assert PS.StuckSingle(cfg, w.rss);
    var found, olds := NewOf(cfg.template, w.rss), OldsOf(cfg.template, w.rss);
    OldsAreTheRest(cfg.template, w.rss);
    var all := olds + P.ToSeq(found);
    assert multiset(all) == multiset(w.rss);
    PermutedStuck(cfg, w.rss, all);
    DistinctPermuted(w.rss, all);
    PermutedLength(w.rss, all);
    StuckIsEvent(cfg, w.rss);
    PS.StuckSingleStays(cfg, found, olds, m.budget);
  }

  lemma StuckIsEvent(cfg: Config, rss: seq<ReplicaSet>)
    requires PS.StuckSingle(cfg, rss)
    ensures P.IsScalingEvent(cfg, rss)
  {
    hide Active;
    assert Active(rss)[0] in Active(rss);
  }

  /** A reconcile that can only sync stays where it is. */
  lemma SyncStays(c: R.Cluster, x: R.Inputs)
    requires Rolls(c) && (x.rolling == R.Unreadable || x.rolling == R.SyncDone || x.rolling == R.SyncFailed)
    ensures var d := R.Reconcile(c, x);
            && d.spec == c.spec && d.deployment == c.deployment && d.annotations == c.annotations
            && d.status == c.status.(state := d.status.state, blocked := d.status.blocked)
  {
  }

  lemma StuckStep(w: World, e: Event)
    requires Stuck(w) && Steady(w, e)
    ensures var v := NextWorld(w, e);
            Stuck(v) && v.c.status.phase == w.c.status.phase && v.c.status.index == w.c.status.index
  {
    hide PS.StuckSingle, Engine, R.Reconcile, NextGate;
    match e {
      case Controller(x, m) =>
        StuckEngine(w, m);
        var (list, rolling) := Engine(w.c, w.rss, m);
        SyncStays(w.c, x.(rolling := rolling));
        StuckAfter(w, NextWorld(w, e), list);
      case Pods(rss) =>
        ObservedSizes(0, w.rss, rss);
        forall m ensures PS.StuckSingle(ConfigOf(w.c, m), rss) {
          ObservedStuck(ConfigOf(w.c, m), w.rss, rss);
        }
      case User(u) =>
        StuckAfter(w, NextWorld(w, e), w.rss);
    }
  }

  lemma StuckAfter(w: World, v: World, list: seq<ReplicaSet>)
    requires Stuck(w) && Rolls(v.c) && v.rss == list && multiset(list) == multiset(w.rss)
    requires v.c.spec == w.c.spec && v.c.deployment.replicas == w.c.deployment.replicas
    ensures Stuck(v)
  {
    DistinctPermuted(w.rss, list);
    PermutedLength(w.rss, list);
    forall m ensures PS.StuckSingle(ConfigOf(v.c, m), list) {
      assert PS.StuckSingle(ConfigOf(w.c, m), w.rss);
      PermutedStuck(ConfigOf(w.c, m), w.rss, list);
    }
  }

  /** For ever: whatever the pods, the writes and the continues, the release stays in its phase and
      at its step until the Deployment is scaled again or something else is asked for. */
  lemma {:induction false} StuckForever(w: World, events: seq<Event>)
    requires Stuck(w) && SteadyRun(w, events)
    ensures var v := RunWorld(w, events);
            Stuck(v) && v.c.status.phase == w.c.status.phase && v.c.status.index == w.c.status.index
    decreases |events|
  {
    hide NextWorld, Steady, Stuck;
    if events != [] {
      SteadyPrefix(w, events);
      StuckForever(w, events[..|events| - 1]);
      StuckStep(RunWorld(w, events[..|events| - 1]), events[|events| - 1]);
    }
  }

  lemma OneDrained(cfg: Config, newRS: ReplicaSet, oldRS: ReplicaSet)
    requires cfg.replicas == 10 && MaxUnavailable(cfg) == 5 && BatchLimit(cfg) == 10
    requires newRS.size == 5 == newRS.available && oldRS.size == 5 == oldRS.available
    ensures ReconcileOld(cfg, newRS, [oldRS], 10, 1) == OldPass([Resized(cfg, oldRS, 0)], true, 0, true)
  {
    hide MaxUnavailable, BatchLimit, MaxSurge, Sorted, Drain, Cleanup;
    TotalOfOne(oldRS);
    SortedOne(ByCreation, oldRS);
    SortedOne(DrainOrder(cfg, [oldRS]), oldRS);
    CleanupIdle(cfg, [oldRS], 5, 1);
    assert [oldRS][1..] == [];
    DrainsOne(cfg, oldRS, 5);
  }

  lemma SortedOne(o: Order, x: ReplicaSet)
    ensures Sorted(o, [x]) == [x]
  {
  }

  lemma DrainsOne(cfg: Config, x: ReplicaSet, most: nat)
    requires x.size == most > 0
    ensures Drain(cfg, [x], most, 1) == Pass([Resized(cfg, x, 0)], most, 0, true)
  {
    assert [x][1..] == [];
  }

  /** Half the pods are new, all of them available and nothing pending: the reconcile drains the
      other half at once. */
  lemma HalfDrained(cfg: Config, newRS: ReplicaSet, oldRS: ReplicaSet, id: Identity)
    requires cfg.replicas == 10 && MaxSurge(cfg) == 0 && MaxUnavailable(cfg) == 5 && BatchLimit(cfg) == 10
    requires Distinct([oldRS, newRS]) && newRS.template == cfg.template != oldRS.template
    requires newRS.size == 5 == newRS.available && oldRS.size == 5 == oldRS.available
    ensures Upgrade(cfg, [oldRS, newRS], id, 1) == Upgraded([Resized(cfg, oldRS, 0), newRS], Scaled)
  {
    hide Sorted, NewOf, OldsOf, MaxSurge, MaxUnavailable, BatchLimit, ReconcileOld;
    var rss, rest := [oldRS, newRS], [oldRS];
    PairListing(cfg.template, oldRS, newRS);
    TotalOfOne(oldRS);
    AllActive(rest);
    OneDrained(cfg, newRS, oldRS);
    assert [] + [Resized(cfg, oldRS, 0)] + [newRS] == [Resized(cfg, oldRS, 0), newRS];
  }

  lemma ScaledStays(c: R.Cluster, x: R.Inputs)
    requires Rolls(c) && c.status.state == R.StepUpgrade && x.rolling.Stepped? && x.rolling.outcome == Scaled
    ensures var d := R.Reconcile(c, x);
            && d.spec == c.spec && d.deployment == c.deployment && d.annotations == c.annotations
            && d.status == c.status.(updatedReady := d.status.updatedReady, blocked := d.status.blocked)
  {
  }

  lemma LeftStuck(w: World, oldRS: ReplicaSet, newRS: ReplicaSet)
    requires Rolls(w.c) && w.rss == [oldRS, newRS] && Distinct(w.rss) && oldRS.size == 0
    requires newRS.size == w.c.deployment.replicas > 0 && newRS.desired.Some? && newRS.desired.value != newRS.size
    ensures Stuck(w)
  {
    LastActive(w.rss);
  }

  /** Such a state is reached: from ten pods, half of them new, by one reconcile and a change of the
      Deployment's size to what the new set has. */
  lemma StuckIsReached() returns (w: World, e: Event)
    ensures Rolls(w.c) && Listing(w.rss) && AllAvailable(w.rss) && NoEvent(w.c.deployment.replicas, w.rss)
    ensures e.Controller? && Steady(w, e)
    ensures Stuck(NextWorld(NextWorld(w, e), User(R.Observe(5, 0))))
  {
    hide Sorted, NewOf, OldsOf, Upgrade, UpgradeFound, Total, NextGate, Active, R.Reconcile, Stuck;
    var newRS := ReplicaSet("new", 9, 9, 0, Number(9), 5, 5, Some(10), Some(10));
    var oldRS := ReplicaSet("a", 1, 1, 1, Number(1), 5, 5, Some(10), Some(10));
    var status := R.Status(R.RollingUpdate, 0, R.StepUpgrade, 0, Some(Int(5)), Some(Int(0)), Some(0), false);
    var c := R.Cluster(R.Deployment(10, 0, true, false, None, true, 5), R.Spec(0, [Percent(100)]),
                       R.Annotations(false, Some(1), Some(1)), status);
    var m := Meets(true, Identity("unused", 20, 20), 1, 5, true, 10, 0, {});
    var x := R.Inputs(R.Accepted, R.Accepted, R.Accepted, R.SyncDone);
    w := World(c, [oldRS, newRS], Gate(0, {}));
    e := Controller(x, m);
    var cfg := ConfigOf(c, m);
    NoEventMeans(cfg, w.rss);
    HalfDrained(cfg, newRS, oldRS, m.id);
    ScaledStays(c, x.(rolling := Engine(c, w.rss, m).1));
    var v := NextWorld(NextWorld(w, e), User(R.Observe(5, 0)));
    LeftStuck(v, Resized(cfg, oldRS, 0), newRS);
  }

  lemma LastActive(list: seq<ReplicaSet>)
    requires |list| == 2 && list[0].size == 0 && list[1].size > 0
    ensures Active(list) == [list[1]]
  {
    assert list == [list[0]] + [list[1]];
    ActiveAppend([list[0]], [list[1]]);
    ActiveOfOne(list[0]);
    ActiveOfOne(list[1]);
  }
}
