/**
  Liveness of a whole release: when the pods come up, the reports are right, no write is refused
  and the users continue, it goes through all of its batches and completes.
 */
module ReleaseProgress {
  import opened Base
  import opened Limits
  import opened ReplicaSets
  import opened Ordering
  import opened Scaling
  import opened UpgradeFacts
  import opened RolloutRuns
  import opened BatchGate
  import opened JointRuns
  import R = Release
  import RR = ReleaseRuns
  import BP = BatchProgress
  import FR = FirstRelease
  import Reports
  import SharedSlices

  // ---- rounds ----

  /** What a reconcile finds when things go well: all pods available and reported, and a continue
      for a blocking step. */
  ghost function Told(w: World, rss: seq<ReplicaSet>): World {
    var seen := NextWorld(w, Pods(rss));
    var reported := NextWorld(seen, User(R.Observe(w.c.deployment.replicas, NewSize(w.c.deployment.template, rss))));
    NextWorld(reported, User(R.Continue))
  }

  ghost predicate Smooth(x: R.Inputs, m: Meets, t: Template, rss: seq<ReplicaSet>) {
    && x.deploymentWrite == R.Accepted && x.releaseWrite == R.Accepted && x.statusWrite == R.Accepted
    && m.readable && m.patched && m.budget >= 1 && Unused(m.id, rss) && m.ready == NewSize(t, rss)
  }

  /** The reconcile is the one of the code: it meets no shared array that matters and a found set that
      is up to date (SharedSlices.UpgradeSame). */
  ghost predicate AsCoded(w: World, m: Meets) {
    Rolls(w.c) && w.c.status.state == R.StepUpgrade ==>
      var cfg := ConfigOf(w.c, m);
      SharedSlices.UpgradeAppended(cfg, w.rss, m.id, false, m.budget) == Upgrade(cfg, w.rss, m.id, m.budget)
  }

  ghost predicate RoundBy(a: World, b: World, rss: seq<ReplicaSet>, x: R.Inputs, m: Meets) {
    && Observed(a.rss, rss) && AllAvailable(rss) && Smooth(x, m, a.c.deployment.template, rss)
    && AsCoded(Told(a, rss), m) && b == NextWorld(Told(a, rss), Controller(x, m))
  }

  /** One reconcile and what went before it; at least one replica-set write is accepted. */
  ghost predicate Round(a: World, b: World) {
    exists rss, x, m :: RoundBy(a, b, rss, x, m)
  }

  ghost predicate Rounds(trace: seq<World>) {
    trace != [] && forall k :: 0 <= k < |trace| - 1 ==> Round(trace[k], trace[k + 1])
  }

  // ---- how far it is ----

  const ANY_MEETS: Meets := Meets(true, Identity("", 0, 0), 0, 0, true, 0, 0, {})

  /** The most reconciles that one batch takes for its replica sets. */
  function Cap(f: Frame): nat {
    1 + f.replicas + Max(f.olds, f.replicas)
  }

  /** The most that k whole batches take. */
  function BatchesLeft(f: Frame, k: nat): nat {
    if k == 0 then 0 else BatchesLeft(f, k - 1) + Cap(f) + 4
  }

  ghost function StateLeft(w: World, f: Frame): nat
    requires R.IndexInRange(w.c, w.c.status)
  {
    match w.c.status.state
    case NoState => Cap(f) + 3
    case StepInitial => Cap(f) + 3
    case StepUpgrade => Remaining(ConfigOf(w.c, ANY_MEETS), w.rss) + 2
    case StepBlocking => 1
    case StepCompleted => 0
  }

  /** How many more rounds a release takes at most. */
  ghost function Left(w: World, f: Frame): nat
    requires InRelease(w.c, f)
  {
    match w.c.status.phase
    case Completed => 0
    case Finalizing => 1
    case _ => 2 + BatchesLeft(f, |f.steps| - 1 - w.c.status.index) + StateLeft(w, f)
  }

  /** What a release keeps while it goes on. */
  ghost predicate Live(w: World, f: Frame) {
    && Going(w, f) && ReadyReached(f, w.g, NewSize(f.template, w.rss))
    && ValidThreshold(w.c.status.maxSurge) && ValidThreshold(w.c.status.maxUnavailable)
    && OldTotal(f.template, w.rss) <= Max(f.olds, f.replicas)
    && (w.c.status.phase == R.Finalizing || w.c.status.phase == R.Completed ==> ReadyUpTo(w.g, |f.steps|))
  }

  lemma SameRemaining(cfg: Config, statusReplicas: int, nonFinite: int, slack: set<nat>, rss: seq<ReplicaSet>)
    ensures Remaining(cfg.(statusReplicas := statusReplicas, nonFinite := nonFinite, slack := slack), rss) == Remaining(cfg, rss)
  {
    hide NewOf, OldsOf, Total;
  }

  lemma RemainingCapped(cfg: Config, rss: seq<ReplicaSet>, most: int)
    requires Listing(rss) && NewSize(cfg.template, rss) <= cfg.replicas && OldTotal(cfg.template, rss) <= most && most >= cfg.replicas
    ensures Remaining(cfg, rss) <= 1 + cfg.replicas + most
  {
    hide NewOf, OldsOf, Total, MaxSurge, NewRSReplicasLimit;
    StartInRange(cfg, rss);
    SizesNonNegative(cfg.template, rss);
    LimitInRange(cfg.partition, cfg.replicas);
  }

  lemma ObservedRemaining(cfg: Config, a: seq<ReplicaSet>, b: seq<ReplicaSet>)
    requires Listing(a) && Observed(a, b)
    ensures Remaining(cfg, b) == Remaining(cfg, a)
  {
    hide NewOf, OldsOf, Total, Observed, Distance, MaxSurge, NewRSNewReplicas;
    ObservedSizes(cfg.template, a, b);
    NoNewSize(cfg.template, a);
    NoNewSize(cfg.template, b);
  }

  // ---- before the reconcile ----

  lemma ToldStays(w: World, rss: seq<ReplicaSet>, f: Frame)
    requires Live(w, f) && Observed(w.rss, rss)
    ensures var v := Told(w, rss);
            && Live(v, f) && v.rss == rss
            && v.c.deployment.updatedReplicas == NewSize(f.template, rss) && v.c.deployment.template == f.template
            && v.c.status.state != R.StepBlocking && Left(v, f) <= Left(w, f)
  {
    hide Going, NewSize, OldTotal, Observed, ReadyReached, Remaining, NextGate;
    var seen := NextWorld(w, Pods(rss));
    var report := R.Observe(w.c.deployment.replicas, NewSize(w.c.deployment.template, rss));
    var reported := NextWorld(seen, User(report));
    GoingMeans(w, f);
    ToldGoes(w, rss, f);
    ObservedRemaining(ConfigOf(w.c, ANY_MEETS), w.rss, rss);
    GateOnlyCounts(seen.c, report, seen.g);
    GateOnlyCounts(reported.c, R.Continue, reported.g);
    ReadyKept(f, w.g, Told(w, rss).g, NewSize(f.template, w.rss), NewSize(f.template, rss));
  }

  lemma GoingMeans(w: World, f: Frame)
    requires Going(w, f)
    ensures InRelease(w.c, f) && Listing(w.rss) && NewSize(f.template, w.rss) <= f.replicas && NoEvent(f.replicas, w.rss)
    ensures Gated(w.c, w.g)
  {
    hide NewSize, OldTotal, NewOf, Within, Gated;
  }

  lemma GateOnlyCounts(c: R.Cluster, e: R.Event, g: Gate)
    requires !e.Controller?
    ensures NextGate(c, e, g).ready == g.ready
  {
  }

  lemma ReadyKept(f: Frame, g: Gate, g': Gate, n: int, n': int)
    requires ReadyReached(f, g, n) && g'.ready == g.ready && n <= n'
    ensures ReadyReached(f, g', n')
  {
    hide NewRSReplicasLimit;
  }

  lemma ToldGoes(w: World, rss: seq<ReplicaSet>, f: Frame)
    requires Going(w, f) && Observed(w.rss, rss)
    ensures Going(Told(w, rss), f)
    ensures NewSize(f.template, rss) == NewSize(f.template, w.rss) && OldTotal(f.template, rss) == OldTotal(f.template, w.rss)
  {
    hide Going, NewSize, OldTotal, Observed, NextGate, R.Apply;
    var seen := NextWorld(w, Pods(rss));
    GoingMeans(w, f);
    ObservedSizes(f.template, w.rss, rss);
    GoingStep(w, Pods(rss), f);
    var report := R.Observe(w.c.deployment.replicas, NewSize(w.c.deployment.template, rss));
    GoingStep(seen, User(report), f);
    GoingStep(NextWorld(seen, User(report)), User(R.Continue), f);
  }

  // ---- the reconcile ----

  /** A rolling reconcile that meets no scaling event and whose status is stored: only a batch that is
      ready, or was continued, gets it further. */
  lemma StepGoes(c: R.Cluster, x: R.Inputs)
    requires Rolls(c) && x.rolling.Stepped? && x.rolling.patched && x.statusWrite == R.Accepted
    ensures var s, s' := c.status, R.Reconcile(c, x).status;
            && s'.maxSurge == s.maxSurge && s'.maxUnavailable == s.maxUnavailable
            && match s.state
               case NoState => s'.state == R.StepUpgrade && s'.phase == s.phase && s'.index == s.index
               case StepInitial => s'.state == R.StepUpgrade && s'.phase == s.phase && s'.index == s.index
               case StepUpgrade =>
                 && s'.phase == s.phase && s'.index == s.index
                 && s'.state == if FindsReady(c, x) then R.StepBlocking else R.StepUpgrade
               case StepBlocking => s'.phase == s.phase && s'.index == s.index
               case StepCompleted =>
                 if s.index == |c.spec.steps| - 1 then s'.phase == R.Finalizing
                 else s'.phase == s.phase && s'.index == s.index + 1 && s'.state == R.StepInitial
  {
    hide R.IsBatchReady;
  }

  lemma RollsInRelease(w: World, f: Frame)
    requires InRelease(w.c, f)
    ensures Rolls(w.c) <==> w.c.status.phase == R.RollingUpdate || w.c.status.phase == R.RollingBack
  {
  }

  /** Without a scaling event the engine comes to the step. */
  lemma EngineSteps(w: World, m: Meets, f: Frame)
    requires InRelease(w.c, f) && Rolls(w.c) && NoEvent(f.replicas, w.rss) && m.readable
    ensures var (list, rolling) := Engine(w.c, w.rss, m);
            if w.c.status.state == R.StepUpgrade then
              var u := Upgrade(ConfigOf(w.c, m), w.rss, m.id, m.budget);
              list == u.list && rolling == R.Stepped(u.outcome, m.ready, m.patched)
            else list == w.rss && rolling == R.Stepped(Quiet, m.ready, m.patched)
  {
    hide Upgrade, NoEvent;
    NoEventMeans(ConfigOf(w.c, m), w.rss);
  }

  ghost predicate Favoured(w: World, x: R.Inputs, m: Meets, f: Frame) {
    && AllAvailable(w.rss) && Smooth(x, m, f.template, w.rss)
    && w.c.deployment.updatedReplicas == NewSize(f.template, w.rss) && w.c.status.state != R.StepBlocking
  }

  /** One Upgrade reconcile is nearer to the batch's goal, or at it. */
  lemma UpgradeNearer(cfg: Config, rss: seq<ReplicaSet>, id: Identity, budget: nat)
    requires Listing(rss) && AllAvailable(rss) && Unused(id, rss) && budget >= 1 && ValidStrategy(cfg)
    requires NewSize(cfg.template, rss) <= cfg.replicas
    ensures var list := Upgrade(cfg, rss, id, budget).list;
            Remaining(cfg, list) < Remaining(cfg, rss)
            || (Remaining(cfg, rss) == 0 && NewOf(cfg.template, rss).Some? && Settled(cfg, rss))
    ensures OldTotal(cfg.template, Upgrade(cfg, rss, id, budget).list) <= Max(OldTotal(cfg.template, rss), cfg.replicas)
  {
    hide NewOf, OldsOf, Total, Upgrade, Distance, MaxSurge, Settled, Observed, StartSize, AllAvailable, Unused, ValidStrategy;
    var list := Upgrade(cfg, rss, id, budget).list;
    assert Observed(list, list) by { SelfObserved(list); }
    NextIs(cfg, rss, list, id, budget);
    UpgradeOlds(cfg, rss, id, budget);
    if NewOf(cfg.template, rss).Some? {
      AdvanceOrStay(cfg, rss, list);
      SettledIsDistanceZero(cfg, rss);
    } else {
      RemainingStep(cfg, rss, list, 1);
    }
  }

  lemma SelfObserved(list: seq<ReplicaSet>)
    ensures Observed(list, list)
  {
  }

  lemma NextIs(cfg: Config, a: seq<ReplicaSet>, b: seq<ReplicaSet>, id: Identity, budget: nat)
    requires Unused(id, a) && Observed(Upgrade(cfg, a, id, budget).list, b) && budget >= 1
    ensures Next(cfg, a, b, 1)
  {
    hide Upgrade, Observed;
    assert NextBy(cfg, a, b, id, budget);
  }

  lemma UpgradeOlds(cfg: Config, rss: seq<ReplicaSet>, id: Identity, budget: nat)
    requires Listing(rss) && Unused(id, rss) && NewSize(cfg.template, rss) <= cfg.replicas
    ensures OldTotal(cfg.template, Upgrade(cfg, rss, id, budget).list) <= Max(OldTotal(cfg.template, rss), cfg.replicas)
  {
    hide NewOf, OldsOf, Total, Upgrade, MaxSurge;
    UpgradeStart(cfg, rss, id, budget);
    StartInRange(cfg, rss);
    SizesNonNegative(cfg.template, rss);
    LimitInRange(cfg.partition, cfg.replicas);
  }

  /** At the goal the batch is found ready. */
  lemma GoalIsReady(w: World, x: R.Inputs, m: Meets, f: Frame)
    requires InRelease(w.c, f) && Rolls(w.c) && Listing(w.rss) && Favoured(w, x, m, f) && w.c.status.state == R.StepUpgrade
    requires ValidThreshold(w.c.status.maxUnavailable)
    requires var cfg := ConfigOf(w.c, m);
             && NewOf(cfg.template, w.rss).Some? && Settled(cfg, w.rss)
             && x.rolling == R.Stepped(Upgrade(cfg, w.rss, m.id, m.budget).outcome, m.ready, true)
    ensures FindsReady(w.c, x)
  {
    hide NewOf, OldsOf, Total, Upgrade, NewRSReplicasLimit, R.AllowedUnavailable;
    var cfg := ConfigOf(w.c, m);
    BP.GoalIsQuiet(cfg, w.rss, m.id, m.budget);
    SizesNonNegative(cfg.template, w.rss);
    BP.TolerationNonNegative(w.c.status.maxUnavailable, NewSize(f.template, w.rss));
  }

  // ---- one round ----

  lemma BatchesLeftStep(f: Frame, k: nat)
    ensures k > 0 ==> BatchesLeft(f, k) == BatchesLeft(f, k - 1) + Cap(f) + 4
  {
  }

  /** What the round makes of the distance, by the state the reconcile finds. */
  lemma RollingNearer(w: World, x: R.Inputs, m: Meets, f: Frame)
    requires Live(w, f) && Rolls(w.c) && Favoured(w, x, m, f)
    ensures var v := NextWorld(w, Controller(x, m));
            && InRelease(v.c, f) && Left(v, f) < Left(w, f)
            && v.c.status.maxSurge == w.c.status.maxSurge && v.c.status.maxUnavailable == w.c.status.maxUnavailable
            && OldTotal(f.template, v.rss) <= Max(f.olds, f.replicas)
  {
    hide Going, NewSize, OldTotal, Gated, NextGate, ReadyReached, Remaining, Engine, R.Reconcile, AllAvailable, Unused, Upgrade, NewOf,
         Settled, FindsReady, BatchesLeft;
    GoingMeans(w, f);
    EngineSteps(w, m, f);
    var (list, rolling) := Engine(w.c, w.rss, m);
    var y := x.(rolling := rolling);
    StepGoes(w.c, y);
    StaysInRelease(w, x, m, f);
    BatchesLeftStep(f, |f.steps| - 1 - w.c.status.index);
    var cfg := ConfigOf(w.c, m);
    CfgSame(w, m);
    RemainingCapped(cfg, w.rss, Max(f.olds, f.replicas));
    if w.c.status.state == R.StepUpgrade {
      UpgradeNearer(cfg, w.rss, m.id, m.budget);
      CfgKept(w, NextWorld(w, Controller(x, m)), m, f);
      if Settled(cfg, w.rss) && NewOf(cfg.template, w.rss).Some? && Remaining(cfg, w.rss) == 0 {
        GoalIsReady(w, y, m, f);
      }
    }
  }

  lemma CfgSame(w: World, m: Meets)
    requires R.IndexInRange(w.c, w.c.status)
    ensures forall rss :: Remaining(ConfigOf(w.c, m), rss) == Remaining(ConfigOf(w.c, ANY_MEETS), rss)
  {
    hide Remaining;
    forall rss ensures Remaining(ConfigOf(w.c, m), rss) == Remaining(ConfigOf(w.c, ANY_MEETS), rss) {
      SameRemaining(ConfigOf(w.c, m), ANY_MEETS.statusReplicas, ANY_MEETS.nonFinite, ANY_MEETS.slack, rss);
    }
  }

  lemma CfgKept(w: World, v: World, m: Meets, f: Frame)
    requires InRelease(w.c, f) && InRelease(v.c, f) && v.c.status.index == w.c.status.index
    requires v.c.status.maxSurge == w.c.status.maxSurge && v.c.status.maxUnavailable == w.c.status.maxUnavailable
    ensures ConfigOf(v.c, m) == ConfigOf(w.c, m)
  {
  }

  lemma StaysInRelease(w: World, x: R.Inputs, m: Meets, f: Frame)
    requires Going(w, f) && Unused(m.id, w.rss)
    ensures Going(NextWorld(w, Controller(x, m)), f) && InRelease(NextWorld(w, Controller(x, m)).c, f)
  {
    hide Going, NextWorld, Unused;
    GoingController(w, x, m, f);
    GoingMeans(NextWorld(w, Controller(x, m)), f);
  }

  /** Finalizing completes, and a completed release stays. */
  lemma LastReconciles(w: World, x: R.Inputs, m: Meets, f: Frame)
    requires InRelease(w.c, f) && !Rolls(w.c)
    requires x.deploymentWrite == R.Accepted && x.releaseWrite == R.Accepted && x.statusWrite == R.Accepted
    ensures var v := NextWorld(w, Controller(x, m));
            && v.c.status.phase == R.Completed && v.rss == w.rss && v.g == w.g
            && v.c.status.maxSurge == w.c.status.maxSurge && v.c.status.maxUnavailable == w.c.status.maxUnavailable
  {
    ClusterStays(w.c, x, f);
  }

  lemma AllBatchesReady(w: World, f: Frame)
    requires Going(w, f) && w.c.status.phase == R.Finalizing
    ensures ReadyUpTo(w.g, |f.steps|)
  {
    hide NewSize, OldTotal, NewOf, Within;
  }

  lemma HonestHere(w: World, x: R.Inputs, m: Meets, f: Frame)
    requires InRelease(w.c, f) && w.c.deployment.updatedReplicas == NewSize(f.template, w.rss)
    ensures Honest(w, Controller(x, m))
  {
    hide NewSize, Engine, FindsReady;
  }

  /** The reconcile of a round keeps everything and gets nearer to completion. */
  lemma ReconcileNearer(w: World, x: R.Inputs, m: Meets, f: Frame)
    requires Live(w, f) && Favoured(w, x, m, f)
    ensures var v := NextWorld(w, Controller(x, m));
            Live(v, f) && Left(v, f) <= Positive(Left(w, f) - 1)
  {
    hide Going, NewSize, OldTotal, ReadyReached, NextWorld, StateLeft, AllAvailable, Unused, BatchesLeft;
    var v := NextWorld(w, Controller(x, m));
    GoingMeans(w, f);
    HonestHere(w, x, m, f);
    StaysInRelease(w, x, m, f);
    assert Steady(w, Controller(x, m));
    ReadyStep(w, Controller(x, m), f);
    RollsInRelease(w, f);
    if Rolls(w.c) {
      RollingNearer(w, x, m, f);
      if v.c.status.phase == R.Finalizing || v.c.status.phase == R.Completed {
        RollingOn(w, x, m, f);
        AllBatchesReady(v, f);
      }
    } else {
      LastReconciles(w, x, m, f);
    }
  }

  /** A batch is not followed by completion at once. */
  lemma RollingOn(w: World, x: R.Inputs, m: Meets, f: Frame)
    requires InRelease(w.c, f) && Rolls(w.c)
    ensures NextWorld(w, Controller(x, m)).c.status.phase != R.Completed
  {
    hide Engine, NextGate, R.RollingStep;
    var y := x.(rolling := Engine(w.c, w.rss, m).1);
    RR.RollingKeeps(w.c, w.c.status.(blocked := false), y);
  }

  lemma RoundNearer(a: World, b: World, f: Frame)
    requires Live(a, f) && Round(a, b)
    ensures Live(b, f) && Left(b, f) <= Positive(Left(a, f) - 1)
  {
    hide Live, Left, Told, NextWorld, Observed, AllAvailable, NewSize;
    var rss, x, m :| RoundBy(a, b, rss, x, m);
    ToldStays(a, rss, f);
    LiveTemplate(a, f);
    ReconcileNearer(Told(a, rss), x, m, f);
  }

  lemma LiveTemplate(w: World, f: Frame)
    requires Live(w, f)
    ensures w.c.deployment.template == f.template && InRelease(w.c, f)
  {
    hide Going, NewSize, OldTotal, ReadyReached;
    GoingMeans(w, f);
  }

  lemma StartLive(w: World, f: Frame)
    requires JustTaken(w, f) && ValidThreshold(w.c.status.maxSurge) && ValidThreshold(w.c.status.maxUnavailable)
    ensures Live(w, f) && Left(w, f) == 2 + BatchesLeft(f, |f.steps| - 1) + Cap(f) + 3
  {
    hide NewOf, OldsOf, Total, BatchesLeft;
    StartGoing(w, f);
  }

  lemma RoundsPrefix(trace: seq<World>)
    requires Rounds(trace) && |trace| > 1
    ensures Rounds(trace[..|trace| - 1]) && Round(trace[|trace| - 2], trace[|trace| - 1])
  {
    hide Round;
    var p := trace[..|trace| - 1];
    forall k | 0 <= k < |p| - 1 ensures Round(p[k], p[k + 1]) {
      assert Round(trace[k], trace[k + 1]);
    }
    assert Round(trace[|trace| - 2], trace[|trace| - 2 + 1]);
  }

  lemma {:induction false} RoundsNearer(trace: seq<World>, f: Frame)
    requires Rounds(trace) && Live(trace[0], f)
    ensures Live(trace[|trace| - 1], f) && Left(trace[|trace| - 1], f) <= Positive(Left(trace[0], f) - (|trace| - 1))
    decreases |trace|
  {
    hide Live, Left, Round;
    if |trace| > 1 {
      var p := trace[..|trace| - 1];
      RoundsPrefix(trace);
      assert p[|p| - 1] == trace[|trace| - 2];
      RoundsNearer(p, f);
      RoundNearer(trace[|trace| - 2], trace[|trace| - 1], f);
    }
  }

  /** How many rounds a release takes: for each batch the changes of its sizes and a few reconciles
      around them, and one to finalize. */
  function RoundsNeeded(f: Frame): nat {
    1 + |f.steps| * (f.replicas + Max(f.olds, f.replicas) + 5)
  }

  lemma {:induction false} BatchesCost(f: Frame, k: nat)
    ensures BatchesLeft(f, k) == k * (Cap(f) + 4)
  {
    if k > 0 {
      BatchesCost(f, k - 1);
    }
  }

  lemma StartCost(f: Frame)
    requires f.steps != []
    ensures 2 + BatchesLeft(f, |f.steps| - 1) + Cap(f) + 3 == RoundsNeeded(f)
  {
    BatchesCost(f, |f.steps|);
    BatchesLeftStep(f, |f.steps|);
  }

  lemma NothingLeft(w: World, f: Frame)
    requires Live(w, f)
    ensures Left(w, f) == 0 ==> w.c.status.phase == R.Completed
    ensures w.c.status.phase == R.Finalizing || w.c.status.phase == R.Completed
            ==> forall i :: 0 <= i < |f.steps| ==> NewRSReplicasLimit(f.steps[i], f.replicas) <= NewSize(f.template, w.rss)
  {
    hide Going, NewSize, OldTotal, NewRSReplicasLimit, StateLeft;
    GoingMeans(w, f);
  }

  /** Liveness: a release that has taken its Deployment over completes within so many rounds, each of
      one reconcile, whatever its steps; and then its new set has the pods of every batch. */
  lemma ReleaseCompletes(trace: seq<World>, f: Frame)
    requires Rounds(trace) && JustTaken(trace[0], f)
    requires ValidThreshold(trace[0].c.status.maxSurge) && ValidThreshold(trace[0].c.status.maxUnavailable)
    ensures var last := trace[|trace| - 1];
            && (|trace| > RoundsNeeded(f) ==> last.c.status.phase == R.Completed)
            && (last.c.status.phase == R.Finalizing || last.c.status.phase == R.Completed ==>
                  forall i :: 0 <= i < |f.steps| ==> NewRSReplicasLimit(f.steps[i], f.replicas) <= NewSize(f.template, last.rss))
  {
    hide Live, Left, JustTaken, RoundsNeeded, NewSize, NewRSReplicasLimit, Round;
    StartLive(trace[0], f);
    LiveTemplate(trace[0], f);
    StartCost(f);
    RoundsNearer(trace, f);
    NothingLeft(trace[|trace| - 1], f);
  }

  // ---- from the start ----

  /** Where a fresh release stands once it has taken its Deployment over. */
  ghost function TakenAtFirst(c: R.Cluster, x: R.Inputs, y: R.Inputs, z: R.Inputs, rss: seq<ReplicaSet>): World {
    var two := R.Reconcile(R.Reconcile(c, x), y);
    World(if c.annotations.current.Some? then two else R.Reconcile(two, z), rss, Gate(0, {}))
  }

  /** What stays the same from there on. */
  ghost function FrameOf(w: World, replicas: nat): Frame {
    var t := w.c.spec.template;
    Frame(w.c.spec.steps, replicas, t, if NewOf(t, w.rss).Some? then NewSize(t, w.rss) else Min(1, replicas), OldTotal(t, w.rss))
  }

  lemma FreshTakes(c: R.Cluster, x: R.Inputs, y: R.Inputs, z: R.Inputs, rss: seq<ReplicaSet>, original: R.RollingParameters)
    requires R.Fresh(c, original) && !c.annotations.mark
    requires x.statusWrite == R.Accepted && y.statusWrite == R.Accepted && z.statusWrite == R.Accepted
    requires y.releaseWrite == R.Accepted && y.deploymentWrite == R.Accepted && z.deploymentWrite == R.Accepted
    requires Listing(rss) && NoEvent(c.deployment.replicas, rss) && NewSize(c.spec.template, rss) <= c.deployment.replicas
    ensures var w := TakenAtFirst(c, x, y, z, rss);
            && JustTaken(w, FrameOf(w, c.deployment.replicas)) && w.c.spec == c.spec
            && w.c.status.maxSurge == original.surge && w.c.status.maxUnavailable == original.unavailable
  {
    hide R.Reconcile, NewOf, OldsOf, Total;
    Reports.StartsInThree(c, x, y, z, original);
    StartsUnmarked(c, x, y, z, original);
  }

  lemma StartsUnmarked(c: R.Cluster, x: R.Inputs, y: R.Inputs, z: R.Inputs, original: R.RollingParameters)
    requires R.Fresh(c, original) && !c.annotations.mark
    ensures !R.Reconcile(R.Reconcile(R.Reconcile(c, x), y), z).annotations.mark && !R.Reconcile(R.Reconcile(c, x), y).annotations.mark
  {
    hide R.Reconcile;
    UnmarkedStays(c, x);
    UnmarkedStays(R.Reconcile(c, x), y);
    UnmarkedStays(R.Reconcile(R.Reconcile(c, x), y), z);
  }

  lemma UnmarkedStays(c: R.Cluster, x: R.Inputs)
    requires !c.annotations.mark
    ensures !R.Reconcile(c, x).annotations.mark
  {
    hide R.RollingStep;
    RR.RollingKeeps(c, c.status.(blocked := false), x);
  }

  /** From the start to the end: once the writes of its first reconciles are accepted a fresh release
      completes within so many rounds, with the pods of every batch. */
  lemma FreshReleaseCompletes(c: R.Cluster, x: R.Inputs, y: R.Inputs, z: R.Inputs, trace: seq<World>, original: R.RollingParameters)
    requires R.Fresh(c, original) && !c.annotations.mark
    requires ValidThreshold(original.surge) && ValidThreshold(original.unavailable)
    requires x.statusWrite == R.Accepted && y.statusWrite == R.Accepted && z.statusWrite == R.Accepted
    requires y.releaseWrite == R.Accepted && y.deploymentWrite == R.Accepted && z.deploymentWrite == R.Accepted
    requires Rounds(trace) && trace[0] == TakenAtFirst(c, x, y, z, trace[0].rss)
    requires Listing(trace[0].rss) && NoEvent(c.deployment.replicas, trace[0].rss)
    requires NewSize(c.spec.template, trace[0].rss) <= c.deployment.replicas
    requires |trace| > RoundsNeeded(FrameOf(trace[0], c.deployment.replicas))
    ensures var last := trace[|trace| - 1];
            && last.c.status.phase == R.Completed
            && forall i :: 0 <= i < |c.spec.steps|
                           ==> NewRSReplicasLimit(c.spec.steps[i], c.deployment.replicas) <= NewSize(c.spec.template, last.rss)
  {
    hide R.Fresh, JustTaken, RoundsNeeded, NewSize, OldTotal, NewRSReplicasLimit, Round, TakenAtFirst, NoEvent;
    FreshTakes(c, x, y, z, trace[0].rss, original);
    ReleaseCompletes(trace, FrameOf(trace[0], c.deployment.replicas));
  }

  // ---- rounds there are ----

  function Seen(rs: ReplicaSet): ReplicaSet {
    rs.(available := if rs.size >= 0 then rs.size else 0)
  }

  function AllSeen(rss: seq<ReplicaSet>): (r: seq<ReplicaSet>)
    ensures |r| == |rss| && forall i :: 0 <= i < |rss| ==> r[i] == Seen(rss[i])
  {
    if rss == [] then [] else [Seen(rss[0])] + AllSeen(rss[1..])
  }

  ghost predicate UpToDate(t: Template, rss: seq<ReplicaSet>) {
    NewOf(t, rss).Some? ==> Renumbered(NewOf(t, rss).value, OldsOf(t, rss)) == NewOf(t, rss).value
  }

  /** Whatever state a release is in, a round can follow. */
  lemma RoundsGoOn(a: World, f: Frame, id: Identity) returns (b: World)
    requires Live(a, f) && Unused(id, a.rss) && UpToDate(f.template, AllSeen(a.rss))
    ensures Round(a, b)
  {
    hide Live, NewSize, NextWorld, Told, AsCoded, UpToDate;
    var rss := AllSeen(a.rss);
    SeenListing(a, f, id);
    ToldStays(a, rss, f);
    LiveTemplate(a, f);
    var x := R.Inputs(R.Accepted, R.Accepted, R.Accepted, R.SyncDone);
    var m := Meets(true, id, 1, NewSize(a.c.deployment.template, rss), true, 0, 0, {});
    LiveTemplate(Told(a, rss), f);
    ApartIsCoded(Told(a, rss), m, f);
    b := NextWorld(Told(a, rss), Controller(x, m));
    assert RoundBy(a, b, rss, x, m);
  }

  lemma SeenListing(a: World, f: Frame, id: Identity)
    requires Live(a, f) && Unused(id, a.rss)
    ensures var rss := AllSeen(a.rss); Observed(a.rss, rss) && AllAvailable(rss) && Unused(id, rss)
  {
    hide Going, NewSize, OldTotal, ReadyReached;
    GoingMeans(a, f);
    var rss := AllSeen(a.rss);
    assert AllUnseen(rss) == AllUnseen(a.rss);
    forall y | y in rss ensures y.available == y.size && y.name != id.name && y.uid != id.uid {
      var i :| 0 <= i < |rss| && rss[i] == y;
      assert a.rss[i] in a.rss;
    }
  }

  lemma ApartIsCoded(w: World, m: Meets, f: Frame)
    requires Live(w, f) && Unused(m.id, w.rss) && UpToDate(f.template, w.rss) && m.slack == {}
    ensures AsCoded(w, m)
  {
    hide Going, NewSize, OldTotal, ReadyReached, Upgrade, SharedSlices.UpgradeAppended, NewOf, OldsOf, Renumbered;
    GoingMeans(w, f);
    if Rolls(w.c) {
      SharedSlices.UpgradeSame(ConfigOf(w.c, m), w.rss, m.id, m.budget);
    }
  }

  // ---- releases and rollbacks of everything ----

  /** A release whose last step asks for everything is finalized with exactly the wanted pods of its
      version, if no reconcile that found a batch ready was told of more than the new set was given. */
  lemma FinalizedWhole(w: World, events: seq<Event>, f: Frame)
    requires JustTaken(w, f) && SteadyRun(w, events) && HonestRun(w, events)
    requires RunWorld(w, events).c.status.phase == R.Finalizing
    requires NewRSReplicasLimit(f.steps[|f.steps| - 1], f.replicas) == f.replicas
    ensures NewSize(f.template, RunWorld(w, events).rss) == f.replicas
    ensures RunWorld(w, events).c.deployment.template == f.template
  {
    hide SteadyRun, HonestRun, RunWorld, NewSize, OldTotal, NewRSReplicasLimit, Going;
    FinalizedWithEveryBatch(w, events, f);
    RunGoes(w, events, f);
    GoingMeans(RunWorld(w, events), f);
  }

  /** Where a release stands after the three reconciles that start a rollback. */
  ghost function TurnedBack(c: R.Cluster, x: R.Inputs, y: R.Inputs, z: R.Inputs, rss: seq<ReplicaSet>): World {
    World(R.Reconcile(R.Reconcile(R.Reconcile(c, x), y), z), rss, Gate(0, {}))
  }

  lemma RollbackTakes(c: R.Cluster, x: R.Inputs, y: R.Inputs, z: R.Inputs, rss: seq<ReplicaSet>, stable: Template,
                      original: R.RollingParameters)
    requires RR.StrategyKept(c, original) && RR.Installed(c) && c.annotations.mark && c.spec.template != stable
    requires (c.status.phase == R.RollingUpdate && c.annotations.current == Some(stable))
             || (c.status.phase == R.Completed && c.annotations.last == Some(stable))
    requires x.releaseWrite == R.Accepted && y.deploymentWrite == R.Accepted && y.statusWrite == R.Accepted && z.releaseWrite == R.Accepted
    requires Listing(rss) && NoEvent(c.deployment.replicas, rss) && NewSize(stable, rss) <= c.deployment.replicas
    ensures var w := TurnedBack(c, x, y, z, rss);
            && JustTaken(w, FrameOf(w, c.deployment.replicas)) && w.c.spec.template == stable
            && w.c.status.maxSurge == original.surge && w.c.status.maxUnavailable == original.unavailable
            && NewRSReplicasLimit(w.c.spec.steps[0], c.deployment.replicas) == Min(1, c.deployment.replicas)
            && NewRSReplicasLimit(w.c.spec.steps[|w.c.spec.steps| - 1], c.deployment.replicas) == c.deployment.replicas
  {
    hide R.Reconcile, NewRSReplicasLimit, NewOf, OldsOf, Total;
    FR.RollbackStarts(c, x, y, z, stable, original);
  }

  /** Liveness of a rollback, in mid-release or after completion: once its three writes are accepted it
      completes within so many rounds, with exactly the wanted pods of the version gone back to. */
  lemma RollbackCompletes(c: R.Cluster, x: R.Inputs, y: R.Inputs, z: R.Inputs, trace: seq<World>, stable: Template,
                          original: R.RollingParameters)
    requires RR.StrategyKept(c, original) && RR.Installed(c) && c.annotations.mark && c.spec.template != stable
    requires (c.status.phase == R.RollingUpdate && c.annotations.current == Some(stable))
             || (c.status.phase == R.Completed && c.annotations.last == Some(stable))
    requires x.releaseWrite == R.Accepted && y.deploymentWrite == R.Accepted && y.statusWrite == R.Accepted && z.releaseWrite == R.Accepted
    requires ValidThreshold(original.surge) && ValidThreshold(original.unavailable)
    requires Rounds(trace) && trace[0] == TurnedBack(c, x, y, z, trace[0].rss)
    requires Listing(trace[0].rss) && NoEvent(c.deployment.replicas, trace[0].rss)
    requires NewSize(stable, trace[0].rss) <= c.deployment.replicas
    requires |trace| > RoundsNeeded(FrameOf(trace[0], c.deployment.replicas))
    ensures var last := trace[|trace| - 1];
            && last.c.status.phase == R.Completed && last.c.deployment.template == stable
            && NewSize(stable, last.rss) == c.deployment.replicas
  {
    hide RR.StrategyKept, RR.Installed, JustTaken, RoundsNeeded, NewSize, OldTotal, NewRSReplicasLimit, Round, TurnedBack, Live, Left, NoEvent;
    var f := FrameOf(trace[0], c.deployment.replicas);
    RollbackTakes(c, x, y, z, trace[0].rss, stable, original);
    ReleaseCompletes(trace, f);
    StartLive(trace[0], f);
    LiveTemplate(trace[0], f);
    RoundsNearer(trace, f);
    EndsWhole(trace[|trace| - 1], f);
  }

  lemma EndsWhole(w: World, f: Frame)
    requires Live(w, f)
    ensures w.c.deployment.template == f.template && NewSize(f.template, w.rss) <= f.replicas
  {
    hide Going, NewSize, OldTotal, ReadyReached;
    GoingMeans(w, f);
  }
}
