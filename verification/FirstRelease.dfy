/**
  The first release of a Deployment, which has no record of a stable version yet, and where every
  rollback leads.
 */
module FirstRelease {
  import opened Base
  import opened Limits
  import opened Scaling
  import opened Release
  import opened ReleaseRuns
  import opened BatchGate

  /** The Deployment has not been touched, and if anything is recorded it is the version it runs. */
  predicate Untouched(c: Cluster, deployed: Template) {
    && (c.status.phase == NoPhase || c.status.phase == Initial) && c.status.observed.None?
    && c.deployment.template == deployed
    && (c.annotations.current.None? || c.annotations.current == c.annotations.last == Some(deployed))
  }

  lemma UntouchedStep(c: Cluster, e: Event, deployed: Template)
    requires Untouched(c, deployed)
    ensures var d := Apply(c, e);
            || Untouched(d, deployed)
            || (e.Controller? && TakesOver(c) && d.annotations.current == d.annotations.last == Some(deployed))
  {
  }

  /** Before the Deployment is first taken over nothing is recorded or the version it runs, as the
      current and as the last one; so that is the record with which it is taken over. */
  lemma {:induction false} FirstRecordIsDeployed(c: Cluster, events: seq<Event>, original: RollingParameters)
    requires Fresh(c, original) && c.annotations.current.None?
    ensures var deployed := c.deployment.template;
            || Untouched(Run(c, events), deployed)
            || exists k :: 0 < k <= |events| && Untouched(Run(c, events[..k - 1]), deployed)
                           && events[k - 1].Controller? && TakesOver(Run(c, events[..k - 1]))
                           && Run(c, events[..k]).annotations.current == Some(deployed)
                           && Run(c, events[..k]).annotations.last == Some(deployed)
    decreases |events|
  {
    hide Untouched, Apply, TakesOver;
    var deployed := c.deployment.template;
    if events == [] {
      FreshUntouched(c, original);
    } else {
      var n := |events| - 1;
      var p := events[..n];
      FirstRecordIsDeployed(c, p, original);
      assert events[..n + 1] == events;
      if Untouched(Run(c, p), deployed) {
        UntouchedStep(Run(c, p), events[n], deployed);
      } else {
        var k :| 0 < k <= |p| && Untouched(Run(c, p[..k - 1]), deployed)
                 && p[k - 1].Controller? && TakesOver(Run(c, p[..k - 1]))
                 && Run(c, p[..k]).annotations.current == Some(deployed)
                 && Run(c, p[..k]).annotations.last == Some(deployed);
        assert p[..k - 1] == events[..k - 1] && p[..k] == events[..k] && p[k - 1] == events[k - 1];
      }
    }
  }

  lemma FreshUntouched(c: Cluster, original: RollingParameters)
    requires Fresh(c, original) && c.annotations.current.None?
    ensures Untouched(c, c.deployment.template)
  {
  }

  // ---- the first release can be rolled back ----

  /** On the way from the version that was deployed first, recorded or not yet. */
  predicate Leaving(c: Cluster, deployed: Template) {
    || Underway(c, deployed)
    || (&& c.spec.template != deployed && (c.status.phase == NoPhase || c.status.phase == Initial)
        && c.annotations.current.None? && c.deployment.template == deployed)
  }

  lemma LeavingStep(c: Cluster, e: Event, deployed: Template)
    requires Leaving(c, deployed) && Retargets(c, e, deployed)
    ensures var d := Apply(c, e);
            || Leaving(d, deployed)
            || (e.Controller? && c.annotations.mark && Underway(c, deployed)
                && d.spec.template == deployed && d.spec != c.spec)
  {
    hide RollingStep;
    if Underway(c, deployed) {
      UnderwayStep(c, e, deployed);
    }
  }

  /** The k-th event is the reconcile that asks for the version that was deployed first. */
  ghost predicate LedBackBy(c: Cluster, events: seq<Event>, k: nat, deployed: Template)
    requires 0 < k <= |events|
  {
    var a, b := Run(c, events[..k - 1]), Run(c, events[..k]);
    Underway(a, deployed) && a.annotations.mark && b.spec.template == deployed && b.spec != a.spec
  }

  lemma LedBackEarlier(c: Cluster, events: seq<Event>, n: nat, k: nat, deployed: Template)
    requires 0 < k <= n <= |events| && LedBackBy(c, events[..n], k, deployed)
    ensures LedBackBy(c, events, k, deployed)
  {
    hide Underway, Run;
    assert events[..n][..k - 1] == events[..k - 1] && events[..n][..k] == events[..k];
  }

  /** A first release, retargeted at will: whenever it is rolled back, the first template that the
      rollback installs is the one that was deployed before it. */
  lemma {:induction false} FirstReleaseLeadsBack(c: Cluster, events: seq<Event>, original: RollingParameters)
    requires Fresh(c, original) && c.annotations.current.None? && c.spec.template != c.deployment.template
    requires RetargetRun(c, events, c.deployment.template)
    ensures var deployed := c.deployment.template;
            || Leaving(Run(c, events), deployed)
            || exists k :: 0 < k <= |events| && LedBackBy(c, events, k, deployed)
    decreases |events|
  {
    hide Leaving, Retargets, Apply, LedBackBy, Fresh;
    var deployed := c.deployment.template;
    if events == [] {
      FreshLeaving(c, original);
    } else {
      var n := |events| - 1;
      var p := events[..n];
      RetargetPrefix(c, events, deployed);
      FirstReleaseLeadsBack(c, p, original);
      if Leaving(Run(c, p), deployed) {
        LeavingLast(c, events, deployed);
      } else {
        var k :| 0 < k <= |p| && LedBackBy(c, p, k, deployed);
        LedBackEarlier(c, events, n, k, deployed);
      }
    }
  }

  lemma LeavingLast(c: Cluster, events: seq<Event>, deployed: Template)
    requires events != [] && Leaving(Run(c, events[..|events| - 1]), deployed)
    requires Retargets(Run(c, events[..|events| - 1]), events[|events| - 1], deployed)
    ensures Leaving(Run(c, events), deployed) || LedBackBy(c, events, |events|, deployed)
  {
    hide Leaving, Underway, Retargets, Apply;
    assert events[..|events|] == events;
    LeavingStep(Run(c, events[..|events| - 1]), events[|events| - 1], deployed);
  }

  lemma FreshLeaving(c: Cluster, original: RollingParameters)
    requires Fresh(c, original) && c.annotations.current.None? && c.spec.template != c.deployment.template
    ensures Leaving(c, c.deployment.template)
  {
  }

  // ---- what a rollback asks for ----

  /** The steps start with a single pod and end with all of them, however many are wanted. */
  ghost predicate OneThenAll(steps: seq<IntOrString>) {
    && steps != []
    && forall replicas: nat :: NewRSReplicasLimit(steps[0], replicas) == Min(1, replicas)
                               && NewRSReplicasLimit(steps[|steps| - 1], replicas) == replicas
  }

  /** The only steps a reconcile ever stores are such steps, together with the version to go back to. */
  lemma RollbackAsksForAll(c: Cluster, x: Inputs)
    requires Reconcile(c, x).spec != c.spec
    ensures OneThenAll(Reconcile(c, x).spec.steps) && c.annotations.mark
    ensures c.status.phase == RollingUpdate && c.annotations.current.Some?
            ==> c.annotations.current == Some(Reconcile(c, x).spec.template)
    ensures c.status.phase == Completed && c.annotations.last.Some?
            ==> c.annotations.last == Some(Reconcile(c, x).spec.template)
    ensures (c.status.phase == RollingUpdate && c.annotations.current.None?) || (c.status.phase == Completed && c.annotations.last.None?)
            ==> Reconcile(c, x).spec.template == EMPTY_TEMPLATE
  {
    hide RollingStep;
    RollingKeeps(c, c.status.(blocked := false), x);
    forall replicas: nat ensures NewRSReplicasLimit(Percent(100), replicas) == replicas {
      LimitAtEnds(100, replicas);
    }
  }

  /** The three reconciles of a rollback whose writes are accepted: the version to go back to is asked
      for, the Deployment is taken over with it, and the mark is removed; nothing else is left of the
      release that was stopped. */
  lemma RollbackStarts(c: Cluster, x: Inputs, y: Inputs, z: Inputs, stable: Template, original: RollingParameters)
    requires StrategyKept(c, original) && Installed(c) && c.annotations.mark && c.spec.template != stable
    requires (c.status.phase == RollingUpdate && c.annotations.current == Some(stable))
             || (c.status.phase == Completed && c.annotations.last == Some(stable))
    requires x.releaseWrite == Accepted
    requires y.deploymentWrite == Accepted && y.statusWrite == Accepted
    requires z.releaseWrite == Accepted
    ensures var d := Reconcile(Reconcile(Reconcile(c, x), y), z);
            && d.spec.template == stable && OneThenAll(d.spec.steps)
            && d.deployment == c.deployment.(template := stable, paused := true, rolling := false, rollingUpdate := None, controlled := true)
            && d.annotations == c.annotations.(mark := false)
            && d.status.phase == RollingBack && d.status.index == 0 && d.status.state == NoState && d.status.updatedReady == 0
            && d.status.observed == Some(stable) && StrategySaved(d.status, original)
  {
    hide RollingStep, IsBatchReady, OneThenAll, StrategyKept, Installed;
    RollbackAsks(c, x, stable, original);
    var a := Reconcile(c, x);
    RollbackTakesOver(a, y, stable, original);
    MarkRemoved(Reconcile(a, y), z);
  }

  lemma RollbackAsks(c: Cluster, x: Inputs, stable: Template, original: RollingParameters)
    requires StrategyKept(c, original) && c.annotations.mark && c.spec.template != stable && x.releaseWrite == Accepted
    requires (c.status.phase == RollingUpdate && c.annotations.current == Some(stable))
             || (c.status.phase == Completed && c.annotations.last == Some(stable))
    ensures var a := Reconcile(c, x);
            && a.spec.template == stable && OneThenAll(a.spec.steps)
            && a.deployment == c.deployment && a.annotations == c.annotations
            && a.status.phase == c.status.phase && StrategyKept(a, original) && StrategySaved(a.status, original)
  {
    hide RollingStep, OneThenAll;
    RollbackAsksForAll(c, x);
  }

  lemma RollbackTakesOver(a: Cluster, y: Inputs, stable: Template, original: RollingParameters)
    requires StrategyKept(a, original) && a.annotations.mark && a.spec.template == stable
    requires (a.status.phase == RollingUpdate && a.annotations.current == Some(stable))
             || (a.status.phase == Completed && a.annotations.last == Some(stable))
    requires y.deploymentWrite == Accepted && y.statusWrite == Accepted
    ensures var b := Reconcile(a, y);
            && b.spec == a.spec && b.annotations == a.annotations
            && b.deployment == a.deployment.(template := stable, paused := true, rolling := false, rollingUpdate := None, controlled := true)
            && b.status.phase == RollingBack && b.status.index == 0 && b.status.state == NoState && b.status.updatedReady == 0
            && b.status.observed == Some(stable) && StrategySaved(b.status, original)
  {
    hide RollingStep;
  }

  /** Removing the mark changes nothing else. */
  lemma MarkRemoved(b: Cluster, z: Inputs)
    requires b.status.phase == RollingBack && b.annotations.mark && Stored(z.releaseWrite)
    ensures Reconcile(b, z) == b.(annotations := b.annotations.(mark := false))
  {
  }
}
