/** Theorems over whole runs of the release state machine. */
module ReleaseRuns {
  import opened Base
  import opened Limits
  import opened Scaling
  import opened Release

  predicate InRelease(p: Phase) {
    p == RollingUpdate || p == RollingBack || p == Finalizing || p == Completed
  }

  /** A batch step touches neither the store nor what a release saved or observed, and can only
      stay in its phase or go on to finalizing. */
  lemma RollingKeeps(c: Cluster, s: Status, x: Inputs)
    ensures var d := RollingStep(c, s, x);
            && d.store == c
            && (d.status.phase == s.phase || d.status.phase == Finalizing)
            && d.status.maxSurge == s.maxSurge && d.status.maxUnavailable == s.maxUnavailable
            && d.status.observed == s.observed
            && s.index <= d.status.index <= s.index + 1
  {
    hide IsBatchReady, NewRSReplicasLimit;
  }

  // ---- the original strategy ----

  predicate StrategySaved(s: Status, original: RollingParameters) {
    s.maxSurge == original.surge && s.maxUnavailable == original.unavailable
  }

  predicate StrategyRestored(d: Deployment, original: RollingParameters) {
    !d.paused && d.rolling && !d.controlled && d.rollingUpdate == Some(original)
  }

  predicate StrategyKept(c: Cluster, original: RollingParameters) {
    && original.surge.Some? && original.unavailable.Some?
    && (c.annotations.current.Some? ==> c.annotations.last.Some?)
    && (StrategySaved(c.status, original) || (c.status.maxSurge.None? && c.status.maxUnavailable.None?))
    && (c.deployment.rollingUpdate == Some(original) || (c.deployment.rollingUpdate.None? && StrategySaved(c.status, original)))
    && (InRelease(c.status.phase) ==> StrategySaved(c.status, original) && c.annotations.current.Some?)
    && (c.status.phase == Completed && !c.annotations.mark ==> StrategyRestored(c.deployment, original))
  }

  lemma StrategyController(c: Cluster, x: Inputs, original: RollingParameters)
    requires StrategyKept(c, original)
    ensures StrategyKept(Reconcile(c, x), original)
  {
    hide RollingStep;
    RollingKeeps(c, c.status.(blocked := false), x);
  }

  lemma StrategyStep(c: Cluster, e: Event, original: RollingParameters)
    requires StrategyKept(c, original)
    ensures StrategyKept(Apply(c, e), original)
  {
    hide Reconcile;
    if e.Controller? {
      StrategyController(c, e.x, original);
    }
  }

  /** In every reachable store a cleared strategy is saved in the status; and a completed release
      without a pending rollback mark has the deployment running with exactly the original one,
      through retargets, rollbacks and rejected or lost writes. */
  lemma {:induction false} StrategyRoundTrip(c: Cluster, events: seq<Event>, original: RollingParameters)
    requires Fresh(c, original)
    ensures var r := Run(c, events);
            && StrategyKept(r, original)
            && (r.deployment.rollingUpdate.None? ==> StrategySaved(r.status, original))
            && (r.status.phase == Completed && !r.annotations.mark ==> StrategyRestored(r.deployment, original))
    decreases |events|
  {
    if events != [] {
      StrategyRoundTrip(c, events[..|events| - 1], original);
      StrategyStep(Run(c, events[..|events| - 1]), events[|events| - 1], original);
    }
  }

  /** Under a pending mark the promise fails: from a completed release whose strategy is in place,
      two reconciles can leave it completed with the strategy cleared (the second one's status
      write is rejected) exactly when the mark is set. */
  lemma CompletedStaysRestored(c: Cluster, original: RollingParameters)
    requires StrategyKept(c, original) && c.status.phase == Completed && !TemplateUpdated(c)
    requires StrategyRestored(c.deployment, original) && c.annotations.last.Some?
    ensures (forall x, y :: Reconcile(Reconcile(c, x), y).status.phase == Completed
                            ==> StrategyRestored(Reconcile(Reconcile(c, x), y).deployment, original))
            <==> !c.annotations.mark
  {
    if c.annotations.mark {
      var x := Inputs(Accepted, Accepted, Rejected, SyncDone);
      var d := Reconcile(Reconcile(c, x), x);
      assert d.status.phase == Completed && d.deployment.rollingUpdate.None?;
    } else {
      forall x, y ensures Reconcile(Reconcile(c, x), y).deployment == c.deployment {}
    }
  }

  // ---- stable versions ----

  /** Once a stable version is recorded, the records change only when a release is finalized:
      then the previous current version becomes the last one. */
  lemma RecordsChangeOnlyInFinalize(c: Cluster, e: Event)
    requires c.annotations.current.Some?
    ensures var a, a' := c.annotations, Apply(c, e).annotations;
            && a'.current.Some?
            && (a'.current == a.current ==> a'.last == a.last)
            && (a'.current != a.current ==>
                  && e.Controller? && c.status.phase == Finalizing && !TemplateUpdated(c)
                  && a'.current == Some(c.spec.template) && a'.last == a.current)
  {
    hide RollingStep;
    if e.Controller? {
      RollingKeeps(c, c.status.(blocked := false), e.x);
    }
  }

  /** The released version is recorded only once the Deployment runs with its own strategy again, and
      the write that gave it back was accepted. */
  lemma RecordedOnceRestored(c: Cluster, x: Inputs, original: RollingParameters)
    requires StrategyKept(c, original) && c.annotations.current.Some?
    ensures Reconcile(c, x).annotations.current != c.annotations.current
            ==> StrategyRestored(Reconcile(c, x).deployment, original) && x.deploymentWrite == Accepted
  {
    hide RollingStep;
    RollingKeeps(c, c.status.(blocked := false), x);
  }

  /** A release past its start goes back to the start exactly when its template was edited and no
      rollback is asked for; that reconcile changes nothing else, and the edit is noticed once. */
  lemma RestartsExactlyOnEdit(c: Cluster, x: Inputs)
    requires c.status.phase != NoPhase && c.status.phase != Initial
    ensures var d := Reconcile(c, x);
            && (d.status.phase == Initial <==> TemplateUpdated(c) && Stored(x.statusWrite))
            && (TemplateUpdated(c) ==> d == c.(status := d.status))
            && (d.status.phase == Initial ==> !TemplateUpdated(d) && d.status.index == c.status.index)
  {
    hide RollingStep;
    RollingKeeps(c, c.status.(blocked := false), x);
  }

  lemma InitAlone(c: Cluster, s: Status, x: Inputs, w: Write)
    ensures Init(c, s, x.(statusWrite := w)) == Init(c, s, x)
  {
  }

  lemma StepsAlone(c: Cluster, s: Status, t: Option<Template>, x: Inputs, w: Write)
    ensures PreRollback(c, s, t, x.(statusWrite := w)) == PreRollback(c, s, t, x)
    ensures Finalize(c, s, x.(statusWrite := w)) == Finalize(c, s, x)
    ensures RemoveRollbackMark(c, x.(statusWrite := w)) == RemoveRollbackMark(c, x)
    ensures RollingStep(c, s, x.(statusWrite := w)) == RollingStep(c, s, x)
  {
    hide Init, StepByStep;
    InitAlone(c, s, x, w);
  }

  lemma DoIgnoresStatusWrite(c: Cluster, x: Inputs, w: Write)
    ensures Do(c, x.(statusWrite := w)) == Do(c, x)
  {
    hide RollingStep, Init, PreRollback, Finalize, RemoveRollbackMark;
    var s := c.status.(blocked := false);
    InitAlone(c, s, x, w);
    InitAlone(c, s.(phase := Initial), x, w);
    StepsAlone(c, s, c.annotations.current, x, w);
    StepsAlone(c, s, c.annotations.last, x, w);
  }

  lemma DoWrites(c: Cluster, x: Inputs)
    ensures var d := Do(c, x).store;
            && d.status == c.status
            && (d.deployment != c.deployment ==> Stored(x.deploymentWrite))
            && (d.spec != c.spec || d.annotations != c.annotations ==> Stored(x.releaseWrite))
  {
    hide RollingStep;
    RollingKeeps(c, c.status.(blocked := false), x);
  }

  /** Each stored object changes only by its own write, and a status write that is rejected loses
      the status and nothing else. */
  lemma WritesAreSeparate(c: Cluster, x: Inputs)
    ensures var d := Reconcile(c, x);
            && (d.deployment != c.deployment ==> Stored(x.deploymentWrite))
            && (d.spec != c.spec || d.annotations != c.annotations ==> Stored(x.releaseWrite))
            && (d.status != c.status ==> Stored(x.statusWrite))
            && Reconcile(c, x.(statusWrite := Rejected)) == d.(status := c.status)
            && Reconcile(c, x.(statusWrite := Lost)) == Reconcile(c, x.(statusWrite := Accepted))
  {
    hide Do;
    DoWrites(c, x);
    forall w ensures Do(c, x.(statusWrite := w)) == Do(c, x) {
      DoIgnoresStatusWrite(c, x, w);
    }
  }

  /** What the status observed is what the deployment was given, in the phases that build on it. */
  predicate Installed(c: Cluster) {
    && (c.status.phase == Finalizing || c.status.phase == RollingBack ==> c.status.observed == Some(c.deployment.template))
    && (c.status.phase == RollingUpdate && !c.annotations.mark ==> c.status.observed == Some(c.deployment.template))
  }

  lemma InstalledStep(c: Cluster, e: Event)
    requires Installed(c)
    ensures Installed(Apply(c, e))
  {
    hide RollingStep;
    if e.Controller? {
      RollingKeeps(c, c.status.(blocked := false), e.x);
    }
  }

  lemma {:induction false} InstalledAlways(c: Cluster, events: seq<Event>, original: RollingParameters)
    requires Fresh(c, original)
    ensures Installed(Run(c, events))
    decreases |events|
  {
    if events != [] {
      InstalledAlways(c, events[..|events| - 1], original);
      InstalledStep(Run(c, events[..|events| - 1]), events[|events| - 1]);
    }
  }

  /** The deployment controller keeps its hands off while batches roll. */
  predicate Held(c: Cluster) {
    c.status.phase == RollingUpdate || c.status.phase == RollingBack ==>
      c.deployment.paused && !c.deployment.rolling && c.deployment.rollingUpdate.None? && c.deployment.controlled
  }

  lemma HeldStep(c: Cluster, e: Event)
    requires Held(c)
    ensures Held(Apply(c, e))
  {
    hide RollingStep;
    if e.Controller? {
      RollingKeeps(c, c.status.(blocked := false), e.x);
    }
  }

  /** In every reachable store a deployment whose release is rolling forward or back is paused,
      without rolling strategy, and marked as controlled. */
  lemma {:induction false} HeldAlways(c: Cluster, events: seq<Event>, original: RollingParameters)
    requires Fresh(c, original)
    ensures Held(Run(c, events))
    decreases |events|
  {
    if events != [] {
      HeldAlways(c, events[..|events| - 1], original);
      HeldStep(Run(c, events[..|events| - 1]), events[|events| - 1]);
    }
  }

  /** A reconcile of a finalizing release can only record the version the deployment runs,
      exactly unless the template was edited under the rollback mark: the mark hides the edit,
      and the edited, never released template is what gets recorded. */
  lemma FinalizeRecordsReleased(c: Cluster)
    requires c.status.phase == Finalizing && Installed(c) && c.annotations.current.Some?
    ensures (forall x :: Reconcile(c, x).annotations.current == c.annotations.current
                         || Reconcile(c, x).annotations.current == Some(Reconcile(c, x).deployment.template))
            <==> !(c.annotations.mark && c.status.observed != Some(c.spec.template) && c.annotations.current != Some(c.spec.template))
  {
    if c.annotations.mark && c.status.observed != Some(c.spec.template) && c.annotations.current != Some(c.spec.template) {
      var x := Inputs(Accepted, Accepted, Accepted, SyncDone);
      assert Reconcile(c, x).annotations.current == Some(c.spec.template);
      assert Reconcile(c, x).deployment.template == c.deployment.template;
    }
  }

  /** Users take one thing at a time: no edit while a rollback is asked for, and no rollback
      while an edit is not yet observed. */
  predicate OneAtATime(c: Cluster, e: Event) {
    && (e.EditTemplate? || e.Resubmit? ==> !c.annotations.mark)
    && (e.SetMark? ==> c.status.observed == Some(c.spec.template) || !InRelease(c.status.phase))
  }

  ghost predicate Orderly(c: Cluster, events: seq<Event>) {
    forall k :: 0 <= k < |events| ==> OneAtATime(Run(c, events[..k]), events[k])
  }

  lemma OrderlyPrefix(c: Cluster, events: seq<Event>)
    requires Orderly(c, events) && events != []
    ensures Orderly(c, events[..|events| - 1])
    ensures OneAtATime(Run(c, events[..|events| - 1]), events[|events| - 1])
  {
    var p := events[..|events| - 1];
    forall k | 0 <= k < |p| ensures OneAtATime(Run(c, p[..k]), p[k]) {
      assert p[..k] == events[..k];
      assert OneAtATime(Run(c, events[..k]), events[k]);
    }
  }

  predicate MarkSeesTemplate(c: Cluster) {
    c.annotations.mark && c.status.phase == Finalizing ==> c.status.observed == Some(c.spec.template)
  }

  /** In orderly runs a version is recorded as stable only when the deployment runs it: an edit in
      the middle of a release never makes a half-released version stable. */
  lemma {:induction false} OnlyReleasedVersionsAreStable(c: Cluster, events: seq<Event>, original: RollingParameters)
    requires Fresh(c, original) && Orderly(c, events)
    ensures MarkSeesTemplate(Run(c, events))
    ensures events != [] && Run(c, events[..|events| - 1]).annotations.current.Some?
            && Run(c, events).annotations.current != Run(c, events[..|events| - 1]).annotations.current
            ==> Run(c, events).annotations.current == Some(Run(c, events).deployment.template)
    decreases |events|
  {
    if events != [] {
      var p := events[..|events| - 1];
      OrderlyPrefix(c, events);
      OnlyReleasedVersionsAreStable(c, p, original);
      InstalledAlways(c, p, original);
      OrderlyStep(Run(c, p), events[|events| - 1]);
    }
  }

  lemma OrderlyStep(c: Cluster, e: Event)
    requires Installed(c) && MarkSeesTemplate(c) && OneAtATime(c, e)
    ensures MarkSeesTemplate(Apply(c, e))
    ensures c.annotations.current.Some? && Apply(c, e).annotations.current != c.annotations.current
            ==> Apply(c, e).annotations.current == Some(Apply(c, e).deployment.template)
  {
  }

  /** Finalizing again after a failed status write finds everything in place and changes neither
      the records nor the deployment. */
  lemma FinalizeRepeats(c: Cluster, x: Inputs, y: Inputs)
    requires c.status.phase == Finalizing && !TemplateUpdated(c)
    requires x.deploymentWrite == Accepted && x.releaseWrite == Accepted
    ensures var once := Reconcile(c, x.(statusWrite := Rejected));
            var twice := Reconcile(once, y);
            && once.annotations.current == Some(c.spec.template)
            && twice.annotations == once.annotations && twice.deployment == once.deployment
            && (y.deploymentWrite == Accepted && Stored(y.statusWrite) ==> twice.status.phase == Completed)
  {
  }

  // ---- rollback ----

  /** A release from `stable` to `next` that no rollback has touched yet. */
  predicate Releasing(c: Cluster, stable: Template, next: Template) {
    && c.spec.template == next
    && (match c.status.phase
        case NoPhase => c.annotations.current == Some(stable)
        case Initial => c.annotations.current == Some(stable)
        case RollingUpdate => c.annotations.current == Some(stable)
        case RollingBack => false
        case Finalizing =>
          || c.annotations.current == Some(stable)
          || (c.annotations.current == Some(next) && c.annotations.last == Some(stable))
        case Completed => c.annotations.current == Some(next) && c.annotations.last == Some(stable))
    && (InRelease(c.status.phase) ==> c.status.observed == Some(next))
  }

  predicate NoEdit(e: Event) {
    !e.EditTemplate? && !e.Resubmit?
  }

  lemma ReleasingStep(c: Cluster, e: Event, stable: Template, next: Template)
    requires Releasing(c, stable, next) && stable != next && NoEdit(e)
    ensures var d := Apply(c, e);
            || Releasing(d, stable, next)
            || (d.spec == Spec(stable, ROLLBACK_STEPS) && c.annotations.mark)
  {
  }

  /** Wherever in a release the mark is set, the first template that a rollback installs is the
      version that was stable before the release. */
  lemma {:induction false} RollbackInstallsStable(c: Cluster, events: seq<Event>, stable: Template, next: Template)
    requires Releasing(c, stable, next) && stable != next && forall e :: e in events ==> NoEdit(e)
    ensures Releasing(Run(c, events), stable, next)
            || exists k :: 0 < k <= |events| && Releasing(Run(c, events[..k - 1]), stable, next)
                           && Run(c, events[..k - 1]).annotations.mark
                           && Run(c, events[..k]).spec == Spec(stable, ROLLBACK_STEPS)
    decreases |events|
  {
    if events != [] {
      var n := |events| - 1;
      var p := events[..n];
      RollbackInstallsStable(c, p, stable, next);
      if Releasing(Run(c, p), stable, next) {
        ReleasingStep(Run(c, p), events[n], stable, next);
        assert events[..n + 1] == events;
        if !Releasing(Run(c, events), stable, next) {
          assert Run(c, events[..n + 1]).spec == Spec(stable, ROLLBACK_STEPS);
        }
      } else {
        var k :| 0 < k <= |p| && Releasing(Run(c, p[..k - 1]), stable, next)
                 && Run(c, p[..k - 1]).annotations.mark && Run(c, p[..k]).spec == Spec(stable, ROLLBACK_STEPS);
        assert p[..k - 1] == events[..k - 1] && p[..k] == events[..k];
      }
    }
  }

  // ---- rollback after retargets ----

  /** A release on its way from `stable` whose template may still change. */
  predicate Underway(c: Cluster, stable: Template) {
    && c.spec.template != stable
    && (match c.status.phase
        case NoPhase => c.annotations.current == Some(stable)
        case Initial => c.annotations.current == Some(stable)
        case RollingUpdate => c.annotations.current == Some(stable) && c.status.observed.Some?
        case RollingBack => false
        case Finalizing =>
          && c.status.observed == Some(c.spec.template)
          && (c.annotations.current == Some(stable)
              || (c.annotations.current == Some(c.spec.template) && c.annotations.last == Some(stable)))
        case Completed =>
          && c.status.observed == Some(c.spec.template)
          && c.annotations.current == Some(c.spec.template) && c.annotations.last == Some(stable))
  }

  /** The template is edited or resubmitted while the release is starting or rolling, to another
      than the stable one; nothing else is edited. */
  predicate Retargets(c: Cluster, e: Event, stable: Template) {
    match e
    case EditTemplate(t) => t != stable && (c.status.phase == NoPhase || c.status.phase == Initial || c.status.phase == RollingUpdate)
    case Resubmit(t, steps) => t != stable && (c.status.phase == NoPhase || c.status.phase == Initial || c.status.phase == RollingUpdate)
    case _ => true
  }

  ghost predicate RetargetRun(c: Cluster, events: seq<Event>, stable: Template) {
    forall k :: 0 <= k < |events| ==> Retargets(Run(c, events[..k]), events[k], stable)
  }

  /** A retarget in mid-release keeps the version that a rollback leads back to. */
  lemma RetargetKeepsTarget(c: Cluster, t: Template, x: Inputs, stable: Template, next: Template)
    requires Releasing(c, stable, next) && c.status.phase == RollingUpdate && !c.annotations.mark
    requires t != stable && t != next && Stored(x.statusWrite)
    ensures Releasing(Reconcile(Apply(c, EditTemplate(t)), x), stable, t)
  {
  }

  lemma UnderwayStep(c: Cluster, e: Event, stable: Template)
    requires Underway(c, stable) && Retargets(c, e, stable)
    ensures var d := Apply(c, e);
            || Underway(d, stable)
            || (e.Controller? && c.annotations.mark && d.spec == Spec(stable, ROLLBACK_STEPS))
  {
    hide RollingStep;
    if e.Controller? {
      RollingKeeps(c, c.status.(blocked := false), e.x);
    }
  }

  lemma RetargetPrefix(c: Cluster, events: seq<Event>, stable: Template)
    requires RetargetRun(c, events, stable) && events != []
    ensures RetargetRun(c, events[..|events| - 1], stable)
    ensures Retargets(Run(c, events[..|events| - 1]), events[|events| - 1], stable)
  {
    hide Retargets;
    var p := events[..|events| - 1];
    forall k | 0 <= k < |p| ensures Retargets(Run(c, p[..k]), p[k], stable) {
      assert p[..k] == events[..k];
      assert Retargets(Run(c, events[..k]), events[k], stable);
    }
  }

  /** However often a release is retargeted on its way and wherever the mark is then set, the first
      template that a rollback installs is the version that was stable before it all. */
  lemma {:induction false} RollbackAfterRetargets(c: Cluster, events: seq<Event>, stable: Template)
    requires Underway(c, stable) && RetargetRun(c, events, stable)
    ensures Underway(Run(c, events), stable)
            || exists k :: 0 < k <= |events| && Underway(Run(c, events[..k - 1]), stable)
                           && Run(c, events[..k - 1]).annotations.mark
                           && Run(c, events[..k]).spec == Spec(stable, ROLLBACK_STEPS)
    decreases |events|
  {
    hide Underway, Retargets, Apply;
    if events != [] {
      var n := |events| - 1;
      var p := events[..n];
      RetargetPrefix(c, events, stable);
      RollbackAfterRetargets(c, p, stable);
      if Underway(Run(c, p), stable) {
        UnderwayStep(Run(c, p), events[n], stable);
        assert events[..n + 1] == events;
        if !Underway(Run(c, events), stable) {
          assert Run(c, events[..n + 1]).spec == Spec(stable, ROLLBACK_STEPS);
        }
      } else {
        var k :| 0 < k <= |p| && Underway(Run(c, p[..k - 1]), stable)
                 && Run(c, p[..k - 1]).annotations.mark && Run(c, p[..k]).spec == Spec(stable, ROLLBACK_STEPS);
        assert p[..k - 1] == events[..k - 1] && p[..k] == events[..k];
      }
    }
  }

  /** A completed release at rest: its template is the current stable one. */
  predicate AtRest(c: Cluster, current: Template, last: Template, original: RollingParameters) {
    && StrategyKept(c, original) && Installed(c)
    && c.status.phase == Completed && !c.annotations.mark
    && c.spec.template == current && c.status.observed == Some(current) && c.deployment.template == current
    && c.annotations.current == Some(current) && c.annotations.last == Some(last)
  }

  /** Somewhere on the way from a marked, completed release back to its last version. */
  predicate GoingBack(c: Cluster, current: Template, last: Template, original: RollingParameters) {
    && StrategyKept(c, original) && Installed(c)
    && (match c.status.phase
        case Completed =>
          if c.annotations.mark then
            && (c.spec.template == current || c.spec.template == last)
            && c.annotations.current == Some(current) && c.annotations.last == Some(last)
          else AtRest(c, last, current, original)
        case RollingBack =>
          && c.spec.template == last && c.status.observed == Some(last)
          && c.annotations.current == Some(current) && c.annotations.last == Some(last)
        case Finalizing =>
          && !c.annotations.mark && c.spec.template == last && c.status.observed == Some(last)
          && ((c.annotations.current == Some(current) && c.annotations.last == Some(last))
              || (c.annotations.current == Some(last) && c.annotations.last == Some(current)))
        case _ => false)
  }

  predicate OnlyContinues(e: Event) {
    e.Controller? || e.Continue? || e.Observe?
  }

  lemma GoingBackStep(c: Cluster, e: Event, current: Template, last: Template, original: RollingParameters)
    requires GoingBack(c, current, last, original) && OnlyContinues(e)
    ensures GoingBack(Apply(c, e), current, last, original)
  {
    hide RollingStep;
    if e.Controller? {
      RollingKeeps(c, c.status.(blocked := false), e.x);
    }
    StrategyStep(c, e, original);
    InstalledStep(c, e);
  }

  /** A rollback from rest, however its writes fare: whenever it has completed, the last version
      is installed again and the two records have changed places. */
  lemma {:induction false} RollbackSwaps(c: Cluster, events: seq<Event>, current: Template, last: Template,
          original: RollingParameters)
    requires AtRest(c, current, last, original) && forall e :: e in events ==> OnlyContinues(e)
    ensures var r := Run(Apply(c, SetMark), events);
            && GoingBack(r, current, last, original)
            && (r.status.phase == Completed && !r.annotations.mark ==> AtRest(r, last, current, original))
    decreases |events|
  {
    if events == [] {
      StrategyStep(c, SetMark, original);
    } else {
      var p := events[..|events| - 1];
      RollbackSwaps(c, p, current, last, original);
      GoingBackStep(Run(Apply(c, SetMark), p), events[|events| - 1], current, last, original);
    }
  }

  /** Two completed rollbacks restore the template, the two records and the strategy. */
  lemma TwoRollbacksRestore(c: Cluster, first: seq<Event>, second: seq<Event>, current: Template,
          last: Template, original: RollingParameters)
    requires AtRest(c, current, last, original)
    requires forall e :: e in first || e in second ==> OnlyContinues(e)
    ensures var mid := Run(Apply(c, SetMark), first);
            var end := Run(Apply(mid, SetMark), second);
            (mid.status.phase == Completed && !mid.annotations.mark && end.status.phase == Completed && !end.annotations.mark)
            ==> && end.spec.template == c.spec.template && end.deployment.template == c.deployment.template
                && end.annotations == c.annotations && StrategyRestored(end.deployment, original)
  {
    RollbackSwaps(c, first, current, last, original);
    var mid := Run(Apply(c, SetMark), first);
    if mid.status.phase == Completed && !mid.annotations.mark {
      RollbackSwaps(mid, second, last, current, original);
    }
  }

  /** Somewhere on the way back to the stable version of a release that was stopped before it was
      finalized. */
  predicate TurningBack(c: Cluster, stable: Template, next: Template, last: Option<Template>, original: RollingParameters) {
    && StrategyKept(c, original) && Installed(c)
    && c.annotations.current == Some(stable) && c.annotations.last == last
    && (match c.status.phase
        case NoPhase => c.annotations.mark && c.spec.template == next
        case Initial => c.annotations.mark && c.spec.template == next
        case RollingUpdate => c.annotations.mark && (c.spec.template == next || c.spec.template == stable)
        case RollingBack => c.spec.template == stable && c.status.observed == Some(stable)
        case Finalizing => !c.annotations.mark && c.spec.template == stable && c.status.observed == Some(stable)
        case Completed =>
          && !c.annotations.mark && c.spec.template == stable && c.status.observed == Some(stable)
          && c.deployment.template == stable)
  }

  lemma TurningBackStep(c: Cluster, e: Event, stable: Template, next: Template, last: Option<Template>, original: RollingParameters)
    requires TurningBack(c, stable, next, last, original) && OnlyContinues(e)
    ensures TurningBack(Apply(c, e), stable, next, last, original)
  {
    hide RollingStep, StrategyKept;
    if e.Controller? {
      RollingKeeps(c, c.status.(blocked := false), e.x);
      KeptCurrent(c, original);
    }
    StrategyStep(c, e, original);
    InstalledStep(c, e);
  }

  lemma KeptCurrent(c: Cluster, original: RollingParameters)
    requires StrategyKept(c, original)
    ensures InRelease(c.status.phase) ==> c.status.maxSurge.Some? && c.status.maxUnavailable.Some? && c.annotations.current.Some?
  {
  }

  /** A rollback asked for in mid-release, however its writes fare: whenever it has completed, the
      version that was stable is installed again and both records are as they were. */
  lemma {:induction false} RollbackMidRelease(c: Cluster, events: seq<Event>, stable: Template, next: Template, original: RollingParameters)
    requires Releasing(c, stable, next) && stable != next && StrategyKept(c, original) && Installed(c)
    requires c.status.phase != Finalizing && c.status.phase != Completed
    requires forall e :: e in events ==> OnlyContinues(e)
    ensures var r := Run(Apply(c, SetMark), events);
            && TurningBack(r, stable, next, c.annotations.last, original)
            && (r.status.phase == Completed ==>
                  && r.spec.template == stable && r.deployment.template == stable && r.annotations == c.annotations.(mark := false)
                  && StrategyRestored(r.deployment, original))
    decreases |events|
  {
    hide Apply;
    if events == [] {
      MarkTurnsBack(c, stable, next, original);
    } else {
      var p := events[..|events| - 1];
      RollbackMidRelease(c, p, stable, next, original);
      TurningBackStep(Run(Apply(c, SetMark), p), events[|events| - 1], stable, next, c.annotations.last, original);
    }
  }

  lemma MarkTurnsBack(c: Cluster, stable: Template, next: Template, original: RollingParameters)
    requires Releasing(c, stable, next) && StrategyKept(c, original) && Installed(c)
    requires c.status.phase != Finalizing && c.status.phase != Completed
    ensures TurningBack(Apply(c, SetMark), stable, next, c.annotations.last, original)
  {
  }

  /** On the way back from a release that was being finalized, or was, when the rollback was asked for. */
  predicate FinishingBack(c: Cluster, stable: Template, next: Template, original: RollingParameters) {
    || GoingBack(c, next, stable, original)
    || (&& StrategyKept(c, original) && Installed(c)
        && c.status.phase == Finalizing && c.annotations.mark && c.spec.template == next && c.status.observed == Some(next)
        && (c.annotations.current == Some(stable)
            || (c.annotations.current == Some(next) && c.annotations.last == Some(stable))))
  }

  lemma FinishingBackStep(c: Cluster, e: Event, stable: Template, next: Template, original: RollingParameters)
    requires FinishingBack(c, stable, next, original) && OnlyContinues(e) && stable != next
    ensures FinishingBack(Apply(c, e), stable, next, original)
  {
    hide RollingStep, StrategyKept, Installed;
    if GoingBack(c, next, stable, original) {
      GoingBackStep(c, e, next, stable, original);
    } else {
      StrategyStep(c, e, original);
      InstalledStep(c, e);
    }
  }

  /** A rollback asked for when the release was being finalized or was just completed: the release
      is recorded first, and whenever the rollback has completed, the version before it is installed
      again and recorded as the current one, with the release as the last one. */
  lemma {:induction false} RollbackAtFinalizing(c: Cluster, events: seq<Event>, stable: Template, next: Template,
                                                original: RollingParameters)
    requires Releasing(c, stable, next) && stable != next && StrategyKept(c, original) && Installed(c)
    requires c.status.phase == Finalizing || c.status.phase == Completed
    requires forall e :: e in events ==> OnlyContinues(e)
    ensures var r := Run(Apply(c, SetMark), events);
            && FinishingBack(r, stable, next, original)
            && (r.status.phase == Completed && !r.annotations.mark ==> AtRest(r, stable, next, original))
    decreases |events|
  {
    hide Apply;
    if events == [] {
      MarkFinishes(c, stable, next, original);
    } else {
      var p := events[..|events| - 1];
      RollbackAtFinalizing(c, p, stable, next, original);
      FinishingBackStep(Run(Apply(c, SetMark), p), events[|events| - 1], stable, next, original);
    }
  }

  lemma MarkFinishes(c: Cluster, stable: Template, next: Template, original: RollingParameters)
    requires Releasing(c, stable, next) && StrategyKept(c, original) && Installed(c)
    requires c.status.phase == Finalizing || c.status.phase == Completed
    ensures FinishingBack(Apply(c, SetMark), stable, next, original) && Apply(c, SetMark).annotations.mark
  {
  }

  /** When a release starts: once a reconcile has noticed the new template, a rollback will lead
      back to the version at rest. A mark set before that leads to the one before it: the template
      becomes that version, by a write with the rollback steps unless it is the edited one already. */
  lemma EditStartsRelease(c: Cluster, next: Template, x: Inputs, current: Template, last: Template, original: RollingParameters)
    requires AtRest(c, current, last, original) && next != current
    ensures var edited := Apply(c, EditTemplate(next));
            var marked := Reconcile(Apply(edited, SetMark), x);
            && (Stored(x.statusWrite) ==> Releasing(Reconcile(edited, x), current, next))
            && (Stored(x.releaseWrite) || next == last ==> marked.spec.template == last)
            && (Stored(x.releaseWrite) && next != last ==> marked.spec == Spec(last, ROLLBACK_STEPS))
            && (next == last && Stored(x.deploymentWrite) ==> marked.deployment.template == last)
  {
  }

  /** A release started from rest and retargeted at will: whenever it is rolled back, the first
      template that the rollback installs is the version at rest. */
  lemma EditsLeadBack(c: Cluster, next: Template, x: Inputs, events: seq<Event>,
                      current: Template, last: Template, original: RollingParameters)
    requires AtRest(c, current, last, original) && next != current && Stored(x.statusWrite)
    requires RetargetRun(Reconcile(Apply(c, EditTemplate(next)), x), events, current)
    ensures var started := Reconcile(Apply(c, EditTemplate(next)), x);
            || Underway(Run(started, events), current)
            || exists k :: 0 < k <= |events| && Underway(Run(started, events[..k - 1]), current)
                           && Run(started, events[..k - 1]).annotations.mark
                           && Run(started, events[..k]).spec == Spec(current, ROLLBACK_STEPS)
  {
    hide AtRest, RetargetRun, Run, Reconcile, Apply;
    EditStartsRelease(c, next, x, current, last, original);
    RollbackAfterRetargets(Reconcile(Apply(c, EditTemplate(next)), x), events, current);
  }
}
