/** What a reconcile reports: which failures, when it waits for the user, and what it starts afresh. */
module Reports {
  import opened Base
  import opened Limits
  import opened Scaling
  import opened Release
  import opened ReleaseRuns
  import opened BatchGate

  function AllAccepted(x: Inputs): Inputs {
    x.(deploymentWrite := Accepted, releaseWrite := Accepted)
  }

  /** The store changed by a write that failed, and no error tells. */
  predicate Silent(c: Cluster, d: Cluster, x: Inputs, failed: bool) {
    && !failed
    && ((d.deployment != c.deployment && x.deploymentWrite == Lost)
        || ((d.spec != c.spec || d.annotations != c.annotations) && x.releaseWrite == Lost))
  }

  lemma InitReports(c: Cluster, s: Status, x: Inputs)
    ensures var t := Init(c, s, x); !Silent(c, t.store, x, t.failed) && (!t.failed ==> t == Init(c, s, AllAccepted(x)))
  {
  }

  lemma PreRollbackReports(c: Cluster, s: Status, t: Option<Template>, x: Inputs)
    ensures var d := PreRollback(c, s, t, x); !Silent(c, d.store, x, d.failed) && (!d.failed ==> d == PreRollback(c, s, t, AllAccepted(x)))
  {
    hide Init;
    InitReports(c, s, x);
  }

  lemma FinalizeReports(c: Cluster, s: Status, x: Inputs)
    ensures var d := Finalize(c, s, x); !Silent(c, d.store, x, d.failed) && (!d.failed ==> d == Finalize(c, s, AllAccepted(x)))
  {
  }

  lemma RemoveMarkReports(c: Cluster, x: Inputs)
    ensures var d := RemoveRollbackMark(c, x); !Silent(c, d.store, x, d.failed) && (!d.failed ==> d == RemoveRollbackMark(c, AllAccepted(x)))
  {
  }

  lemma RollingWritesNothing(c: Cluster, s: Status, x: Inputs)
    ensures RollingStep(c, s, x).store == c && RollingStep(c, s, AllAccepted(x)) == RollingStep(c, s, x)
  {
    hide IsBatchReady;
  }

  /** No failed write is passed over in silence: a write that was stored although it failed is an
      error too, and without an error everything was done as with accepted writes. */
  lemma FailedWritesAreReported(c: Cluster, x: Inputs)
    ensures var d := Do(c, x);
            && (d.store.deployment != c.deployment && x.deploymentWrite == Lost ==> d.failed)
            && ((d.store.spec != c.spec || d.store.annotations != c.annotations) && x.releaseWrite == Lost ==> d.failed)
            && (!d.failed ==> d == Do(c, x.(deploymentWrite := Accepted, releaseWrite := Accepted)))
  {
    hide Init, PreRollback, Finalize, RemoveRollbackMark, RollingStep;
    var s := c.status.(blocked := false);
    InitReports(c, s, x);
    InitReports(c, s.(phase := Initial), x);
    PreRollbackReports(c, s, c.annotations.current, x);
    PreRollbackReports(c, s, c.annotations.last, x);
    FinalizeReports(c, s, x);
    RemoveMarkReports(c, x);
    RollingWritesNothing(c, s, x);
  }

  /** A rolling reconcile reports an error exactly when it could not read, sync, scale or patch what it
      had to, or when its batch is not ready; the release then stays at its step. */
  lemma StepReports(c: Cluster, x: Inputs)
    requires StepsOn(c) && IndexInRange(c, c.status)
    ensures var d := Do(c, x);
            && !d.panicked
            && (d.failed <==> match x.rolling
                              case Unreadable => true
                              case SyncFailed => true
                              case SyncDone => false
                              case Stepped(outcome, ready, patched) =>
                                c.status.state == StepUpgrade
                                && (outcome == Failed || !patched || (outcome == Quiet && !FindsReady(c, x))))
            && (d.failed ==> d.store == c && d.status.phase == c.status.phase
                             && d.status.index == c.status.index && d.status.state == c.status.state)
  {
    hide IsBatchReady;
  }

  /** The ready pods of an Upgrade reconcile are stored even when the batch is not ready yet. */
  lemma ReadyPodsAreStored(c: Cluster, x: Inputs)
    requires StepsOn(c) && IndexInRange(c, c.status) && c.status.state == StepUpgrade && Stored(x.statusWrite)
    requires x.rolling.Stepped? && x.rolling.outcome != Failed
    ensures Reconcile(c, x).status.updatedReady == x.rolling.ready
  {
    hide IsBatchReady;
  }

  /** The status asks for the user exactly after a reconcile that found a batch blocking and left it so,
      which it never does with the last batch. Removing the mark reads the stored status again. */
  lemma AsksForUserExactly(c: Cluster, x: Inputs)
    requires !(c.status.phase == RollingBack && c.annotations.mark)
    ensures Do(c, x).status.blocked
            <==> StepsOn(c) && x.rolling.Stepped? && c.status.state == StepBlocking && Do(c, x).status.state == StepBlocking
    ensures Do(c, x).status.blocked ==> c.status.index != |c.spec.steps| - 1
  {
    hide IsBatchReady;
  }

  /** After a scaling event was dealt with the batch starts afresh: it blocks or passes again only
      after a reconcile that finds it ready at its new size. */
  lemma SyncReopensBatch(c: Cluster, x: Inputs)
    requires StepsOn(c) && IndexInRange(c, c.status) && x.rolling == SyncDone && Stored(x.statusWrite)
    ensures Reconcile(c, x) == c.(status := c.status.(state := StepInitial, blocked := false))
    ensures forall y :: Reconcile(Reconcile(c, x), y).status.state != StepBlocking
                        && Reconcile(Reconcile(c, x), y).status.state != StepCompleted
  {
    hide IsBatchReady;
  }

  /** A continued batch that is not the last one is followed by the next, from its start. */
  lemma ContinuedStepAdvances(c: Cluster, x: Inputs)
    requires StepsOn(c) && c.status.state == StepCompleted && 0 <= c.status.index < |c.spec.steps| - 1
    requires x.rolling.Stepped? && Stored(x.statusWrite)
    ensures var s := Reconcile(c, x).status;
            s.index == c.status.index + 1 && s.state == StepInitial && s.phase == c.status.phase
  {
  }

  // ---- how a release starts ----

  /** Before its strategy is saved a Deployment can be taken over only if it has one; that is an error
      otherwise. */
  lemma NoStrategyIsReported(c: Cluster, x: Inputs)
    requires (c.status.phase == NoPhase || c.status.phase == Initial) && !TemplateUpdated(c)
    requires c.status.maxUnavailable.None? || c.status.maxSurge.None?
    ensures var d := Do(c, x);
            && (d.failed <==> c.deployment.rollingUpdate.None?)
            && d.store == c && d.status.phase == Initial
            && (!d.failed ==> StrategySaved(d.status, c.deployment.rollingUpdate.value))
  {
  }

  /** With its writes accepted a fresh release has taken its Deployment over after three reconciles,
      two if a stable version was recorded before: the strategy is saved, the deployed version is
      recorded, and the batches start from the first. */
  lemma StartsInThree(c: Cluster, x: Inputs, y: Inputs, z: Inputs, original: RollingParameters)
    requires Fresh(c, original)
    requires x.statusWrite == Accepted && y.statusWrite == Accepted && z.statusWrite == Accepted
    requires y.releaseWrite == Accepted && y.deploymentWrite == Accepted && z.deploymentWrite == Accepted
    ensures var two := Reconcile(Reconcile(c, x), y);
            var d := if c.annotations.current.Some? then two else Reconcile(two, z);
            && d.spec == c.spec && StrategySaved(d.status, original)
            && d.deployment == c.deployment.(template := c.spec.template, paused := true, rolling := false,
                                             rollingUpdate := None, controlled := true)
            && d.status.phase == RollingUpdate && d.status.index == 0 && d.status.state == NoState && d.status.updatedReady == 0
            && d.status.observed == Some(c.spec.template)
            && (c.annotations.current.None? ==> d.annotations.current == d.annotations.last == Some(c.deployment.template))
            && (c.annotations.current.Some? ==> d.annotations == c.annotations)
  {
    hide RollingStep;
  }
}
