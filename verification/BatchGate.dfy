/** The gate between batches: what must have happened before a release moves on, and why the
    step index never leaves the steps. */
module BatchGate {
  import opened Base
  import opened Limits
  import opened Scaling
  import opened Release
  import opened ReleaseRuns

  /** What happened since the release last took the deployment over: how often the user continued
      a blocking step, and at which indices a batch was found ready. */
  datatype Gate = Gate(continues: nat, ready: set<int>)

  /** The reconcile takes the deployment over. */
  predicate TakesOver(c: Cluster) {
    && !TemplateUpdated(c)
    && c.status.maxUnavailable.Some? && c.status.maxSurge.Some? && c.annotations.current.Some?
    && match c.status.phase
       case NoPhase => true
       case Initial => true
       case RollingUpdate => c.annotations.mark && c.annotations.current == Some(c.spec.template)
       case Completed => c.annotations.mark && c.annotations.last == Some(c.spec.template)
       case _ => false
  }

  predicate Resets(c: Cluster, x: Inputs) {
    TakesOver(c) && Reconcile(c, x).status == Do(c, x).status
  }

  /** The reconcile asks whether the batch is ready, and it is. */
  predicate FindsReady(c: Cluster, x: Inputs) {
    && !TemplateUpdated(c) && !c.annotations.mark
    && (c.status.phase == RollingUpdate || c.status.phase == RollingBack)
    && c.status.state == StepUpgrade && x.rolling.Stepped? && x.rolling.outcome == Quiet && x.rolling.patched
    && IndexInRange(c, c.status)
    && IsBatchReady(c, c.status.(blocked := false, updatedReady := x.rolling.ready))
  }

  function NextGate(c: Cluster, e: Event, g: Gate): Gate {
    match e
    case Continue => if c.status.state == StepBlocking then g.(continues := g.continues + 1) else g
    case Controller(x) =>
      if Resets(c, x) then Gate(0, {})
      else if FindsReady(c, x) then g.(ready := g.ready + {c.status.index})
      else g
    case _ => g
  }

  function GateOf(c: Cluster, events: seq<Event>): Gate {
    if events == [] then Gate(0, {})
    else
      var p := events[..|events| - 1];
      NextGate(Run(c, p), events[|events| - 1], GateOf(c, p))
  }

  /** A rollback was asked for and has not taken the deployment over: the steps may already be
      the two rollback steps while the index is still the old one. */
  predicate RollbackPending(c: Cluster) {
    c.annotations.mark && (c.status.phase == RollingUpdate || c.status.phase == Completed)
  }

  /** The batch was found ready at each of the first n indices. */
  ghost predicate ReadyUpTo(g: Gate, n: int) {
    forall i :: 0 <= i < n ==> i in g.ready
  }

  ghost predicate Gated(c: Cluster, g: Gate) {
    var s := c.status;
    && c.spec.steps != [] && s.index >= 0
    && (!RollbackPending(c) ==> IndexInRange(c, s))
    && (InRelease(s.phase) ==> g.continues >= s.index && ReadyUpTo(g, s.index))
    && ((s.phase == RollingUpdate || s.phase == RollingBack) && !RollbackPending(c) ==>
          && (s.state == StepCompleted && s.index < |c.spec.steps| - 1 ==> g.continues > s.index)
          && (s.state == StepBlocking || s.state == StepCompleted ==> s.index in g.ready))
    && (s.phase == Finalizing ==> s.index == |c.spec.steps| - 1 && s.index in g.ready)
  }

  predicate StepsOn(c: Cluster) {
    !TemplateUpdated(c) && !c.annotations.mark && (c.status.phase == RollingUpdate || c.status.phase == RollingBack)
  }

  lemma GateRolling(c: Cluster, x: Inputs, g: Gate)
    requires Gated(c, g) && StepsOn(c)
    ensures Gated(Reconcile(c, x), NextGate(c, Controller(x), g))
    ensures Reconcile(c, x).status.index <= c.status.index + 1
  {
    hide IsBatchReady, NewRSReplicasLimit, Init, PreRollback, Finalize;
  }

  lemma GateController(c: Cluster, x: Inputs, g: Gate)
    requires Gated(c, g)
    ensures Gated(Reconcile(c, x), NextGate(c, Controller(x), g))
    ensures Reconcile(c, x).status.index <= c.status.index + 1
  {
    hide RollingStep, IsBatchReady;
    if StepsOn(c) {
      GateRolling(c, x, g);
    }
  }

  lemma GateStep(c: Cluster, e: Event, g: Gate)
    requires Gated(c, g) && !e.Resubmit?
    ensures Gated(Apply(c, e), NextGate(c, e, g))
    ensures Apply(c, e).status.index <= c.status.index + 1
  {
    hide Reconcile, FindsReady, Resets;
    match e {
      case Controller(x) => GateController(c, x, g);
      case _ =>
    }
  }

  /** With fixed steps the index stays within them and never exceeds the number of continues, and
      a release is finalized only after a continue for every step but the last and after the
      batch was found ready at every index, whatever scaling events and lost writes came between. */
  lemma {:induction false} FinalizedOnlyThroughEveryStep(c: Cluster, events: seq<Event>, original: RollingParameters)
    requires Fresh(c, original) && forall e :: e in events ==> !e.Resubmit?
    ensures var r, g := Run(c, events), GateOf(c, events);
            && Gated(r, g)
            && (InRelease(r.status.phase) ==> g.continues >= r.status.index)
            && (r.status.phase == Finalizing ==>
                  && g.continues >= |r.spec.steps| - 1
                  && ReadyUpTo(g, |r.spec.steps|))
    decreases |events|
  {
    hide Apply, NextGate;
    if events != [] {
      var p := events[..|events| - 1];
      FinalizedOnlyThroughEveryStep(c, p, original);
      GateStep(Run(c, p), events[|events| - 1], GateOf(c, p));
    }
  }

  // ---- when the index leaves the steps ----

  /** The index is usable now, or the next reconcile takes the deployment over and resets it. */
  predicate Safe(c: Cluster) {
    IndexInRange(c, c.status) || (TakesOver(c) && c.spec.steps != [])
  }

  /** A reconcile can index outside the steps exactly in the stores that are not safe. */
  lemma PanicsExactly(c: Cluster, original: RollingParameters)
    requires StrategyKept(c, original) && c.status.index >= 0
    ensures (forall x :: !Panics(c, x)) <==> Safe(c)
  {
    var x := Inputs(Accepted, Accepted, Accepted, SyncDone);
    assert !Safe(c) ==> Panics(c, x);
  }

  /** The read of the current step that ends a reconcile comes after the status write and only if that
      was accepted: the index it fails on is the stored one. */
  lemma LastReadIsStored(c: Cluster, x: Inputs)
    ensures Panics(c, x) && !Do(c, x).panicked ==> !IndexInRange(c, Reconcile(c, x).status) && !Do(c, x).failed
  {
    hide Do;
    DoWrites(c, x);
  }

  /** With t as the wanted template the next reconcile takes the deployment over. */
  predicate ResetsFor(c: Cluster, t: Template) {
    && c.status.maxUnavailable.Some? && c.status.maxSurge.Some? && c.annotations.current.Some?
    && match c.status.phase
       case NoPhase => c.annotations.mark || c.status.observed.None? || c.status.observed == Some(t)
       case Initial => c.annotations.mark || c.status.observed.None? || c.status.observed == Some(t)
       case RollingUpdate => c.annotations.mark && c.annotations.current == Some(t)
       case Completed => c.annotations.mark && c.annotations.last == Some(t)
       case _ => false
  }

  /** An edit or a resubmission keeps the index usable, by the steps or by the reset to come. */
  predicate Harmless(c: Cluster, e: Event) {
    match e
    case EditTemplate(t) => IndexInRange(c, c.status) || ResetsFor(c, t)
    case Resubmit(t, steps) => 0 <= c.status.index < |steps| || (steps != [] && ResetsFor(c, t))
    case _ => true
  }

  lemma IndexNonNegative(c: Cluster, e: Event)
    requires c.status.index >= 0
    ensures Apply(c, e).status.index >= 0
  {
    hide RollingStep;
    if e.Controller? {
      RollingKeeps(c, c.status.(blocked := false), e.x);
    }
  }

  /** From a safe store exactly the harmless events lead to a safe one. */
  lemma SafeExactly(c: Cluster, e: Event, original: RollingParameters)
    requires Safe(c) && StrategyKept(c, original) && c.status.index >= 0
    ensures Safe(Apply(c, e)) <==> Harmless(c, e)
  {
    hide IsBatchReady, NewRSReplicasLimit;
  }

  ghost predicate NeverPanics(c: Cluster, events: seq<Event>) {
    forall k, x :: 0 <= k <= |events| ==> !Panics(Run(c, events[..k]), x)
  }

  ghost predicate HarmlessRun(c: Cluster, events: seq<Event>) {
    forall k :: 0 <= k < |events| ==> Harmless(Run(c, events[..k]), events[k])
  }

  lemma {:induction false} ReachedIndex(c: Cluster, events: seq<Event>, original: RollingParameters)
    requires Fresh(c, original)
    ensures StrategyKept(Run(c, events), original) && Run(c, events).status.index >= 0
    decreases |events|
  {
    StrategyRoundTrip(c, events, original);
    if events != [] {
      ReachedIndex(c, events[..|events| - 1], original);
      IndexNonNegative(Run(c, events[..|events| - 1]), events[|events| - 1]);
    }
  }

  lemma {:induction false} HarmlessIsSafe(c: Cluster, events: seq<Event>, original: RollingParameters)
    requires Fresh(c, original) && HarmlessRun(c, events)
    ensures Safe(Run(c, events))
    decreases |events|
  {
    hide Safe, Harmless, StrategyKept;
    if events == [] {
      FreshIsSafe(c, original);
    } else {
      var n := |events| - 1;
      var p := events[..n];
      forall k | 0 <= k < |p| ensures Harmless(Run(c, p[..k]), p[k]) {
        assert p[..k] == events[..k];
        assert Harmless(Run(c, events[..k]), events[k]);
      }
      assert Harmless(Run(c, events[..n]), events[n]);
      HarmlessIsSafe(c, p, original);
      ReachedIndex(c, p, original);
      SafeExactly(Run(c, p), events[n], original);
    }
  }

  lemma FreshIsSafe(c: Cluster, original: RollingParameters)
    requires Fresh(c, original)
    ensures Safe(c)
  {
  }

  /** No store along a run lets any reconcile index outside the steps exactly if each of its edits
      and resubmissions was harmless when it was made. */
  lemma NeverOutOfRange(c: Cluster, events: seq<Event>, original: RollingParameters)
    requires Fresh(c, original)
    ensures NeverPanics(c, events) <==> HarmlessRun(c, events)
  {
    hide Safe, Harmless, StrategyKept, Panics;
    if HarmlessRun(c, events) {
      forall k | 0 <= k <= |events| ensures forall x :: !Panics(Run(c, events[..k]), x) {
        var p := events[..k];
        forall j | 0 <= j < |p| ensures Harmless(Run(c, p[..j]), p[j]) {
          assert p[..j] == events[..j];
          assert Harmless(Run(c, events[..j]), events[j]);
        }
        HarmlessIsSafe(c, p, original);
        ReachedIndex(c, p, original);
        PanicsExactly(Run(c, p), original);
      }
    }
    if NeverPanics(c, events) {
      forall k | 0 <= k < |events| ensures Harmless(Run(c, events[..k]), events[k]) {
        SafeAt(c, events, k, original);
        SafeAt(c, events, k + 1, original);
        assert events[..k + 1][..k] == events[..k];
        ReachedIndex(c, events[..k], original);
        SafeExactly(Run(c, events[..k]), events[k], original);
      }
    }
  }

  lemma SafeAt(c: Cluster, events: seq<Event>, k: nat, original: RollingParameters)
    requires Fresh(c, original) && NeverPanics(c, events) && k <= |events|
    ensures Safe(Run(c, events[..k]))
  {
    hide Safe, Panics;
    assert forall x :: !Panics(Run(c, events[..k]), x);
    ReachedIndex(c, events[..k], original);
    PanicsExactly(Run(c, events[..k]), original);
  }

  /** The reconciles that the run itself has, whatever their writes meet, never do so exactly if
      each of them starts from a safe store: an edit undone before the next one does not count. */
  lemma OwnReconcilesExactly(c: Cluster, events: seq<Event>, original: RollingParameters)
    requires Fresh(c, original)
    ensures (forall k, x :: 0 <= k < |events| && events[k].Controller? ==> !Panics(Run(c, events[..k]), x))
            <==> forall k :: 0 <= k < |events| && events[k].Controller? ==> Safe(Run(c, events[..k]))
  {
    hide Safe, StrategyKept, Panics;
    forall k | 0 <= k < |events|
      ensures (forall x :: !Panics(Run(c, events[..k]), x)) <==> Safe(Run(c, events[..k]))
    {
      ReachedIndex(c, events[..k], original);
      PanicsExactly(Run(c, events[..k]), original);
    }
  }

  /** Between a safe store and the next reconcile only what the edits come to in the end matters. */
  lemma EditsComeTo(c: Cluster, e: Event)
    requires !e.Controller?
    ensures var d := Apply(c, e);
            && d.status.index == c.status.index && d.status.phase == c.status.phase
            && (Safe(d) <==> 0 <= c.status.index < |d.spec.steps|
                             || (d.spec.steps != [] && ResetsFor(c.(annotations := d.annotations), d.spec.template)))
  {
  }

  /** A resubmission, with whatever template, makes a later index fault possible exactly when the
      new steps do not reach the index and no reset is to come. */
  lemma FewerStepsPanic(c: Cluster, t: Template, steps: seq<IntOrString>, original: RollingParameters)
    requires Safe(c) && StrategyKept(c, original) && c.status.index >= 0
    ensures (exists x :: Panics(Apply(c, Resubmit(t, steps)), x))
            <==> !(0 <= c.status.index < |steps|) && !(steps != [] && ResetsFor(c, t))
  {
    hide Panics;
    SafeExactly(c, Resubmit(t, steps), original);
    PanicsExactly(Apply(c, Resubmit(t, steps)), original);
  }

  /** An edit does so exactly when it comes between the rollback steps being set and the index
      being reset, and is not back to the version the rollback leads to. */
  lemma EditUnderMarkPanics(c: Cluster, t: Template, original: RollingParameters)
    requires Safe(c) && StrategyKept(c, original) && c.status.index >= 0
    ensures (exists x :: Panics(Apply(c, EditTemplate(t)), x))
            <==> !IndexInRange(c, c.status) && !ResetsFor(c, t)
  {
    hide Panics;
    SafeExactly(c, EditTemplate(t), original);
    PanicsExactly(Apply(c, EditTemplate(t)), original);
  }
}
