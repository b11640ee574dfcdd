/**
  The release state machine as functions over what the API server stores
  (internal/controller/partition/executor.go, Do and the steps it calls;
  internal/controller/batchrelease_controller.go, Reconcile).
  Each write is accepted, rejected, or lost: stored although an error is reported.
 */
module Release {
  import opened Base
  import opened Limits
  import opened Scaling

  datatype Phase = NoPhase | Initial | RollingUpdate | RollingBack | Finalizing | Completed

  datatype StepState = NoState | StepInitial | StepUpgrade | StepBlocking | StepCompleted

  datatype RollingParameters = RollingParameters(surge: Option<IntOrString>, unavailable: Option<IntOrString>)

  /** `rolling` tells the strategy type, `controlled` whether the control-info annotation is there. */
  datatype Deployment = Deployment(
    replicas: nat,
    template: Template,
    paused: bool,
    rolling: bool,
    rollingUpdate: Option<RollingParameters>,
    controlled: bool,
    updatedReplicas: int)

  datatype Spec = Spec(template: Template, steps: seq<IntOrString>)

  /** The rollback mark and the recorded stable templates; the hash and the raw text of a
      recorded template are always written together and count as one entry. */
  datatype Annotations = Annotations(mark: bool, current: Option<Template>, last: Option<Template>)

  datatype Status = Status(
    phase: Phase,
    index: int,
    state: StepState,
    updatedReady: int,
    maxUnavailable: Option<IntOrString>,
    maxSurge: Option<IntOrString>,
    observed: Option<Template>,
    blocked: bool)

  datatype Cluster = Cluster(deployment: Deployment, spec: Spec, annotations: Annotations, status: Status)

  // ---- one write ----

  datatype Write = Accepted | Rejected | Lost

  predicate Stored(w: Write) {
    w != Rejected
  }

  /** How a rolling phase finds the replica sets: unreadable, in a scaling event whose sync fails
      or succeeds, or with an Upgrade outcome, the new set's ready pods, and whether the
      deployment's status could be patched. */
  datatype Rolling =
    | Unreadable
    | SyncFailed
    | SyncDone
    | Stepped(outcome: Outcome, ready: int, patched: bool)

  /** What one reconcile meets. */
  datatype Inputs = Inputs(deploymentWrite: Write, releaseWrite: Write, statusWrite: Write, rolling: Rolling)

  /** Where Do ends: the store without the status write, the status in memory, an error return,
      or an index out of range. */
  datatype Done = Done(store: Cluster, status: Status, failed: bool, panicked: bool)

  /** The template an empty text decodes to. */
  const EMPTY_TEMPLATE: Template := 0

  const ROLLBACK_STEPS: seq<IntOrString> := [Int(1), Percent(100)]

  predicate IndexInRange(c: Cluster, s: Status) {
    0 <= s.index < |c.spec.steps|
  }

  // ---- readiness of a batch ----

  function AllowedUnavailable(threshold: Option<IntOrString>, replicas: int): int {
    if threshold.None? then 0
    else
      var v := ScaledValue(threshold.value, replicas, true);
      if v.Some? then v.value else 0
  }

  predicate IsBatchReady(c: Cluster, s: Status)
    requires IndexInRange(c, s)
  {
    var desired := NewRSReplicasLimit(c.spec.steps[s.index], c.deployment.replicas);
    var updated := c.deployment.updatedReplicas;
    && updated >= desired
    && AllowedUnavailable(s.maxUnavailable, updated) + s.updatedReady >= desired
    && (desired > 0 ==> s.updatedReady != 0)
  }

  // ---- the steps of Do ----

  /** The observed template differs from the wanted one and no rollback is asked for. */
  predicate TemplateUpdated(c: Cluster) {
    c.status.observed.Some? && c.status.observed.value != c.spec.template && !c.annotations.mark
  }

  /** The store after recording t as the stable template, and whether an error is reported. */
  function RecordStable(c: Cluster, t: Template, w: Write): (Cluster, bool) {
    if c.annotations.current == Some(t) then (c, false)
    else if w == Rejected then (c, true)
    else
      var last := if c.annotations.current.None? then Some(t) else c.annotations.current;
      (c.(annotations := c.annotations.(current := Some(t), last := last)), w == Lost)
  }

  /** `ready` tells whether the deployment has been taken over. */
  datatype Taken = Taken(store: Cluster, status: Status, ready: bool, failed: bool)

  function TakenOver(c: Cluster): Deployment {
    c.deployment.(template := c.spec.template, paused := true, rolling := false, rollingUpdate := None, controlled := true)
  }

  function Init(c: Cluster, s: Status, x: Inputs): Taken {
    if s.maxUnavailable.None? || s.maxSurge.None? then
      if c.deployment.rollingUpdate.None? then Taken(c, s, false, true)
      else
        var ru := c.deployment.rollingUpdate.value;
        Taken(c, s.(maxUnavailable := ru.unavailable, maxSurge := ru.surge), false, false)
    else if c.annotations.current.None? then
      var (store, failed) := RecordStable(c, c.deployment.template, x.releaseWrite);
      Taken(store, s, false, failed)
    else
      var reset := s.(index := 0, state := NoState, updatedReady := 0, observed := Some(c.spec.template));
      var store := if Stored(x.deploymentWrite) then c.(deployment := TakenOver(c)) else c;
      Taken(store, reset, x.deploymentWrite == Accepted, x.deploymentWrite != Accepted)
  }

  function PreRollback(c: Cluster, s: Status, target: Option<Template>, x: Inputs): Done {
    if target != Some(c.spec.template) then
      var wanted := if target.Some? then target.value else EMPTY_TEMPLATE;
      var store := if Stored(x.releaseWrite) then c.(spec := Spec(wanted, ROLLBACK_STEPS)) else c;
      Done(store, s, x.releaseWrite != Accepted, false)
    else
      var t := Init(c, s, x);
      Done(t.store, if t.ready then t.status.(phase := RollingBack) else t.status, t.failed, false)
  }

  function StepByStep(c: Cluster, s: Status, outcome: Outcome, ready: int, patched: bool): Done {
    match s.state
    case NoState => Done(c, s.(state := StepUpgrade), false, false)
    case StepInitial => Done(c, s.(state := StepUpgrade), false, false)
    case StepUpgrade =>
      if !IndexInRange(c, s) then Done(c, s, false, true)
      else if outcome == Failed then Done(c, s, true, false)
      else
        var synced := s.(updatedReady := ready);
        if outcome == Scaled || !patched then Done(c, synced, !patched, false)
        else if IsBatchReady(c, synced) then Done(c, synced.(state := StepBlocking), false, false)
        else Done(c, synced, true, false)
    case StepBlocking =>
      if s.index == |c.spec.steps| - 1 then Done(c, s.(state := StepCompleted), false, false)
      else Done(c, s.(blocked := true), false, false)
    case StepCompleted =>
      if s.index == |c.spec.steps| - 1 then Done(c, s.(phase := Finalizing), false, false)
      else Done(c, s.(index := s.index + 1, state := StepInitial), false, false)
  }

  function RollingStep(c: Cluster, s: Status, x: Inputs): Done {
    match x.rolling
    case Unreadable => Done(c, s, true, false)
    case SyncFailed => Done(c, s, true, false)
    case SyncDone => Done(c, s.(state := StepInitial), false, false)
    case Stepped(outcome, ready, patched) => StepByStep(c, s, outcome, ready, patched)
  }

  /** The release object is read again here, so the status in memory is the stored one. */
  function RemoveRollbackMark(c: Cluster, x: Inputs): Done {
    var store := if Stored(x.releaseWrite) then c.(annotations := c.annotations.(mark := false)) else c;
    Done(store, c.status, x.releaseWrite != Accepted, false)
  }

  function Restored(c: Cluster, s: Status): Deployment {
    c.deployment.(paused := false, rolling := true,
                  rollingUpdate := Some(RollingParameters(s.maxSurge, s.maxUnavailable)), controlled := false)
  }

  function Finalize(c: Cluster, s: Status, x: Inputs): Done {
    var c1 := if Stored(x.deploymentWrite) then c.(deployment := Restored(c, s)) else c;
    if x.deploymentWrite != Accepted then Done(c1, s, true, false)
    else
      var (c2, failed) := RecordStable(c1, c.spec.template, x.releaseWrite);
      Done(c2, if failed then s else s.(phase := Completed), failed, false)
  }

  function Do(c: Cluster, x: Inputs): Done {
    var s := c.status.(blocked := false);
    if TemplateUpdated(c) then Done(c, s.(observed := Some(c.spec.template), phase := Initial), false, false)
    else
      match s.phase
      case NoPhase =>
        var t := Init(c, s.(phase := Initial), x);
        Done(t.store, if t.ready then t.status.(phase := RollingUpdate) else t.status, t.failed, false)
      case Initial =>
        var t := Init(c, s, x);
        Done(t.store, if t.ready then t.status.(phase := RollingUpdate) else t.status, t.failed, false)
      case RollingUpdate =>
        if c.annotations.mark then PreRollback(c, s, c.annotations.current, x) else RollingStep(c, s, x)
      case RollingBack =>
        if c.annotations.mark then RemoveRollbackMark(c, x) else RollingStep(c, s, x)
      case Finalizing => Finalize(c, s, x)
      case Completed =>
        if c.annotations.mark then PreRollback(c, s, c.annotations.last, x) else Done(c, s, false, false)
  }

  /** Do, then the status is written if it changed. */
  function Reconcile(c: Cluster, x: Inputs): Cluster {
    var d := Do(c, x);
    if d.panicked || d.status == c.status || !Stored(x.statusWrite) then d.store
    else d.store.(status := d.status)
  }

  /** An index out of range: inside Do, or when Reconcile reads the current step of the release it
      had in memory after everything succeeded. */
  predicate Panics(c: Cluster, x: Inputs) {
    var d := Do(c, x);
    || d.panicked
    || (!d.failed && (d.status == c.status || x.statusWrite == Accepted) && !IndexInRange(c, d.status))
  }

  // ---- everything that changes the store ----

  /** Reconciles, and what users and the cluster do. EditTemplate leaves the steps alone;
      Continue is the user's answer to a blocking step. */
  datatype Event =
    | Controller(x: Inputs)
    | EditTemplate(t: Template)
    | Resubmit(template: Template, steps: seq<IntOrString>)
    | SetMark
    | Continue
    | Observe(replicas: nat, updatedReplicas: int)

  function Apply(c: Cluster, e: Event): Cluster {
    match e
    case Controller(x) => Reconcile(c, x)
    case EditTemplate(t) => c.(spec := c.spec.(template := t))
    case Resubmit(t, steps) => c.(spec := Spec(t, steps))
    case SetMark => c.(annotations := c.annotations.(mark := true))
    case Continue => if c.status.state == StepBlocking then c.(status := c.status.(state := StepCompleted)) else c
    case Observe(r, u) => c.(deployment := c.deployment.(replicas := r, updatedReplicas := u))
  }

  function Run(c: Cluster, events: seq<Event>): Cluster {
    if events == [] then c else Apply(Run(c, events[..|events| - 1]), events[|events| - 1])
  }

  /** A release that was just created over a deployment with a full rolling-update strategy. */
  predicate Fresh(c: Cluster, original: RollingParameters) {
    && c.status == Status(NoPhase, 0, NoState, 0, None, None, None, false)
    && original.surge.Some? && original.unavailable.Some?
    && c.deployment.rollingUpdate == Some(original) && c.deployment.rolling
    && !c.deployment.paused && !c.deployment.controlled
    && c.spec.steps != []
    && (c.annotations.current.Some? ==> c.annotations.last.Some?)
  }
}
