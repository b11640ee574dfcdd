/**
  The release executor and the reconciler in their own form: an object that works on copies of
  the release and the deployment, changes the copy of the status in place and writes to the API
  server, and a reconcile that writes the status last
  (internal/controller/partition/executor.go, internal/controller/batchrelease_controller.go).
 */
module Controller {
  import opened Base
  import opened Limits
  import opened Scaling
  import R = Release

  /** The stored objects, and what happens to each kind of write in this reconcile. */
  class ApiServer {
    var cluster: R.Cluster
    const x: R.Inputs

    constructor (cluster: R.Cluster, x: R.Inputs)
      ensures this.cluster == cluster && this.x == x
    {
      this.cluster, this.x := cluster, x;
    }

    /** Read the deployment again, change it, write it. */
    method UpdateDeployment(patched: R.Deployment) returns (ok: bool)
      modifies this
      ensures ok <==> x.deploymentWrite == R.Accepted
      ensures cluster == if R.Stored(x.deploymentWrite) then old(cluster).(deployment := patched) else old(cluster)
    {
      if x.deploymentWrite != R.Rejected {
        cluster := cluster.(deployment := patched);
      }
      ok := x.deploymentWrite == R.Accepted;
    }

    /** The same for the release object without its status. */
    method UpdateRelease(spec: R.Spec, annotations: R.Annotations) returns (ok: bool)
      modifies this
      ensures ok <==> x.releaseWrite == R.Accepted
      ensures cluster == if R.Stored(x.releaseWrite) then old(cluster).(spec := spec, annotations := annotations) else old(cluster)
    {
      if x.releaseWrite != R.Rejected {
        cluster := cluster.(spec := spec, annotations := annotations);
      }
      ok := x.releaseWrite == R.Accepted;
    }

    method UpdateReleaseStatus(status: R.Status) returns (ok: bool)
      modifies this
      ensures ok <==> x.statusWrite == R.Accepted
      ensures cluster == if R.Stored(x.statusWrite) then old(cluster).(status := status) else old(cluster)
    {
      if x.statusWrite != R.Rejected {
        cluster := cluster.(status := status);
      }
      ok := x.statusWrite == R.Accepted;
    }
  }

  class Executor {
    const client: ApiServer
    var spec: R.Spec
    var annotations: R.Annotations
    var status: R.Status
    var de: R.Deployment

    constructor (client: ApiServer)
      ensures this.client == client && Copies() && status == client.cluster.status
    {
      this.client := client;
      this.spec, this.annotations := client.cluster.spec, client.cluster.annotations;
      this.status, this.de := client.cluster.status, client.cluster.deployment;
    }

    /** The copies show what is stored. */
    ghost predicate Copies()
      reads this, client
    {
      spec == client.cluster.spec && annotations == client.cluster.annotations && de == client.cluster.deployment
    }

    predicate IsPreRollback()
      reads this`annotations
    {
      annotations.mark
    }

    method HandlePodTemplateUpdate() returns (update: bool)
      modifies this`status
      ensures update <==> old(status).observed.Some? && old(status).observed.value != spec.template && !annotations.mark
      ensures status == if update then old(status).(observed := Some(spec.template), phase := R.Initial) else old(status)
    {
      update := status.observed.Some? && status.observed.value != spec.template && !IsPreRollback();
      if update {
        status := status.(observed := Some(spec.template));
        status := status.(phase := R.Initial);
      }
    }

    method RecordStableVersion(podTemplate: Template) returns (failed: bool)
      requires annotations == client.cluster.annotations && spec == client.cluster.spec
      modifies client
      ensures (client.cluster, failed) == R.RecordStable(old(client.cluster), podTemplate, client.x.releaseWrite)
    {
      var csv := annotations.current;
      if csv == Some(podTemplate) {
        return false;
      }
      var stored := client.cluster.annotations;
      stored := stored.(current := Some(podTemplate));
      if csv.None? {
        stored := stored.(last := Some(podTemplate));
      } else {
        stored := stored.(last := csv);
      }
      var ok := client.UpdateRelease(client.cluster.spec, stored);
      failed := !ok;
    }

    method Init() returns (ready: bool, failed: bool)
      requires Copies()
      modifies this`status, client
      ensures R.Taken(client.cluster, status, ready, failed) == R.Init(old(client.cluster), old(status), client.x)
    {
      if status.maxUnavailable.None? || status.maxSurge.None? {
        if de.rollingUpdate.None? {
          return false, true;
        }
        status := status.(maxUnavailable := de.rollingUpdate.value.unavailable);
        status := status.(maxSurge := de.rollingUpdate.value.surge);
        return false, false;
      }
      if annotations.current.None? {
        failed := RecordStableVersion(de.template);
        return false, failed;
      }
      status := status.(index := 0);
      status := status.(state := R.NoState);
      status := status.(updatedReady := 0);
      status := status.(observed := Some(spec.template));
      var d := client.cluster.deployment.(template := spec.template, paused := true);
      d := d.(rolling := false, rollingUpdate := None);
      d := d.(controlled := true);
      var ok := client.UpdateDeployment(d);
      return ok, !ok;
    }

    method PreRollback(reversion: Option<Template>) returns (failed: bool)
      requires Copies()
      modifies this`status, client
      ensures R.Done(client.cluster, status, failed, false) == R.PreRollback(old(client.cluster), old(status), reversion, client.x)
    {
      if reversion != Some(spec.template) {
        var podTemplate := if reversion.Some? then reversion.value else R.EMPTY_TEMPLATE;
        var ok := client.UpdateRelease(R.Spec(podTemplate, [Int(1), Percent(100)]), client.cluster.annotations);
        return !ok;
      }
      var ready;
      ready, failed := Init();
      if failed || !ready {
        return;
      }
      status := status.(phase := R.RollingBack);
    }

    /** In the case Upgrade the replica sets are reconciled first; `outcome` is what comes of it. */
    method StepByStep(outcome: Outcome, ready: int, patched: bool) returns (failed: bool, panicked: bool)
      requires Copies()
      modifies this`status
      ensures R.Done(client.cluster, status, failed, panicked)
              == R.StepByStep(client.cluster, old(status), outcome, ready, patched)
    {
      failed, panicked := false, false;
      var steps := |spec.steps|;
      match status.state {
        case NoState =>
          status := status.(state := R.StepInitial);
          status := status.(state := R.StepUpgrade);
        case StepInitial =>
          status := status.(state := R.StepUpgrade);
        case StepUpgrade =>
          if status.index < 0 || status.index >= steps {
            return false, true;
          }
          if outcome == Failed {
            return true, false;
          }
          status := status.(updatedReady := ready);
          if !patched {
            return true, false;
          }
          if outcome == Scaled {
            return;
          }
          var batchReady := IsBatchReady();
          if !batchReady {
            return true, false;
          }
          status := status.(state := R.StepBlocking);
        case StepBlocking =>
          if status.index == steps - 1 {
            status := status.(state := R.StepCompleted);
            return;
          }
          status := status.(blocked := true);
        case StepCompleted =>
          if status.index == steps - 1 {
            status := status.(phase := R.Finalizing);
            return;
          }
          status := status.(index := status.index + 1);
          status := status.(state := R.StepInitial);
      }
    }

    method IsBatchReady() returns (ready: bool)
      requires Copies() && 0 <= status.index < |spec.steps|
      ensures ready <==> R.IsBatchReady(client.cluster, status)
    {
      var desired := NewRSReplicasLimit(spec.steps[status.index], de.replicas);
      if de.updatedReplicas < desired {
        return false;
      }
      var toleration := R.AllowedUnavailable(status.maxUnavailable, de.updatedReplicas);
      if toleration + status.updatedReady < desired {
        return false;
      }
      if desired > 0 && status.updatedReady == 0 {
        return false;
      }
      return true;
    }

    method RollingUpdate() returns (failed: bool, panicked: bool)
      requires Copies()
      modifies this`status
      ensures R.Done(client.cluster, status, failed, panicked) == R.RollingStep(client.cluster, old(status), client.x)
    {
      match client.x.rolling {
        case Unreadable => return true, false;
        case SyncFailed => return true, false;
        case SyncDone =>
          status := status.(state := R.StepInitial);
          return false, false;
        case Stepped(outcome, ready, patched) =>
          failed, panicked := StepByStep(outcome, ready, patched);
      }
    }

    /** The copy of the release is read again, its status included. */
    method RemoveRollbackMark() returns (failed: bool)
      modifies this, client
      ensures R.Done(client.cluster, status, failed, false) == R.RemoveRollbackMark(old(client.cluster), client.x)
      ensures spec == old(client.cluster).spec && de == old(de)
    {
      spec, annotations, status := client.cluster.spec, client.cluster.annotations, client.cluster.status;
      annotations := annotations.(mark := false);
      var ok := client.UpdateRelease(spec, annotations);
      failed := !ok;
    }

    method Finalize() returns (failed: bool)
      requires Copies()
      modifies this`status, client
      ensures R.Done(client.cluster, status, failed, false) == R.Finalize(old(client.cluster), old(status), client.x)
    {
      var d := client.cluster.deployment.(paused := false);
      d := d.(rolling := true, rollingUpdate := Some(R.RollingParameters(status.maxSurge, status.maxUnavailable)));
      d := d.(controlled := false);
      var ok := client.UpdateDeployment(d);
      if !ok {
        return true;
      }
      failed := RecordStableVersion(spec.template);
      if failed {
        return;
      }
      status := status.(phase := R.Completed);
    }

    method Do() returns (failed: bool, panicked: bool)
      requires Copies() && status == client.cluster.status
      modifies this, client
      ensures R.Done(client.cluster, status, failed, panicked) == R.Do(old(client.cluster), client.x)
      ensures spec == old(spec)
    {
      failed, panicked := false, false;
      status := status.(blocked := false);
      var updated := HandlePodTemplateUpdate();
      if updated {
        return;
      }
      var ready;
      if status.phase == R.NoPhase {
        status := status.(phase := R.Initial);
      }
      match status.phase {
        case NoPhase => assert false;
        case Initial =>
          ready, failed := Init();
          if failed || !ready {
            return;
          }
          status := status.(phase := R.RollingUpdate);
        case RollingUpdate =>
          if IsPreRollback() {
            failed := PreRollback(annotations.current);
            return;
          }
          failed, panicked := RollingUpdate();
        case RollingBack =>
          if IsPreRollback() {
            failed := RemoveRollbackMark();
            return;
          }
          failed, panicked := RollingUpdate();
        case Finalizing =>
          failed := Finalize();
        case Completed =>
          if IsPreRollback() {
            failed := PreRollback(annotations.last);
          }
      }
    }
  }

  /** Run the executor on copies, then write the status if it changed; at the end the current
      step is read for the requeue decision. */
  method Reconcile(client: ApiServer) returns (failed: bool, panicked: bool)
    modifies client
    ensures client.cluster == R.Reconcile(old(client.cluster), client.x)
    ensures panicked <==> R.Panics(old(client.cluster), client.x)
  {
    var before := client.cluster.status;
    var executor := new Executor(client);
    failed, panicked := executor.Do();
    if panicked {
      return;
    }
    if executor.status != before {
      var ok := client.UpdateReleaseStatus(executor.status);
      failed := failed || !ok;
    }
    if failed {
      return;
    }
    panicked := !(0 <= executor.status.index < |executor.spec.steps|);
  }
}
