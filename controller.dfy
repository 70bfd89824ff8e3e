/**
 * The reconciler as the operator runs it: one method per phase handler and the
 * dispatching `ReconcileHandleInstance`. The object keeps the status the API server
 * holds for the one resource it reconciles; a handler edits its in-memory copy `cr`
 * field by field and persists it with `UpdateStatus`, which changes the stored
 * status only when the write goes through.
 *
 * Each method is proved against the handler function of the same phase in
 * `ReconcileSpec`, so every property proved there carries over to the methods.
 */
module Reconciler {
  import opened Wrappers
  import opened K8s
  import opened Phases
  import opened ReconcileSpec
  import ReconcileProps

  class OperatorRedisHAReconciler {
    const name: string
    const namespace: string
    /** The status subresource as the API server holds it. */
    var stored: Status

    /** A reconciler for a resource nobody has reconciled yet. */
    constructor(name: string, namespace: string)
      ensures this.name == name && this.namespace == namespace
      ensures stored == InitialStatus
    {
      this.name := name;
      this.namespace := namespace;
      stored := InitialStatus;
    }

    /** `r.Status().Update(ctx, cr)`: the write either replaces the stored status or fails. */
    method UpdateStatus(cr: Status, write: Option<Err>) returns (err: Option<Err>)
      modifies this
      ensures err == write
      ensures stored == (if write.None? then cr else old(stored))
    {
      err := write;
      if err.None? {
        stored := cr;
      }
    }

    method ReconcileCheckSts(cr: Status, env: Env) returns (out: Outcome)
      modifies this
      ensures var t := CheckStsStep(cr, env);
        stored == Next(old(stored), t, env.statusWrite) && out == t.outcome
    {
      if env.stsExist.Fail? {
        return AfterEvent(Some(env.stsExist.err));
      }
      var cr := cr;
      if !env.stsExist.value {
        cr := cr.(crStatus := Code(InCreateSts));
      } else {
        cr := cr.(crStatus := Code(InCheckPods));
      }
      var err := UpdateStatus(cr, env.statusWrite);
      if err.Some? {
        return AfterEvent(err);
      }
      return Done();
    }

    method ReconcileInCreateSts(cr: Status, env: Env) returns (out: Outcome)
      modifies this
      ensures var t := CreateStsStep(cr, env);
        stored == Next(old(stored), t, env.statusWrite) && out == t.outcome
    {
      if env.createSts.Some? {
        return AfterEvent(env.createSts);
      }
      var cr := cr.(crStatus := Code(InCheckPods));
      var err := UpdateStatus(cr, env.statusWrite);
      if err.Some? {
        return AfterEvent(err);
      }
      return Done();
    }

    method ReconcileCheckPods(cr: Status, env: Env) returns (out: Outcome)
      modifies this
      ensures var t := CheckPodsStep(cr, env);
        stored == Next(old(stored), t, env.statusWrite) && out == t.outcome
    {
      if env.podsReady.Fail? {
        return AfterEvent(Some(env.podsReady.err));
      }
      if !env.podsReady.value {
        return AfterEvent(None);
      }
      var cr := cr.(crStatus := Code(InCheckService));
      var err := UpdateStatus(cr, env.statusWrite);
      if err.Some? {
        return AfterEvent(err);
      }
      return Done();
    }

    method ReconcileCheckService(cr: Status, env: Env) returns (out: Outcome)
      modifies this
      ensures var t := CheckServiceStep(cr, env);
        stored == Next(old(stored), t, env.statusWrite) && out == t.outcome
    {
      if env.serviceExist.Fail? {
        return AfterEvent(Some(env.serviceExist.err));
      }
      var cr := cr;
      if !env.serviceExist.value {
        cr := cr.(crStatus := Code(InCreateService));
      } else {
        cr := cr.(crStatus := Code(InSetEtcdCrt));
      }
      var err := UpdateStatus(cr, env.statusWrite);
      if err.Some? {
        return AfterEvent(err);
      }
      return Done();
    }

    method ReconcileInCreateService(cr: Status, env: Env) returns (out: Outcome)
      modifies this
      ensures var t := CreateServiceStep(name, namespace, cr, env);
        stored == Next(old(stored), t, env.statusWrite) && out == t.outcome
    {
      if env.createService.Some? {
        return AfterEvent(env.createService);
      }
      var cr := cr.(redisAddr := name + "." + namespace + ".svc.cluster.local");
      cr := cr.(redisPort := 6379);
      cr := cr.(crStatus := Code(InSetEtcdCrt));
      var err := UpdateStatus(cr, env.statusWrite);
      if err.Some? {
        return AfterEvent(None);
      }
      return Done();
    }

    method ReconcileCheckRedisHA(cr: Status, env: Env) returns (out: Outcome)
      modifies this
      ensures var t := CheckRedisHAStep(cr, env);
        stored == Next(old(stored), t, env.statusWrite) && out == t.outcome
    {
      var cr := cr;
      if !cr.beSlaveOf {
        cr := cr.(crStatus := Code(InCreateRedisHA));
      } else {
        cr := cr.(crStatus := Code(InCheckNormal));
      }
      var err := UpdateStatus(cr, env.statusWrite);
      if err.Some? {
        return AfterEvent(None);
      }
      return Done();
    }

    method ReconcileSetEtcdCrt(cr: Status, env: Env) returns (out: Outcome)
      modifies this
      ensures var t := SetEtcdCrtStep(cr, env);
        stored == Next(old(stored), t, env.statusWrite) && out == t.outcome
    {
      var cr := cr;
      if !cr.beSetEtcdCrt {
        if env.setEtcdCrt.Some? {
          return AfterEvent(None);
        }
        cr := cr.(beSetEtcdCrt := true);
        cr := cr.(crStatus := Code(InCheckRedisHA));
      } else {
        cr := cr.(crStatus := Code(InCheckRedisHA));
      }
      var err := UpdateStatus(cr, env.statusWrite);
      if err.Some? {
        return AfterEvent(None);
      }
      return Done();
    }

    method ReconcileCreateRedisHA(cr: Status, env: Env) returns (out: Outcome)
      modifies this
      ensures var t := CreateRedisHAStep(cr, env);
        stored == Next(old(stored), t, env.statusWrite) && out == t.outcome
    {
      if env.createHA.Some? {
        return AfterEvent(None);
      }
      var cr := cr.(beSlaveOf := true);
      cr := cr.(crStatus := Code(InCheckNormal));
      var err := UpdateStatus(cr, env.statusWrite);
      if err.Some? {
        return AfterEvent(None);
      }
      return Done();
    }

    method ReconcileCheckDelete(cr: Status, env: Env) returns (out: Outcome)
      modifies this
      ensures var t := CheckDeleteStep(cr, env);
        stored == Next(old(stored), t, env.statusWrite) && out == t.outcome
    {
      var cr := cr;
      if env.finalizerSet {
        cr := cr.(crStatus := Code(InProcessDelete));
      } else {
        cr := cr.(crStatus := Code(InCheckNormal));
      }
      var err := UpdateStatus(cr, env.statusWrite);
      if err.Some? {
        return AfterEvent(None);
      }
      return Done();
    }

    method ReconcileProcessDelete(cr: Status, env: Env) returns (out: Outcome)
      modifies this
      ensures var t := ProcessDeleteStep(cr, env);
        stored == Next(old(stored), t, env.statusWrite) && out == t.outcome
    {
      if env.processFinalizer.Some? {
        return AfterEvent(None);
      }
      var cr := cr.(crStatus := Code(InCheckNormal));
      var err := UpdateStatus(cr, env.statusWrite);
      if err.Some? {
        return AfterEvent(None);
      }
      return Done();
    }

    method ReconcileCheckNormal(cr: Status, env: Env) returns (out: Outcome)
      modifies this
      ensures var t := CheckNormalStep(cr, env);
        stored == Next(old(stored), t, env.statusWrite) && out == t.outcome
    {
      if env.finalizerSet {
        var cr := cr.(crStatus := Code(InProcessDelete));
        var err := UpdateStatus(cr, env.statusWrite);
        if err.Some? {
          return AfterNormal(None);
        }
      }
      return AfterNormal(None);
    }

    /**
     * One invocation: fetch the resource, then run the handler its stored phase names.
     * Besides following `HandleInstance`, the stored status keeps the reachability
     * invariant and its two flags never turn off.
     */
    method ReconcileHandleInstance(env: Env) returns (out: Outcome)
      modifies this
      ensures stored == Reconciled(name, namespace, old(stored), env)
      ensures out == HandleInstance(name, namespace, old(stored), env).outcome
      ensures old(stored).beSlaveOf ==> stored.beSlaveOf
      ensures old(stored).beSetEtcdCrt ==> stored.beSetEtcdCrt
      ensures ReconcileProps.Inv(old(stored)) ==> ReconcileProps.Inv(stored)
    {
      ghost var before := stored;
      ReconcileProps.FlagsWriteOnce(name, namespace, before, env);
      if ReconcileProps.Inv(before) {
        ReconcileProps.InvPreserved(name, namespace, before, env);
      }
      if env.fetch.Some? {
        if IsNotFound(env.fetch.value) {
          return AfterNormal(None);
        }
        return AfterNormal(env.fetch);
      }
      var cr := stored;
      match FromCode(cr.crStatus)
      case None =>
        out := AfterNormal(None);
      case Some(OnStart) =>
        out := ReconcileCheckSts(cr, env);
      case Some(InCheckDelete) =>
        out := ReconcileCheckDelete(cr, env);
      case Some(InProcessDelete) =>
        out := ReconcileProcessDelete(cr, env);
      case Some(InCheckSts) =>
        out := ReconcileCheckSts(cr, env);
      case Some(InCreateSts) =>
        out := ReconcileInCreateSts(cr, env);
      case Some(InCheckPods) =>
        out := ReconcileCheckPods(cr, env);
      case Some(InCheckService) =>
        out := ReconcileCheckService(cr, env);
      case Some(InCreateService) =>
        out := ReconcileInCreateService(cr, env);
      case Some(InSetEtcdCrt) =>
        out := ReconcileSetEtcdCrt(cr, env);
      case Some(InCheckRedisHA) =>
        out := ReconcileCheckRedisHA(cr, env);
      case Some(InCreateRedisHA) =>
        out := ReconcileCreateRedisHA(cr, env);
      case Some(InFixRedisServer) =>
        out := ReconcileCheckRedisHA(cr, env);
      case Some(InForceRedoPod) =>
        out := ReconcileCheckRedisHA(cr, env);
      case Some(InCheckNormal) =>
        out := ReconcileCheckNormal(cr, env);
    }

    /** Invocations one after another, each with its own collaborator answers. */
    method ReconcileAll(envs: seq<Env>) returns (outs: seq<Outcome>)
      modifies this
      ensures |outs| == |envs|
      ensures |envs| > 0 ==> stored == Run(name, namespace, old(stored), envs)[|envs| - 1]
      ensures ReconcileProps.Inv(old(stored)) ==> ReconcileProps.Inv(stored)
      ensures forall i :: 0 <= i < |envs| ==>
        outs[i] == HandleInstance(name, namespace, Before(old(stored), Run(name, namespace, old(stored), envs), i), envs[i]).outcome
    {
      ghost var start := stored;
      outs := [];
      var i := 0;
      while i < |envs|
        invariant 0 <= i <= |envs|
        invariant |outs| == i
        invariant i > 0 ==> stored == Run(name, namespace, start, envs)[i - 1]
        invariant i == 0 ==> stored == start
        invariant ReconcileProps.Inv(start) ==> ReconcileProps.Inv(stored)
        invariant forall j :: 0 <= j < i ==>
          outs[j] == HandleInstance(name, namespace, Before(start, Run(name, namespace, start, envs), j), envs[j]).outcome
      {
        var out := ReconcileHandleInstance(envs[i]);
        ReconcileProps.RunIndex(name, namespace, start, envs, i);
        outs := outs + [out];
        i := i + 1;
      }
    }
  }
}
