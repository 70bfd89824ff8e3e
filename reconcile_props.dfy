/**
 * Properties of the reconciliation state machine: dispatch, failure handling, the
 * write-once flags, deletion precedence, the happy path and the order of phases.
 */
module ReconcileProps {
  import opened Wrappers
  import opened K8s
  import opened Phases
  import opened ReconcileSpec

  // ---------------------------------------------------------------------------
  // Dispatch and fetch.
  // ---------------------------------------------------------------------------

  /** A failed fetch writes nothing and requeues after the normal interval; only a non-NotFound error is returned. */
  lemma FetchFailure(name: string, namespace: string, st: Status, env: Env)
    requires env.fetch.Some?
    ensures var t := HandleInstance(name, namespace, st, env);
      && t.sent.None?
      && t.outcome.requeue == RequeueAfter(NormalInterval)
      && (t.outcome.err.None? <==> IsNotFound(env.fetch.value))
      && (t.outcome.err.Some? ==> t.outcome.err == env.fetch)
  {
  }

  /** A phase code outside 0..13 writes nothing, requeues after 10 s and returns no error. */
  lemma UnknownPhaseCode(name: string, namespace: string, st: Status, env: Env)
    requires env.fetch.None?
    requires st.crStatus < 0 || st.crStatus > 13
    ensures HandleInstance(name, namespace, st, env) == Transition(None, Outcome(RequeueAfter(10), None))
  {
  }

  /** Phases 0 and 3 run the same handler; so do phases 8, 10 and 11. */
  lemma AliasPhasesShareHandlers(name: string, namespace: string, st: Status, env: Env)
    ensures HandleInstance(name, namespace, st.(crStatus := 0), env)
         == HandleInstance(name, namespace, st.(crStatus := 3), env)
    ensures HandleInstance(name, namespace, st.(crStatus := 8), env)
         == HandleInstance(name, namespace, st.(crStatus := 10), env)
         == HandleInstance(name, namespace, st.(crStatus := 11), env)
  {
  }

  // ---------------------------------------------------------------------------
  // Failures keep the phase.
  // ---------------------------------------------------------------------------

  /** The stored phase's collaborator call failed (a false pod check counts as a failure). */
  predicate CollaboratorFailed(st: Status, env: Env) {
    match FromCode(st.crStatus)
    case Some(OnStart) => env.stsExist.Fail?
    case Some(InCheckSts) => env.stsExist.Fail?
    case Some(InCreateSts) => env.createSts.Some?
    case Some(InCheckPods) => env.podsReady != Ok(true)
    case Some(InCheckService) => env.serviceExist.Fail?
    case Some(InCreateService) => env.createService.Some?
    case Some(InSetEtcdCrt) => !st.beSetEtcdCrt && env.setEtcdCrt.Some?
    case Some(InCreateRedisHA) => env.createHA.Some?
    case Some(InProcessDelete) => env.processFinalizer.Some?
    case _ => false
  }

  /**
   * A failed collaborator call writes no status and requeues after the event interval;
   * a failed fetch or a failed status write leaves the persisted status as it was.
   * Either way the persisted status, phase and flags included, does not change.
   */
  lemma FailureKeepsStatus(name: string, namespace: string, st: Status, env: Env)
    requires env.fetch.Some? || CollaboratorFailed(st, env) || env.statusWrite.Some?
    ensures Reconciled(name, namespace, st, env) == st
    ensures env.fetch.None? && CollaboratorFailed(st, env) ==>
      var t := HandleInstance(name, namespace, st, env);
      t.sent.None? && t.outcome.requeue == RequeueAfter(EventInterval)
  {
    if env.fetch.None? && CollaboratorFailed(st, env) {
      var p := FromCode(st.crStatus).value;
      assert HandleInstance(name, namespace, st, env) == PhaseStep(p, name, namespace, st, env);
    }
  }

  /**
   * Which failures are surfaced as errors, and which error: a check or create failure in
   * the workload, pod and service phases returns that collaborator's own error (a pod
   * check that answers "not ready" returns none); a failed credential push, replication
   * command or finalizer run is only logged.
   */
  lemma FailureErrorPolicy(name: string, namespace: string, st: Status, env: Env)
    requires env.fetch.None? && CollaboratorFailed(st, env)
    ensures var t := HandleInstance(name, namespace, st, env);
      match FromCode(st.crStatus).value
      case OnStart => t.outcome.err == Some(env.stsExist.err)
      case InCheckSts => t.outcome.err == Some(env.stsExist.err)
      case InCreateSts => t.outcome.err == env.createSts
      case InCheckPods => t.outcome.err == (if env.podsReady.Fail? then Some(env.podsReady.err) else None)
      case InCheckService => t.outcome.err == Some(env.serviceExist.err)
      case InCreateService => t.outcome.err == env.createService
      case _ => t.outcome.err.None?
  {
  }

  /**
   * When the handler's collaborator succeeded but the status write fails, the workload,
   * pod and service checks and the statefulset create (phases 0, 3, 4, 5 and 6) return
   * the write error; every other handler, the service create included, returns none.
   * A status is sent in every phase except a steady state with no deletion marker.
   */
  lemma StatusWriteFailurePolicy(name: string, namespace: string, st: Status, env: Env)
    requires env.fetch.None? && FromCode(st.crStatus).Some? && !CollaboratorFailed(st, env)
    requires env.statusWrite.Some?
    ensures var t := HandleInstance(name, namespace, st, env);
      && (t.sent.None? <==> st.crStatus == 12 && !env.finalizerSet)
      && (t.outcome.err == if st.crStatus in {0, 3, 4, 5, 6} then env.statusWrite else None)
      && t.outcome.requeue == RequeueAfter(if st.crStatus == 12 then NormalInterval else EventInterval)
  {
  }

  /**
   * The replication check (phases 8, 10 and 11) writes phase 12 when replication is
   * already wired and phase 9 otherwise, changing nothing else.
   */
  lemma ReplicationCheckChoosesPhase(name: string, namespace: string, st: Status, env: Env)
    requires env.fetch.None? && env.statusWrite.None? && st.crStatus in {8, 10, 11}
    ensures Reconciled(name, namespace, st, env) == st.(crStatus := if st.beSlaveOf then 12 else 9)
  {
  }

  /** While service creation keeps failing, every invocation leaves the stored status untouched. */
  lemma {:induction false} CreateServiceRetry(name: string, namespace: string, st: Status, envs: seq<Env>)
    requires st.crStatus == Code(InCreateService)
    requires forall i :: 0 <= i < |envs| ==> envs[i].createService.Some?
    ensures forall i :: 0 <= i < |envs| ==> Run(name, namespace, st, envs)[i] == st
    decreases |envs|
  {
    if |envs| > 0 {
      FailureKeepsStatus(name, namespace, st, envs[0]);
      CreateServiceRetry(name, namespace, st, envs[1..]);
    }
  }

  // ---------------------------------------------------------------------------
  // What handlers write.
  // ---------------------------------------------------------------------------

  /**
   * Both flags are write-once: they only ever turn on, `beSlaveOf` only when phase 9
   * moves to 12 and `beSetEtcdCrt` only when phase 13 moves to 8.
   */
  lemma FlagsWriteOnce(name: string, namespace: string, st: Status, env: Env)
    ensures var n := Reconciled(name, namespace, st, env);
      && (st.beSlaveOf ==> n.beSlaveOf)
      && (st.beSetEtcdCrt ==> n.beSetEtcdCrt)
      && (n.beSlaveOf != st.beSlaveOf ==> st.crStatus == 9 && n.crStatus == 12)
      && (n.beSetEtcdCrt != st.beSetEtcdCrt ==> st.crStatus == 13 && n.crStatus == 8)
  {
  }

  /** No handler ever writes phase 0, 1, 3, 10 or 11. */
  lemma NeverWritesEntryOrAliasPhases(name: string, namespace: string, st: Status, env: Env)
    ensures var t := HandleInstance(name, namespace, st, env);
      t.sent.Some? ==> t.sent.value.crStatus !in {0, 1, 3, 10, 11}
  {
  }

  /** A successful service creation publishes the address and port and moves to phase 13. */
  lemma CreateServicePublishes(name: string, namespace: string, st: Status, env: Env)
    requires env.fetch.None? && st.crStatus == 7
    requires env.createService.None? && env.statusWrite.None?
    ensures var n := Reconciled(name, namespace, st, env);
      && n.redisAddr == name + "." + namespace + ".svc.cluster.local"
      && n.redisPort == 6379
      && n.crStatus == 13
  {
  }

  /** A service that already exists leads to phase 13 without publishing an address or port. */
  lemma ExistingServiceSkipsPublishing(name: string, namespace: string, st: Status, env: Env)
    requires env.fetch.None? && st.crStatus == 6
    requires env.serviceExist == Ok(true) && env.statusWrite.None?
    ensures var n := Reconciled(name, namespace, st, env);
      n.crStatus == 13 && n.redisAddr == st.redisAddr && n.redisPort == st.redisPort
  {
  }

  /** Installed credentials are never pushed again: phase 13 moves on to 8 whatever the push would do. */
  lemma InstalledCredentialsSkipPush(name: string, namespace: string, st: Status, env: Env, push: Option<Err>)
    requires env.fetch.None? && st.crStatus == 13 && st.beSetEtcdCrt
    ensures HandleInstance(name, namespace, st, env) == HandleInstance(name, namespace, st, env.(setEtcdCrt := push))
    ensures env.statusWrite.None? ==> Reconciled(name, namespace, st, env).crStatus == 8
  {
  }

  // ---------------------------------------------------------------------------
  // Deletion.
  // ---------------------------------------------------------------------------

  /** When the deletion marker is set, both phase 1 and phase 12 move to phase 2. */
  lemma DeletionPrecedence(name: string, namespace: string, st: Status, env: Env)
    requires env.fetch.None? && env.finalizerSet && env.statusWrite.None?
    requires st.crStatus == 1 || st.crStatus == 12
    ensures Reconciled(name, namespace, st, env).crStatus == 2
  {
  }

  /** Without the marker, phase 1 moves to 12 and phase 12 writes nothing. */
  lemma NoDeletionMarker(name: string, namespace: string, st: Status, env: Env)
    requires env.fetch.None? && !env.finalizerSet
    ensures st.crStatus == 1 && env.statusWrite.None? ==> Reconciled(name, namespace, st, env).crStatus == 12
    ensures st.crStatus == 12 ==> HandleInstance(name, namespace, st, env).sent.None?
  {
  }

  /** The steady state always requeues after the normal interval with no error, even if its status write fails. */
  lemma SteadyStateAlwaysRequeues(name: string, namespace: string, st: Status, env: Env)
    requires env.fetch.None? && st.crStatus == 12
    ensures HandleInstance(name, namespace, st, env).outcome == Outcome(RequeueAfter(10), None)
  {
  }

  /** Phase 2 returns to 12 once the finalizer has run, and stays otherwise. */
  lemma ProcessDeleteOutcome(name: string, namespace: string, st: Status, env: Env)
    requires env.fetch.None? && st.crStatus == 2
    ensures env.processFinalizer.Some? ==> Reconciled(name, namespace, st, env) == st
    ensures env.processFinalizer.None? && env.statusWrite.None? ==>
      Reconciled(name, namespace, st, env).crStatus == 12
  {
  }

  // ---------------------------------------------------------------------------
  // The order of phases.
  // ---------------------------------------------------------------------------

  /** The position of a phase code along the transition table; -1 for unknown codes. */
  function Rank(code: int): int {
    if code == 0 || code == 3 then 0
    else if code == 4 then 1
    else if code == 5 then 2
    else if code == 6 then 3
    else if code == 7 then 4
    else if code == 13 then 5
    else if code == 8 || code == 10 || code == 11 then 6
    else if code == 9 then 7
    else if code == 1 then 8
    else if code == 12 then 9
    else if code == 2 then 10
    else -1
  }

  /**
   * The phase only moves forward along the transition table; the single way back is
   * phase 2 returning to the steady state 12 once deletion has been processed.
   */
  lemma PhaseMovesForward(name: string, namespace: string, st: Status, env: Env)
    ensures var n := Reconciled(name, namespace, st, env);
      n.crStatus != st.crStatus ==>
        Rank(st.crStatus) < Rank(n.crStatus) || (st.crStatus == 2 && n.crStatus == 12)
  {
  }

  /** Every collaborator succeeds; neither the statefulset nor the service exists; no deletion is pending. */
  function HappyEnv(): Env {
    Env(None, Ok(false), None, Ok(true), Ok(false), None, None, None, false, None, None)
  }

  /**
   * From a fresh resource with every call succeeding, eight invocations pass through
   * phases 4, 5, 6, 7, 13, 8, 9 and 12 in that order, leaving both flags set and the
   * service address published; the steady state is then a fixed point.
   */
  lemma {:induction false} HappyPath(name: string, namespace: string)
    ensures var trace := Run(name, namespace, InitialStatus, seq(8, _ => HappyEnv()));
      && (seq(8, i requires 0 <= i < 8 => trace[i].crStatus)) == [4, 5, 6, 7, 13, 8, 9, 12]
      && trace[7] == Status(12, true, ServiceAddress(name, namespace), true, 6379)
      && Reconciled(name, namespace, trace[7], HappyEnv()) == trace[7]
  {
    var envs := seq(8, _ => HappyEnv());
    var e := HappyEnv();
    var addr := ServiceAddress(name, namespace);
    var s1 := Status(4, false, "", false, 0);
    var s2 := Status(5, false, "", false, 0);
    var s3 := Status(6, false, "", false, 0);
    var s4 := Status(7, false, "", false, 0);
    var s5 := Status(13, false, addr, false, 6379);
    var s6 := Status(8, false, addr, true, 6379);
    var s7 := Status(9, false, addr, true, 6379);
    var s8 := Status(12, true, addr, true, 6379);
    assert Reconciled(name, namespace, InitialStatus, e) == s1;
    assert Reconciled(name, namespace, s1, e) == s2;
    assert Reconciled(name, namespace, s2, e) == s3;
    assert Reconciled(name, namespace, s3, e) == s4;
    assert Reconciled(name, namespace, s4, e) == s5;
    assert Reconciled(name, namespace, s5, e) == s6;
    assert Reconciled(name, namespace, s6, e) == s7;
    assert Reconciled(name, namespace, s7, e) == s8;
    assert Reconciled(name, namespace, s8, e) == s8;
    assert Run(name, namespace, s7, [e]) == [s8];
    assert Run(name, namespace, s6, [e, e]) == [s7, s8];
    assert Run(name, namespace, s5, [e, e, e]) == [s6, s7, s8];
    assert Run(name, namespace, s4, [e, e, e, e]) == [s5, s6, s7, s8];
    assert Run(name, namespace, s3, [e, e, e, e, e]) == [s4, s5, s6, s7, s8];
    assert Run(name, namespace, s2, [e, e, e, e, e, e]) == [s3, s4, s5, s6, s7, s8];
    assert Run(name, namespace, s1, [e, e, e, e, e, e, e]) == [s2, s3, s4, s5, s6, s7, s8];
    assert envs == [e, e, e, e, e, e, e, e];
    assert Run(name, namespace, InitialStatus, envs) == [s1, s2, s3, s4, s5, s6, s7, s8];
  }

  // ---------------------------------------------------------------------------
  // An invariant of every reachable status.
  // ---------------------------------------------------------------------------

  /**
   * Holds of every status reachable from `InitialStatus`: only phases some handler
   * writes (or the start phase) occur; replication is wired only after the credentials
   * are installed; the replication phases imply installed credentials, and the steady
   * state and deletion phases imply wired replication.
   */
  predicate Inv(st: Status) {
    && st.crStatus in {0, 2, 4, 5, 6, 7, 8, 9, 12, 13}
    && (st.beSlaveOf ==> st.beSetEtcdCrt)
    && (st.crStatus == 8 || st.crStatus == 9 ==> st.beSetEtcdCrt)
    && (st.crStatus == 2 || st.crStatus == 12 ==> st.beSlaveOf)
  }

  lemma InitialSatisfiesInv()
    ensures Inv(InitialStatus)
  {
  }

  /** Every invocation preserves the invariant, whatever its collaborators answer. */
  lemma InvPreserved(name: string, namespace: string, st: Status, env: Env)
    requires Inv(st)
    ensures Inv(Reconciled(name, namespace, st, env))
  {
  }

  /** The invariant holds all along any run from a fresh resource. */
  lemma {:induction false} InvAlongRun(name: string, namespace: string, st: Status, envs: seq<Env>)
    requires Inv(st)
    ensures forall i :: 0 <= i < |envs| ==> Inv(Run(name, namespace, st, envs)[i])
    decreases |envs|
  {
    if |envs| > 0 {
      InvPreserved(name, namespace, st, envs[0]);
      InvAlongRun(name, namespace, Reconciled(name, namespace, st, envs[0]), envs[1..]);
    }
  }

  /** `Run` unfolds one invocation at a time. */
  lemma {:induction false} RunIndex(name: string, namespace: string, start: Status, envs: seq<Env>, i: nat)
    requires i < |envs|
    ensures Run(name, namespace, start, envs)[i]
         == Reconciled(name, namespace, if i == 0 then start else Run(name, namespace, start, envs)[i - 1], envs[i])
    decreases i
  {
    if i > 0 {
      var s := Reconciled(name, namespace, start, envs[0]);
      RunIndex(name, namespace, s, envs[1..], i - 1);
    }
  }
}
