/**
 * What one invocation of the reconciler does, as a function of the resource's stored
 * status and of the answers its collaborators give during that invocation.
 *
 * Every handler decides on a status to send to the API server (or sends none) and on
 * the result it returns to controller-runtime. Whether the status write goes through
 * is one of the collaborator answers, so the persisted status after an invocation is
 * `Next(before, transition, env.statusWrite)`.
 */
module ReconcileSpec {
  import opened Wrappers
  import opened K8s
  import opened Phases

  /** The status subresource of an OperatorRedisHA resource. */
  datatype Status = Status(
    crStatus: int,       // the phase code
    beSlaveOf: bool,     // replication between ordinal 1 and ordinal 0 is wired
    redisAddr: string,   // the published service address
    beSetEtcdCrt: bool,  // the etcd credentials are installed on both pods
    redisPort: int)      // the published service port

  /** The status of a resource nobody has reconciled yet (Go's zero value). */
  const InitialStatus := Status(0, false, "", false, 0)

  /** The Redis port the service publishes. */
  const RedisPort: int := 6379

  /** The address a created service is published under. */
  function ServiceAddress(name: string, namespace: string): string {
    name + "." + namespace + ".svc.cluster.local"
  }

  /** `ctrl.Result`: no requeue, or a requeue after so many seconds. */
  datatype Requeue = NoRequeue | RequeueAfter(seconds: int)

  /** What `Reconcile` returns: the requeue directive and the error. */
  datatype Outcome = Outcome(requeue: Requeue, err: Option<Err>)

  /**
   * The answers the collaborators give during one invocation: the fetch of the
   * resource, each check or action a handler may call, and the status write.
   */
  datatype Env = Env(
    fetch: Option<Err>,             // r.Client.Get of the resource
    stsExist: Result<bool>,         // CheckStatefulSetExist
    createSts: Option<Err>,         // CreateStatefulSet
    podsReady: Result<bool>,        // CheckStatefulSetPods
    serviceExist: Result<bool>,     // CheckServiceExist
    createService: Option<Err>,     // CreatekService
    setEtcdCrt: Option<Err>,        // ExecuteRedisSetEtcdCrd
    createHA: Option<Err>,          // ExecuteRedisCreateHA
    finalizerSet: bool,             // CheckRedisFinalizer
    processFinalizer: Option<Err>,  // ProcessRedisFinalizer
    statusWrite: Option<Err>)       // r.Status().Update

  /** A handler's decision: the status it sends (if any) and the outcome it returns. */
  datatype Transition = Transition(sent: Option<Status>, outcome: Outcome)

  /** The persisted status after a transition: the sent status if its write succeeded. */
  function Next(before: Status, t: Transition, write: Option<Err>): Status {
    if t.sent.Some? && write.None? then t.sent.value else before
  }

  function Done(): Outcome {
    Outcome(NoRequeue, None)
  }

  function AfterEvent(e: Option<Err>): Outcome {
    Outcome(RequeueAfter(EventInterval), e)
  }

  function AfterNormal(e: Option<Err>): Outcome {
    Outcome(RequeueAfter(NormalInterval), e)
  }

  /** Return without writing the status. */
  function Skip(out: Outcome): Transition {
    Transition(None, out)
  }

  /** Send `desired`; return `onSuccess` or `onFailure` as the write goes. */
  function Write(desired: Status, write: Option<Err>, onSuccess: Outcome, onFailure: Outcome): Transition {
    Transition(Some(desired), if write.None? then onSuccess else onFailure)
  }

  function WithPhase(cr: Status, p: Phase): Status {
    cr.(crStatus := Code(p))
  }

  // ---------------------------------------------------------------------------
  // The handlers, one per phase.
  // ---------------------------------------------------------------------------

  /** Phases 0 and 3: does the statefulset exist? */
  function CheckStsStep(cr: Status, env: Env): Transition {
    match env.stsExist
    case Fail(e) => Skip(AfterEvent(Some(e)))
    case Ok(created) =>
      var desired := WithPhase(cr, if created then InCheckPods else InCreateSts);
      Write(desired, env.statusWrite, Done(), AfterEvent(env.statusWrite))
  }

  /** Phase 4: create the statefulset. */
  function CreateStsStep(cr: Status, env: Env): Transition {
    if env.createSts.Some? then Skip(AfterEvent(env.createSts))
    else Write(WithPhase(cr, InCheckPods), env.statusWrite, Done(), AfterEvent(env.statusWrite))
  }

  /** Phase 5: are both pods of the statefulset current? */
  function CheckPodsStep(cr: Status, env: Env): Transition {
    match env.podsReady
    case Fail(e) => Skip(AfterEvent(Some(e)))
    case Ok(ready) =>
      if !ready then Skip(AfterEvent(None))
      else Write(WithPhase(cr, InCheckService), env.statusWrite, Done(), AfterEvent(env.statusWrite))
  }

  /** Phase 6: does the service exist? */
  function CheckServiceStep(cr: Status, env: Env): Transition {
    match env.serviceExist
    case Fail(e) => Skip(AfterEvent(Some(e)))
    case Ok(present) =>
      var desired := WithPhase(cr, if present then InSetEtcdCrt else InCreateService);
      Write(desired, env.statusWrite, Done(), AfterEvent(env.statusWrite))
  }

  /** Phase 7: create the service and publish its address and port. */
  function CreateServiceStep(name: string, namespace: string, cr: Status, env: Env): Transition {
    if env.createService.Some? then Skip(AfterEvent(env.createService))
    else
      var desired := cr.(redisAddr := ServiceAddress(name, namespace), redisPort := RedisPort,
                         crStatus := Code(InSetEtcdCrt));
      Write(desired, env.statusWrite, Done(), AfterEvent(None))
  }

  /** Phases 8, 10 and 11: is replication wired? */
  function CheckRedisHAStep(cr: Status, env: Env): Transition {
    var desired := WithPhase(cr, if cr.beSlaveOf then InCheckNormal else InCreateRedisHA);
    Write(desired, env.statusWrite, Done(), AfterEvent(None))
  }

  /** Phase 13: install the etcd credentials unless they already are. */
  function SetEtcdCrtStep(cr: Status, env: Env): Transition {
    if !cr.beSetEtcdCrt then
      if env.setEtcdCrt.Some? then Skip(AfterEvent(None))
      else Write(cr.(beSetEtcdCrt := true, crStatus := Code(InCheckRedisHA)), env.statusWrite,
                 Done(), AfterEvent(None))
    else
      Write(WithPhase(cr, InCheckRedisHA), env.statusWrite, Done(), AfterEvent(None))
  }

  /** Phase 9: make ordinal 1 a replica of ordinal 0. */
  function CreateRedisHAStep(cr: Status, env: Env): Transition {
    if env.createHA.Some? then Skip(AfterEvent(None))
    else Write(cr.(beSlaveOf := true, crStatus := Code(InCheckNormal)), env.statusWrite,
               Done(), AfterEvent(None))
  }

  /** Phase 1: is deletion pending? */
  function CheckDeleteStep(cr: Status, env: Env): Transition {
    var desired := WithPhase(cr, if env.finalizerSet then InProcessDelete else InCheckNormal);
    Write(desired, env.statusWrite, Done(), AfterEvent(None))
  }

  /** Phase 2: run the finalizer, then return to the steady state. */
  function ProcessDeleteStep(cr: Status, env: Env): Transition {
    if env.processFinalizer.Some? then Skip(AfterEvent(None))
    else Write(WithPhase(cr, InCheckNormal), env.statusWrite, Done(), AfterEvent(None))
  }

  /** Phase 12: the steady state; re-check the deletion marker every tick. */
  function CheckNormalStep(cr: Status, env: Env): Transition {
    if env.finalizerSet then
      Write(WithPhase(cr, InProcessDelete), env.statusWrite, AfterNormal(None), AfterNormal(None))
    else
      Skip(AfterNormal(None))
  }

  /** The switch on the phase: exactly one handler runs. */
  function PhaseStep(p: Phase, name: string, namespace: string, cr: Status, env: Env): Transition {
    match p
    case OnStart => CheckStsStep(cr, env)
    case InCheckDelete => CheckDeleteStep(cr, env)
    case InProcessDelete => ProcessDeleteStep(cr, env)
    case InCheckSts => CheckStsStep(cr, env)
    case InCreateSts => CreateStsStep(cr, env)
    case InCheckPods => CheckPodsStep(cr, env)
    case InCheckService => CheckServiceStep(cr, env)
    case InCreateService => CreateServiceStep(name, namespace, cr, env)
    case InSetEtcdCrt => SetEtcdCrtStep(cr, env)
    case InCheckRedisHA => CheckRedisHAStep(cr, env)
    case InCreateRedisHA => CreateRedisHAStep(cr, env)
    case InFixRedisServer => CheckRedisHAStep(cr, env)
    case InForceRedoPod => CheckRedisHAStep(cr, env)
    case InCheckNormal => CheckNormalStep(cr, env)
  }

  /** One invocation: fetch the resource, then dispatch on its stored phase code. */
  function HandleInstance(name: string, namespace: string, stored: Status, env: Env): Transition {
    match env.fetch
    case Some(e) => Skip(AfterNormal(if IsNotFound(e) then None else Some(e)))
    case None =>
      match FromCode(stored.crStatus)
      case None => Skip(AfterNormal(None))
      case Some(p) => PhaseStep(p, name, namespace, stored, env)
  }

  /** The persisted status after one invocation. */
  function Reconciled(name: string, namespace: string, stored: Status, env: Env): Status {
    Next(stored, HandleInstance(name, namespace, stored, env), env.statusWrite)
  }

  /** The persisted statuses after each of a sequence of invocations. */
  function Run(name: string, namespace: string, stored: Status, envs: seq<Env>): (trace: seq<Status>)
    ensures |trace| == |envs|
    decreases |envs|
  {
    if |envs| == 0 then []
    else
      var s := Reconciled(name, namespace, stored, envs[0]);
      [s] + Run(name, namespace, s, envs[1..])
  }

  /** The stored status the `i`-th invocation of a run starts from. */
  function Before(start: Status, trace: seq<Status>, i: nat): Status
    requires i <= |trace|
  {
    if i == 0 then start else trace[i - 1]
  }
}
