# operator-redis-ha, modelled in Dafny

operator-redis-ha runs a two-pod Redis master/replica pair on Kubernetes. The
project models three parts of it:

- **The operator's reconciler.** It is a phase machine persisted in the
  `OperatorRedisHA` resource's status. On each reconcile it reads the phase code
  (0–13), runs that phase's handler and writes the next phase back. The handlers:
  - create the statefulset and wait for both pods;
  - create the service and publish its address;
  - push the etcd credentials into both pods;
  - make pod 1 a replica of pod 0;
  - from then on, poll for deletion.
- **The Kubernetes helpers the handlers call:**
  - generating the statefulset (containers, probes, environment variables, volume
    mounts, claim template);
  - the existence and pod-count checks;
  - create-or-patch of statefulsets and pod disruption budgets;
  - executing `redis-cli` and the credential script in the pods;
  - building the etcd address list from the cluster's endpoints.
- **The Redis server's etcd link.** It is a small connection state machine driven
  by the server cron. Once connected, a master writes a fixed key on every tick.

Layout:

- `wrappers.dfy`: `Option`.
- `strings.dfy`: Go's string behaviour that the code relies on. That is byte-wise
  `<`, `strings.Contains`, `strings.Split` and joining, comma counting and `%d`.
- `k8s.dfy`: the slice of the Kubernetes object model that is used, API results
  (`Result`, `Err` with `NotFound`), the calls an operation makes (`Action`) and the
  annotation merge loop.
- `phases.dfy`: the phase constants and requeue intervals.
- `reconcile_spec.dfy`: one reconcile on values. Each handler is a function from the
  stored status and the collaborators' answers (`Env`) to the status it sends and
  the requeue/error it returns.
- `reconcile_props.dfy`: properties of the phase machine, alone and over runs.
- `controller.dfy`: the reconciler as a class holding the stored status. Each handler
  method is proved against its function in `reconcile_spec.dfy`.
- `redis.go` becomes `redis.dfy`; `statefulset.go` becomes `env_vars.dfy` (environment
  variables and their stable sort) and `statefulset.dfy`; `poddisruption.go` becomes
  `poddisruption.dfy`; `endpoints.go` becomes `endpoints.dfy`.
- `etcd_link.dfy`: the etcd link. The client and the server are classes, and a tick
  is specified by a function on values.

Collaborators the code calls but whose code is not part of this model become
parameters or fields of an answers record. These are:

- the API server's get/create/update/delete;
- `CheckServiceExist`, `CreatekService`, `CheckRedisFinalizer` and
  `ProcessRedisFinalizer`;
- the pod exec stream;
- `net.ParseIP` and base64;
- the three-way patch library;
- `getRedisLabels`, `generateStatefulSetsAnots` and `generateObjectMetaInformation`;
- the etcd C client.

## Model

| member | source | states |
|---|---|---|
| Phases.Code | redis-operator/controllers/const.go:4-17 | every phase has its constant, and all constants lie in 0..13 |
| Phases.FromCode | redis-operator/controllers/const.go:4-17 | a stored code names a phase exactly when it is in 0..13, and then that phase's constant is the code |
| Phases.CodeRoundTrip | redis-operator/controllers/const.go:4-17 | decoding a phase's constant gives the phase back |
| Phases.CodesDistinct | redis-operator/controllers/const.go:4-17 | distinct phases have distinct constants |
| ReconcileSpec.Run | redis-operator/controllers/operatorredisha_controller.go:52-101 | a run of reconciles yields one stored status per invocation |
| ReconcileProps.FetchFailure | redis-operator/controllers/operatorredisha_controller.go:55-65 | when the resource cannot be read, nothing is written and the reconcile requeues after 10 s; NotFound is swallowed and other errors are returned |
| ReconcileProps.UnknownPhaseCode | redis-operator/controllers/operatorredisha_controller.go:98-100 | a code outside 0..13 writes nothing and requeues after 10 s without error |
| ReconcileProps.AliasPhasesShareHandlers | redis-operator/controllers/operatorredisha_controller.go:69-97 | code 0 behaves exactly as code 3, and codes 10 and 11 behave exactly as code 8 |
| ReconcileProps.FailureKeepsStatus | redis-operator/controllers/operatorredisha_controller.go:104-341 | a failed read, a failed collaborator or a failed status write leaves the stored status unchanged |
| ReconcileProps.FailureErrorPolicy | redis-operator/controllers/operatorredisha_controller.go:104-341 | which failures surface as errors: the statefulset and service checks and creates return that collaborator's own error, the pod check returns its error only when the check itself failed (a "not ready" answer returns none), and a failed credential push, `slaveof` or finalizer run is swallowed |
| ReconcileProps.StatusWriteFailurePolicy | redis-operator/controllers/operatorredisha_controller.go:104-341 | after a successful collaborator, a failed status write is returned by phases 0, 3, 4, 5 and 6 and swallowed by every other handler, the service create included; a status is sent in every phase except phase 12 with no deletion marker, and the requeue is 10 s in phase 12 and 20 s elsewhere |
| ReconcileProps.ReplicationCheckChoosesPhase | redis-operator/controllers/operatorredisha_controller.go:225-242 | phases 8, 10 and 11 write phase 12 when replication is already wired and phase 9 otherwise, changing nothing else |
| ReconcileProps.CreateServiceRetry | redis-operator/controllers/operatorredisha_controller.go:201-223 | while service creation keeps failing, every reconcile leaves the resource in phase 7 with its status unchanged |
| ReconcileProps.FlagsWriteOnce | redis-operator/controllers/operatorredisha_controller.go:244-289 | `beSlaveOf` and `beSetEtcdCrt` never go from true back to false; `beSlaveOf` turns on only as phase 9 moves to 12, and `beSetEtcdCrt` only as phase 13 moves to 8 |
| ReconcileProps.NeverWritesEntryOrAliasPhases | redis-operator/controllers/operatorredisha_controller.go:104-341 | no handler ever writes phase 0, 1, 3, 10 or 11 |
| ReconcileProps.CreateServicePublishes | redis-operator/controllers/operatorredisha_controller.go:201-223 | a created service publishes `<name>.<namespace>.svc.cluster.local:6379` and moves to phase 13 |
| ReconcileProps.ExistingServiceSkipsPublishing | redis-operator/controllers/operatorredisha_controller.go:177-199 | an existing service moves straight to phase 13 without touching the published address |
| ReconcileProps.InstalledCredentialsSkipPush | redis-operator/controllers/operatorredisha_controller.go:244-268 | once credentials are installed, the push's outcome is irrelevant and phase 13 moves to 8 |
| ReconcileProps.DeletionPrecedence | redis-operator/controllers/operatorredisha_controller.go:291-341 | with the deletion finalizer set, phases 1 and 12 move to phase 2 |
| ReconcileProps.NoDeletionMarker | redis-operator/controllers/operatorredisha_controller.go:291-341 | without it, phase 1 moves to 12 and phase 12 writes nothing |
| ReconcileProps.SteadyStateAlwaysRequeues | redis-operator/controllers/operatorredisha_controller.go:329-341 | phase 12 always requeues after 10 s with no error, whatever the status write does |
| ReconcileProps.ProcessDeleteOutcome | redis-operator/controllers/operatorredisha_controller.go:309-327 | a failed finalizer run keeps phase 2; a successful one moves to 12 |
| ReconcileProps.PhaseMovesForward | redis-operator/controllers/operatorredisha_controller.go:104-341 | a reconcile that changes the phase moves it forward along the transition table; the one way back is phase 2 returning to 12 once deletion has been processed |
| ReconcileProps.HappyPath | redis-operator/controllers/operatorredisha_controller.go:52-341 | with every collaborator succeeding, a fresh resource goes through phases 4, 5, 6, 7, 13, 8, 9, 12 in eight reconciles, ending with both flags set and the address published; that status is then a fixed point |
| ReconcileProps.InitialSatisfiesInv | redis-operator/api/v1alpha1/operatorredisha_types.go:56-65 | the zero status satisfies the reachability invariant |
| ReconcileProps.InvPreserved | redis-operator/controllers/operatorredisha_controller.go:104-341 | every reconcile keeps the invariant: only codes 0, 2, 4-9, 12 and 13 occur; the slave flag implies the credentials flag; phases 8 and 9 imply installed credentials; phases 2 and 12 imply wired replication |
| ReconcileProps.InvAlongRun | redis-operator/controllers/operatorredisha_controller.go:52-341 | the invariant holds after every reconcile of a run |
| Reconciler.OperatorRedisHAReconciler.constructor | redis-operator/api/v1alpha1/operatorredisha_types.go:56-65 | a new resource starts with the zero status |
| Reconciler.OperatorRedisHAReconciler.UpdateStatus | redis-operator/controllers/operatorredisha_controller.go:119-125 | a status write replaces the stored status exactly when it succeeds |
| Reconciler.OperatorRedisHAReconciler.ReconcileCheckSts | redis-operator/controllers/operatorredisha_controller.go:104-128 | follows `CheckStsStep`: a missing statefulset goes to 4, an existing one to 5, a failed check returns its error |
| Reconciler.OperatorRedisHAReconciler.ReconcileInCreateSts | redis-operator/controllers/operatorredisha_controller.go:130-149 | follows `CreateStsStep`: a created statefulset goes to 5 |
| Reconciler.OperatorRedisHAReconciler.ReconcileCheckPods | redis-operator/controllers/operatorredisha_controller.go:151-175 | follows `CheckPodsStep`: both pods up goes to 6, otherwise the reconcile requeues after 20 s |
| Reconciler.OperatorRedisHAReconciler.ReconcileCheckService | redis-operator/controllers/operatorredisha_controller.go:177-199 | follows `CheckServiceStep`: a missing service goes to 7, an existing one to 13 |
| Reconciler.OperatorRedisHAReconciler.ReconcileInCreateService | redis-operator/controllers/operatorredisha_controller.go:201-223 | follows `CreateServiceStep`: publishes the service address and port and goes to 13 |
| Reconciler.OperatorRedisHAReconciler.ReconcileCheckRedisHA | redis-operator/controllers/operatorredisha_controller.go:225-242 | follows `CheckRedisHAStep`: goes to 9 until the replica is set up, then to 12 |
| Reconciler.OperatorRedisHAReconciler.ReconcileSetEtcdCrt | redis-operator/controllers/operatorredisha_controller.go:244-268 | follows `SetEtcdCrtStep`: pushes credentials once, sets the flag and goes to 8 |
| Reconciler.OperatorRedisHAReconciler.ReconcileCreateRedisHA | redis-operator/controllers/operatorredisha_controller.go:270-289 | follows `CreateRedisHAStep`: a successful `slaveof` sets the flag and goes to 12 |
| Reconciler.OperatorRedisHAReconciler.ReconcileCheckDelete | redis-operator/controllers/operatorredisha_controller.go:291-307 | follows `CheckDeleteStep` |
| Reconciler.OperatorRedisHAReconciler.ReconcileProcessDelete | redis-operator/controllers/operatorredisha_controller.go:309-327 | follows `ProcessDeleteStep` |
| Reconciler.OperatorRedisHAReconciler.ReconcileCheckNormal | redis-operator/controllers/operatorredisha_controller.go:329-341 | follows `CheckNormalStep` |
| Reconciler.OperatorRedisHAReconciler.ReconcileHandleInstance | redis-operator/controllers/operatorredisha_controller.go:52-101 | the stored status becomes `Reconciled(...)`; both flags are write-once and the invariant is kept |
| Reconciler.OperatorRedisHAReconciler.ReconcileAll | redis-operator/controllers/operatorredisha_controller.go:52-101 | successive reconciles leave the stored status at the last element of `Run`, keeping the invariant, and each returned outcome is the one `HandleInstance` gives for the status that reconcile started from |
| K8s.MergeAnnotations | redis-operator/k8sutils/statefulset.go:100-104 | the merged annotations hold every new key with its new value, plus every stored key the new map lacks |
| RedisExec.ContainerIndex | redis-operator/k8sutils/redis.go:48-55 | the index of the first container with the resource's name, or -1 exactly when there is none |
| RedisExec.GetContainerID | redis-operator/k8sutils/redis.go:41-57 | a failed pod lookup yields the empty pod; the loop finds `ContainerIndex` |
| RedisExec.ExecuteCommand | redis-operator/k8sutils/redis.go:60-102 | returns what `Exec` specifies |
| RedisExec.ExecContract | redis-operator/k8sutils/redis.go:60-102 | the output is empty on any error; an exec succeeds exactly when the config, the container lookup, the executor and the stream all succeed; a missing container fails before anything is issued; on success the output is stdout of the command issued to the named container of the named pod |
| RedisExec.BracketRoundTrip | redis-operator/k8sutils/redis.go:105-121 | non-IPv4 addresses are wrapped in brackets, IPv4 ones are left alone, and unwrapping gives the pod IP back |
| RedisExec.ExecuteRedisCreateHA | redis-operator/k8sutils/redis.go:123-147 | returns what `CreateHA` specifies |
| RedisExec.CreateHAContract | redis-operator/k8sutils/redis.go:123-147 | on pod `<name>-1` it runs `redis-cli -p 6379 slaveof <ip of <name>-0> 6379`; it succeeds exactly when the exec succeeds and its output contains `OK` |
| RedisExec.CreateHARunsOnOrdinalOne | redis-operator/k8sutils/redis.go:135 | the outcome depends only on what runs in pod `<name>-1` |
| RedisExec.ExecuteRedisSetEtcdCrd | redis-operator/k8sutils/redis.go:149-179 | runs the credential script in pod 0 and then pod 1, stopping at the first error; the pods visited are recorded |
| RedisExec.SetEtcdCrtContract | redis-operator/k8sutils/redis.go:164-178 | succeeds exactly when both pods accept the script; a failure on pod 0 is returned whatever pod 1 would do |
| RedisExec.PodNamesDiffer | redis-operator/k8sutils/redis.go:170 | the pod names are `<name>-0` and `<name>-1`, and they differ |
| RedisExec.ReplicationPhaseFollowsReply | redis-operator/controllers/operatorredisha_controller.go:270-289 | phase 9 reaches 12, with the slave flag set, exactly when `slaveof` answers OK |
| RedisExec.CredentialPhaseFollowsPush | redis-operator/controllers/operatorredisha_controller.go:244-268 | after phase 13 the credentials flag is set exactly when it already was or both pods accepted the script |
| EnvVars.WithNameAppend | redis-operator/k8sutils/statefulset.go:344-346 | filtering by name distributes over appending |
| EnvVars.InsertPermutes | redis-operator/k8sutils/statefulset.go:347-349 | one insertion step adds exactly the inserted variable |
| EnvVars.InsertSorted | redis-operator/k8sutils/statefulset.go:347-349 | inserting into a name-ordered list keeps it ordered |
| EnvVars.InsertStable | redis-operator/k8sutils/statefulset.go:347-349 | the inserted variable goes after every variable of the same name |
| EnvVars.StableSortPermutes | redis-operator/k8sutils/statefulset.go:347-349 | the sort is a permutation |
| EnvVars.StableSortSorted | redis-operator/k8sutils/statefulset.go:347-349 | the sort orders by name, byte-wise |
| EnvVars.StableSortStable | redis-operator/k8sutils/statefulset.go:347-349 | variables with equal names keep their relative order |
| EnvVars.StableSortCorrect | redis-operator/k8sutils/statefulset.go:347-349 | sorted, a permutation, and stable |
| EnvVars.SortByName | redis-operator/k8sutils/statefulset.go:347-349 | the in-order sort computes `StableSort`: ordered by name, a permutation, stable |
| EnvVars.NamesDistinct | redis-operator/k8sutils/statefulset.go:302-341 | the operator's own variable names are pairwise distinct |
| EnvVars.OwnVarsByName | redis-operator/k8sutils/statefulset.go:302-342 | the operator's own variables are `SERVER_MODE`, `SETUP_MODE`, `ETCD_ADDR` and `REDIS_ADDR`, plus `REDIS_PASSWORD` exactly when the password is enabled and `PERSISTENCE_ENABLED` exactly when persistence is |
| EnvVars.SortedSplitsByName | redis-operator/k8sutils/statefulset.go:344-349 | after sorting, each name's variables are the operator's own followed by the extra ones, in their given order |
| EnvVars.AppendEnvVars | redis-operator/k8sutils/statefulset.go:302-346 | the appends build the unsorted list |
| EnvVars.GetEnvironmentVariables | redis-operator/k8sutils/statefulset.go:299-351 | the result is ordered by name; it has 4 variables plus one each for password and persistence plus the extras; per name, the operator's own variables precede the extra ones |
| StatefulSets.GetVolumeMount | redis-operator/k8sutils/statefulset.go:258-276 | computes `VolumeMounts` by appending |
| StatefulSets.VolumeMountsShape | redis-operator/k8sutils/statefulset.go:258-276 | `/data` is mounted exactly when persistence is on, and then first; the external config is mounted exactly when given; there are at most two mounts |
| StatefulSets.CreatePvcTemplate | redis-operator/k8sutils/statefulset.go:170-190 | the template takes the statefulset's name, labels and annotations, a zero timestamp, and `ReadWriteOnce` and `Filesystem` as defaults; resources and selector are copied |
| StatefulSets.PvcTemplateIdempotent | redis-operator/k8sutils/statefulset.go:170-190 | building the template from a template changes nothing |
| StatefulSets.GenerateContainerDef | redis-operator/k8sutils/statefulset.go:193-255 | computes `ContainerDefs` |
| StatefulSets.ContainerDefsShape | redis-operator/k8sutils/statefulset.go:193-296 | the Redis container comes first, with the supplied probes or the default ping probe (15/15/5/5); the exporter comes second exactly when metrics are on, has no mounts and the same environment; the environment is sorted and a permutation of the unsorted list |
| StatefulSets.GenerateStatefulSetsDef | redis-operator/k8sutils/statefulset.go:116-151 | computes `StatefulSetDef` |
| StatefulSets.StatefulSetDefShape | redis-operator/k8sutils/statefulset.go:116-151 | the service name is the statefulset's name; tolerations appear only when given; there is one claim template exactly when persistence is on, and the external-config volume exactly when a config map is named |
| StatefulSets.CheckStatefulSetExist | redis-operator/k8sutils/statefulset.go:399-412 | found gives true, NotFound gives false, and any other error is returned |
| StatefulSets.CheckStatefulSetPods | redis-operator/k8sutils/statefulset.go:471-494 | true exactly when found with 2 current replicas; NotFound gives false; other errors are returned |
| StatefulSets.CreateStatefulSet | redis-operator/k8sutils/statefulset.go:446-469 | an existing statefulset is left alone; a failed check is returned; a missing one is created with 2 replicas, one container, and a claim template exactly when storage is configured |
| StatefulSets.PatchStatefulSet | redis-operator/k8sutils/statefulset.go:78-113 | a failed diff is returned; an empty diff makes no call; otherwise the merged object (stored server metadata, stored claim templates, merged annotations) is annotated, an annotation error is returned with no call, and once the annotation succeeds the update is sent and its error returned |
| StatefulSets.CreateOrUpdateStateFul | redis-operator/k8sutils/statefulset.go:60-75 | on a failed lookup the annotation error wins, then NotFound creates and other errors are returned; a found statefulset gets exactly the patch outcome: a failed diff returned, an empty diff no call, otherwise the annotation's error or the update of the merged object |
| StatefulSets.WorkloadCheckFollowsLookup | redis-operator/controllers/operatorredisha_controller.go:104-128 | with the existence check as collaborator, phase 0/3 goes to 4 exactly on NotFound, to 5 exactly when found, and stays on any other error |
| StatefulSets.PodCheckFollowsReplicas | redis-operator/controllers/operatorredisha_controller.go:151-175 | with the pod check as collaborator, phase 5 advances exactly when two replicas are current |
| PodDisruption.CreatePodDisruptionBudget | redis-operator/k8sutils/poddisruption.go:73-82 | one create call; the client error is returned unchanged |
| PodDisruption.UpdatePodDisruptionBudget | redis-operator/k8sutils/poddisruption.go:85-94 | one update call; the client error is returned unchanged |
| PodDisruption.DeletePodDisruptionBudget | redis-operator/k8sutils/poddisruption.go:97-106 | one delete call by name; the client error is returned unchanged |
| PodDisruption.PatchPodDisruptionBudget | redis-operator/k8sutils/poddisruption.go:31-70 | the stored budget is compared with its kind and API version filled in; a failed diff is returned; an empty diff makes no call; otherwise the merged budget (stored server metadata, merged annotations) is annotated, an annotation error is returned with no call, and once the annotation succeeds the update is sent and its error returned |
| PodDisruption.CreateOrUpdatePodDisruptionBudget | redis-operator/k8sutils/poddisruption.go:14-28 | NotFound creates, other lookup errors are returned (after the annotation, whose error wins), and a found budget gets exactly the patch outcome: a failed diff returned, an empty diff no call, otherwise the annotation's error or the update of the merged budget |
| EtcdEndpoints.GetKubeSystemEtcdEndpoints | redis-operator/k8sutils/endpoints.go:36-73 | the loop with its trailing-comma cut computes `EtcdAddress` |
| EtcdEndpoints.EtcdAddressRoundTrip | redis-operator/k8sutils/endpoints.go:60-72 | splitting the list on commas gives back one `ip:port` per address of the first subset, and the list has one comma fewer than there are addresses |
| EtcdEndpoints.EtcdAddressErrors | redis-operator/k8sutils/endpoints.go:39-58 | an error exactly when the lookup fails or the first subset lacks ports or addresses; a successful result is non-empty |
| EtcdLink.EtcdLinkClient.constructor | redis-instance/src/redis-6.2.6/src/etcd_link.c:12-26 | a new client is unconnected, with no handle, zero counters and no replacement path |
| EtcdLink.EtcdLinkClient.InitServer | redis-instance/src/redis-6.2.6/src/etcd_link.c:28-44 | an existing handle is marked connected without reconnecting; a failed connect changes nothing; a successful one connects |
| EtcdLink.EtcdLinkClient.Update | redis-instance/src/redis-6.2.6/src/etcd_link.c:89-99 | a master (no `masterhost`) adds the fixed key; a replica adds nothing |
| EtcdLink.EtcdLinkClient.UpdateMaster | redis-instance/src/redis-6.2.6/src/etcd_link.c:101-114 | the add is `/sys-redis-ha-default-redis-test` = `value` with ttl 1 |
| EtcdLink.RedisServer.Cron | redis-instance/src/redis-6.2.6/src/etcd_link.c:52-87 | one tick follows `Tick`: a no-op without an address; creates the client; does nothing in WAIT_CONNECT or unknown states; runs init in UNINIT and DIS_CONNECT; updates when connected |
| EtcdLink.TryCreateOldMasterPath | redis-instance/src/redis-6.2.6/src/etcd_link.c:47-50 | always 0 |
| EtcdLink.TickPreservesReachable | redis-instance/src/redis-6.2.6/src/etcd_link.c:17-87 | a tick keeps the link reachable (WAIT_CONNECT and DIS_CONNECT are never entered; connected means holding a handle), and never moves it backwards |
| EtcdLink.AddOnlyWhenConnected | redis-instance/src/redis-6.2.6/src/etcd_link.c:52-114 | a key is added exactly when a master with an address is connected, and the add carries its handle |
| EtcdLink.TicksStayReachable | redis-instance/src/redis-6.2.6/src/etcd_link.c:52-87 | along any run of ticks every link is reachable and progress never decreases |
| EtcdLink.ConnectsOnSecondTick | redis-instance/src/redis-6.2.6/src/etcd_link.c:52-87 | a fresh master creates its client on tick 1, connects on tick 2, and adds its key from tick 3 on |
| EtcdLink.FailedConnectsChangeNothing | redis-instance/src/redis-6.2.6/src/etcd_link.c:36-40 | while connecting keeps failing, a created client stays unconnected |

## Left out

- Logging, controller-runtime timers and worker concurrency. A requeue delay is
  returned as data.
- The Kubernetes client, pod exec streaming, `net.ParseIP`, base64 and the etcd C
  client. These become parameters; no property depends on their insides.
- `ctlconfig`: the certificate, key and CA strings are parameters of the credential
  push.
- `CheckServiceExist`, `CreatekService`, `CheckRedisFinalizer` and
  `ProcessRedisFinalizer` are not part of this model. The reconciler sees only their
  answers.
- The patch library's `Calculate` and `SetLastAppliedAnnotation` are opaque.
  `Calculate` is modelled only as "diff empty / not empty / failed". The annotation
  that `SetLastAppliedAnnotation` adds to the object is not modelled, so the create
  and update calls carry the object without it.
- `getRedisLabels`, `generateStatefulSetsAnots` and `generateObjectMetaInformation`
  are not part of this model. They are the functions of `Helpers`.
- The label selector (`LabelSelectors`) and owner references (`redisClusterAsOwner`,
  `AddOwnerRefToObject`) are not part of this model. They are absent from the
  generated statefulset.
- `GetStatefulSet`, `GetPodDisruptionBudget` and `getEndpoints` are thin wrappers
  around the client. Their result is an input (`get`).
- GenerateContainerDef: requires the Redis resources, and the exporter's when metrics
  are on. The Go code dereferences those pointers before its nil checks (lines
  207 and 248), so a nil one panics.
- CreateStatefulSet: requires the resources when the statefulset is missing, for the
  same reason.
- GetEnvironmentVariables: requires the secret name and key when the password is
  enabled (lines 333-335 dereference them).
- PatchStatefulSet: the annotation merge writes into the new object's map, which
  panics in Go when that map is nil and a stored key is missing. The model treats a
  nil map as empty.
- PatchPodDisruptionBudget: the annotation merge likewise writes into the new
  budget's map (poddisruption.go:60), which panics in Go when that map is nil and a
  stored key is missing. The model treats a nil map as empty.
- `ETCD_ADDR` is the constant `192.168.58.201:2379,192.168.58.201:2379`, as in the
  code (statefulset.go:310). The call to `GetKubeSystemEtcdEndpoints` is commented
  out there. The endpoints function is modelled on its own.
- SortByName: the stable sort is modelled on a sequence, returning the sorted list.
  `sort.SliceStable` sorts the slice in place; its algorithm is not modelled, only
  its result.
- Integer widths are unbounded here. Ports and replica counts are Go `int32`, and
  the status fields `CRStatus` and `RedisPort` are Go `int`
  (api/v1alpha1/operatorredisha_types.go:60 and 64). No operation here does
  arithmetic that could overflow either width.
- The status subresource's concurrency: a write fails with an error or succeeds.
  Resource-version conflicts are just another error.
- `etcd_add`'s return code is only logged by the server, so the model ignores it.
  The `redis_server` back pointer is a constant field of the client.
