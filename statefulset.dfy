/**
 * The Redis statefulset: how its definition is generated (containers, probes, volume
 * mounts, the persistent volume claim template), the existence and pod-count checks,
 * the idempotent create the reconciler uses, and the create-or-patch path.
 *
 * The API server calls, the three-way diff and the last-applied annotation are
 * collaborators: their answers are fields of `StsApi`. The label, annotation and
 * object-meta helpers the operator calls are not part of this model and come in as
 * the functions of `Helpers`.
 */
module StatefulSets {
  import opened Wrappers
  import opened K8s
  import opened EnvVars
  import opened ReconcileSpec

  const RedisExporterContainer := "redis-exporter"
  /** The initial delay of the default probes, in seconds. */
  const GraceTime := 15
  /** The HA layout is fixed: one master and one replica. */
  const STSReplicaNum := 2

  // ---------------------------------------------------------------------------
  // The objects.
  // ---------------------------------------------------------------------------

  /** A persistent volume claim (template); `None` stands for a nil slice or pointer. */
  datatype PvcSpec = PvcSpec(
    accessModes: Option<seq<string>>,
    volumeMode: Option<string>,
    resources: Resources,
    selector: Option<string>)
  datatype Pvc = Pvc(meta: ObjectMeta, spec: PvcSpec)

  /** A pod volume backed by a config map. */
  datatype Volume = Volume(name: string, configMap: string)

  datatype PodSpec = PodSpec(
    containers: seq<Container>,
    nodeSelector: map<string, string>,
    securityContext: Option<SecurityContext>,
    priorityClassName: string,
    affinity: Option<Affinity>,
    tolerations: seq<Toleration>,
    volumes: seq<Volume>)

  datatype PodTemplate = PodTemplate(labels: map<string, string>, annotations: map<string, string>, spec: PodSpec)

  datatype StatefulSetSpec = StatefulSetSpec(
    serviceName: string,
    replicas: int,
    template: PodTemplate,
    volumeClaimTemplates: seq<Pvc>)

  datatype StatefulSet = StatefulSet(
    kind: string,
    apiVersion: string,
    meta: ObjectMeta,
    spec: StatefulSetSpec,
    currentReplicas: int)   // status.currentReplicas

  /** `statefulSetParameters`. */
  datatype StatefulSetParams = StatefulSetParams(
    replicas: int,
    nodeSelector: map<string, string>,
    securityContext: Option<SecurityContext>,
    priorityClassName: string,
    affinity: Option<Affinity>,
    tolerations: Option<seq<Toleration>>,
    enableMetrics: bool,
    pvc: Pvc,
    externalConfig: Option<string>)

  /** `containerParameters`; `None` stands for a nil pointer. */
  datatype ContainerParams = ContainerParams(
    image: string,
    imagePullPolicy: string,
    resources: Option<Resources>,
    exporterImage: string,
    exporterImagePullPolicy: string,
    exporterResources: Option<Resources>,
    exporterEnv: Option<seq<EnvVar>>,
    role: string,
    enabledPassword: Option<bool>,
    secretName: Option<string>,
    secretKey: Option<string>,
    persistenceEnabled: Option<bool>,
    readinessProbe: Option<Probe>,
    livenessProbe: Option<Probe>)

  /** Helpers the definition needs that are not part of this model. */
  datatype Helpers = Helpers(
    redisLabels: (string, map<string, string>) -> map<string, string>,              // getRedisLabels
    stsAnnotations: ObjectMeta -> map<string, string>,                              // generateStatefulSetsAnots
    objectMeta: (string, string, map<string, string>, map<string, string>) -> ObjectMeta) // generateObjectMetaInformation

  // ---------------------------------------------------------------------------
  // Volume mounts.
  // ---------------------------------------------------------------------------

  const DataMountPath := "/data"
  const ExternalConfigName := "external-config"
  const ExternalConfigPath := "/etc/redis/external.conf.d"

  /** The mounts `getVolumeMount` appends, in order. */
  function VolumeMounts(name: string, persistenceEnabled: Option<bool>, externalConfig: Option<string>): seq<VolumeMount> {
    (if persistenceEnabled == Some(true) then [VolumeMount(name, DataMountPath)] else [])
    + (if externalConfig.Some? then [VolumeMount(ExternalConfigName, ExternalConfigPath)] else [])
  }

  /** `getVolumeMount`. */
  method GetVolumeMount(name: string, persistenceEnabled: Option<bool>, externalConfig: Option<string>)
    returns (mounts: seq<VolumeMount>)
    ensures mounts == VolumeMounts(name, persistenceEnabled, externalConfig)
  {
    mounts := [];
    if persistenceEnabled == Some(true) {
      mounts := mounts + [VolumeMount(name, DataMountPath)];
    }
    if externalConfig.Some? {
      mounts := mounts + [VolumeMount(ExternalConfigName, ExternalConfigPath)];
    }
  }

  /**
   * There are at most two mounts; the data volume, named after the statefulset, is
   * mounted at `/data` exactly when persistence is on, and then first; the external
   * configuration is mounted exactly when one is given.
   */
  lemma VolumeMountsShape(name: string, persistenceEnabled: Option<bool>, externalConfig: Option<string>)
    ensures var m := VolumeMounts(name, persistenceEnabled, externalConfig);
      && |m| <= 2
      && ((exists i :: 0 <= i < |m| && m[i].mountPath == DataMountPath) <==> persistenceEnabled == Some(true))
      && (persistenceEnabled == Some(true) ==> m[0] == VolumeMount(name, DataMountPath))
      && (VolumeMount(ExternalConfigName, ExternalConfigPath) in m <==> externalConfig.Some?)
      && (forall i :: 0 <= i < |m| ==> m[i].mountPath in {DataMountPath, ExternalConfigPath})
  {
    var m := VolumeMounts(name, persistenceEnabled, externalConfig);
    assert DataMountPath != ExternalConfigPath by {
      assert |DataMountPath| != |ExternalConfigPath|;
    }
    if persistenceEnabled == Some(true) {
      assert m[0].mountPath == DataMountPath;
    }
  }

  // ---------------------------------------------------------------------------
  // The persistent volume claim template.
  // ---------------------------------------------------------------------------

  /** `createPVCTemplate`: the storage spec, renamed and relabelled after the statefulset, with defaults filled in. */
  function CreatePvcTemplate(stsMeta: ObjectMeta, storageSpec: Pvc, h: Helpers): (pvc: Pvc)
    ensures pvc.meta.name == stsMeta.name
    ensures pvc.meta.creationTimestamp == ZeroTime
    ensures pvc.meta.labels == stsMeta.labels
    ensures pvc.meta.annotations == h.stsAnnotations(stsMeta)
    ensures pvc.spec.accessModes == Some(if storageSpec.spec.accessModes.None? then ["ReadWriteOnce"]
                                         else storageSpec.spec.accessModes.value)
    ensures pvc.spec.volumeMode == Some(storageSpec.spec.volumeMode.GetOr("Filesystem"))
    ensures pvc.spec.resources == storageSpec.spec.resources && pvc.spec.selector == storageSpec.spec.selector
    ensures pvc.meta.namespace == storageSpec.meta.namespace
  {
    var meta := storageSpec.meta.(creationTimestamp := ZeroTime, name := stsMeta.name, labels := stsMeta.labels,
                                  annotations := h.stsAnnotations(stsMeta));
    var modes := if storageSpec.spec.accessModes.None? then Some(["ReadWriteOnce"]) else storageSpec.spec.accessModes;
    var mode := if storageSpec.spec.volumeMode.Some? then storageSpec.spec.volumeMode.value else "Filesystem";
    Pvc(meta, PvcSpec(modes, Some(mode), storageSpec.spec.resources, storageSpec.spec.selector))
  }

  /** Building the template from a template changes nothing: every default is already filled in. */
  lemma PvcTemplateIdempotent(stsMeta: ObjectMeta, storageSpec: Pvc, h: Helpers)
    ensures CreatePvcTemplate(stsMeta, CreatePvcTemplate(stsMeta, storageSpec, h), h)
         == CreatePvcTemplate(stsMeta, storageSpec, h)
  {
  }

  // ---------------------------------------------------------------------------
  // Containers.
  // ---------------------------------------------------------------------------

  /** `getProbeInfo`: `redis-cli -p 6379 ping`, after 15 s, every 15 s, 5 failures, 5 s timeout. */
  const DefaultProbe := Probe(GraceTime, 15, 5, 5, ["/usr/bin/redis-cli", "-p", "6379", "ping"])

  /** The container parameters the Go code can use without a nil dereference. */
  predicate ContainerArgsOk(cp: ContainerParams, enableMetrics: bool) {
    && cp.resources.Some?
    && (enableMetrics ==> cp.exporterResources.Some?)
    && PasswordArgsOk(cp.enabledPassword, cp.secretName, cp.secretKey)
  }

  function ContainerEnv(cp: ContainerParams): seq<EnvVar>
    requires PasswordArgsOk(cp.enabledPassword, cp.secretName, cp.secretKey)
  {
    StableSort(Unsorted(cp.role, cp.enabledPassword, cp.secretName, cp.secretKey, cp.persistenceEnabled, cp.exporterEnv))
  }

  /** The Redis container. */
  function RedisContainer(name: string, cp: ContainerParams, externalConfig: Option<string>): Container
    requires ContainerArgsOk(cp, false)
  {
    Container(name, cp.image, cp.imagePullPolicy, ContainerEnv(cp), cp.resources.value,
              Some(cp.readinessProbe.GetOr(DefaultProbe)), Some(cp.livenessProbe.GetOr(DefaultProbe)),
              VolumeMounts(name, cp.persistenceEnabled, externalConfig))
  }

  /** `enableRedisMonitoring`: the exporter sidecar, with no probes and no mounts. */
  function ExporterContainer(cp: ContainerParams): Container
    requires ContainerArgsOk(cp, true)
  {
    Container(RedisExporterContainer, cp.exporterImage, cp.exporterImagePullPolicy, ContainerEnv(cp),
              cp.exporterResources.value, None, None, VolumeMounts("", None, None))
  }

  function ContainerDefs(name: string, cp: ContainerParams, enableMetrics: bool, externalConfig: Option<string>): seq<Container>
    requires ContainerArgsOk(cp, enableMetrics)
  {
    [RedisContainer(name, cp, externalConfig)] + (if enableMetrics then [ExporterContainer(cp)] else [])
  }

  /** `generateContainerDef`: build the Redis container, override the probes, append the exporter. */
  method GenerateContainerDef(name: string, cp: ContainerParams, enableMetrics: bool, externalConfig: Option<string>)
    returns (defs: seq<Container>)
    requires ContainerArgsOk(cp, enableMetrics)
    ensures defs == ContainerDefs(name, cp, enableMetrics, externalConfig)
  {
    var env := GetEnvironmentVariables(cp.role, cp.enabledPassword, cp.secretName, cp.secretKey,
                                       cp.persistenceEnabled, cp.exporterEnv);
    var mounts := GetVolumeMount(name, cp.persistenceEnabled, externalConfig);
    var redis := Container(name, cp.image, cp.imagePullPolicy, env, cp.resources.value,
                           Some(DefaultProbe), Some(DefaultProbe), mounts);
    if cp.readinessProbe.Some? {
      redis := redis.(readinessProbe := cp.readinessProbe);
    } else {
      redis := redis.(readinessProbe := Some(DefaultProbe));
    }
    if cp.livenessProbe.Some? {
      redis := redis.(livenessProbe := cp.livenessProbe);
    } else {
      redis := redis.(livenessProbe := Some(DefaultProbe));
    }
    defs := [redis];
    if enableMetrics {
      var exporterEnv := GetEnvironmentVariables(cp.role, cp.enabledPassword, cp.secretName, cp.secretKey,
                                                 cp.persistenceEnabled, cp.exporterEnv);
      var exporterMounts := GetVolumeMount("", None, None);
      var exporter := Container(RedisExporterContainer, cp.exporterImage, cp.exporterImagePullPolicy,
                                exporterEnv, cp.exporterResources.value, None, None, exporterMounts);
      defs := defs + [exporter];
    }
  }

  /**
   * The Redis container comes first, named after the statefulset and carrying the
   * requested resources; each probe is the supplied one, or the default ping probe when
   * none is supplied. The exporter is appended second exactly when metrics are on, and
   * mounts nothing. Both containers get the same environment, ordered by name.
   */
  lemma ContainerDefsShape(name: string, cp: ContainerParams, enableMetrics: bool, externalConfig: Option<string>)
    requires ContainerArgsOk(cp, enableMetrics)
    ensures var cs := ContainerDefs(name, cp, enableMetrics, externalConfig);
      && |cs| == (if enableMetrics then 2 else 1)
      && cs[0].name == name && cs[0].image == cp.image && cs[0].resources == cp.resources.value
      && (cp.readinessProbe.Some? ==> cs[0].readinessProbe == cp.readinessProbe)
      && (cp.readinessProbe.None? ==> cs[0].readinessProbe == Some(DefaultProbe))
      && (cp.livenessProbe.Some? ==> cs[0].livenessProbe == cp.livenessProbe)
      && (cp.livenessProbe.None? ==> cs[0].livenessProbe == Some(DefaultProbe))
      && (enableMetrics ==> cs[1].name == RedisExporterContainer && cs[1].volumeMounts == []
                            && cs[1].resources == cp.exporterResources.value && cs[1].env == cs[0].env)
      && SortedByName(cs[0].env)
      && multiset(cs[0].env) == multiset(Unsorted(cp.role, cp.enabledPassword, cp.secretName, cp.secretKey,
                                                  cp.persistenceEnabled, cp.exporterEnv))
  {
    StableSortCorrect(Unsorted(cp.role, cp.enabledPassword, cp.secretName, cp.secretKey,
                               cp.persistenceEnabled, cp.exporterEnv));
  }

  // ---------------------------------------------------------------------------
  // The statefulset.
  // ---------------------------------------------------------------------------

  /** What `generateStatefulSetsDef` returns. */
  function StatefulSetDef(stsMeta: ObjectMeta, params: StatefulSetParams, cp: ContainerParams, h: Helpers): StatefulSet
    requires ContainerArgsOk(cp, params.enableMetrics)
  {
    var podSpec := PodSpec(ContainerDefs(stsMeta.name, cp, params.enableMetrics, params.externalConfig),
                           params.nodeSelector, params.securityContext, params.priorityClassName,
                           params.affinity, params.tolerations.GetOr([]),
                           if params.externalConfig.Some? then [Volume(ExternalConfigName, params.externalConfig.value)] else []);
    var template := PodTemplate(stsMeta.labels, h.stsAnnotations(stsMeta), podSpec);
    var pvcs := if cp.persistenceEnabled == Some(true) then [CreatePvcTemplate(stsMeta, params.pvc, h)] else [];
    StatefulSet("StatefulSet", "apps/v1", stsMeta, StatefulSetSpec(stsMeta.name, params.replicas, template, pvcs), 0)
  }

  /** `generateStatefulSetsDef`. */
  method GenerateStatefulSetsDef(stsMeta: ObjectMeta, params: StatefulSetParams, cp: ContainerParams, h: Helpers)
    returns (sts: StatefulSet)
    requires ContainerArgsOk(cp, params.enableMetrics)
    ensures sts == StatefulSetDef(stsMeta, params, cp, h)
  {
    var containers := GenerateContainerDef(stsMeta.name, cp, params.enableMetrics, params.externalConfig);
    var podSpec := PodSpec(containers, params.nodeSelector, params.securityContext, params.priorityClassName,
                           params.affinity, [], []);
    var template := PodTemplate(stsMeta.labels, h.stsAnnotations(stsMeta), podSpec);
    sts := StatefulSet("StatefulSet", "apps/v1", stsMeta, StatefulSetSpec(stsMeta.name, params.replicas, template, []), 0);
    if params.tolerations.Some? {
      sts := sts.(spec := sts.spec.(template := sts.spec.template.(spec := sts.spec.template.spec.(tolerations := params.tolerations.value))));
    }
    if cp.persistenceEnabled == Some(true) {
      sts := sts.(spec := sts.spec.(volumeClaimTemplates := sts.spec.volumeClaimTemplates + [CreatePvcTemplate(stsMeta, params.pvc, h)]));
    }
    if params.externalConfig.Some? {
      var volumes := [Volume(ExternalConfigName, params.externalConfig.value)];
      sts := sts.(spec := sts.spec.(template := sts.spec.template.(spec := sts.spec.template.spec.(volumes := volumes))));
    }
  }

  /**
   * The service name is the statefulset's name; tolerations are taken only when given;
   * there is one claim template exactly when persistence is on, and the external
   * configuration volume exactly when a config map is named.
   */
  lemma StatefulSetDefShape(stsMeta: ObjectMeta, params: StatefulSetParams, cp: ContainerParams, h: Helpers)
    requires ContainerArgsOk(cp, params.enableMetrics)
    ensures var sts := StatefulSetDef(stsMeta, params, cp, h);
      && sts.spec.serviceName == stsMeta.name && sts.meta == stsMeta
      && sts.spec.replicas == params.replicas
      && sts.spec.template.spec.tolerations == (if params.tolerations.Some? then params.tolerations.value else [])
      && (|sts.spec.volumeClaimTemplates| == 1 <==> cp.persistenceEnabled == Some(true))
      && (|sts.spec.volumeClaimTemplates| == 0 <==> cp.persistenceEnabled != Some(true))
      && (Volume(ExternalConfigName, params.externalConfig.GetOr("")) in sts.spec.template.spec.volumes
          <==> params.externalConfig.Some?)
      && sts.spec.template.spec.containers[0].name == stsMeta.name
  {
  }

  // ---------------------------------------------------------------------------
  // Checks and the idempotent create.
  // ---------------------------------------------------------------------------

  /** `CheckStatefulSetExist`, given what the lookup returned. */
  function CheckStatefulSetExist(get: Result<StatefulSet>): (r: Result<bool>)
    ensures r == Ok(true) <==> get.Ok?
    ensures r == Ok(false) <==> get == Fail(NotFound)
    ensures r.Fail? <==> get.Fail? && !IsNotFound(get.err)
    ensures r.Fail? ==> r.err == get.err
  {
    match get
    case Ok(_) => Ok(true)
    case Fail(e) => if IsNotFound(e) then Ok(false) else Fail(e)
  }

  /** `CheckStatefulSetPods`, given what the lookup returned. */
  function CheckStatefulSetPods(get: Result<StatefulSet>): (r: Result<bool>)
    ensures r == Ok(true) <==> get.Ok? && get.value.currentReplicas == STSReplicaNum
    ensures r.Fail? <==> get.Fail? && !IsNotFound(get.err)
    ensures r.Fail? ==> r.err == get.err
  {
    match get
    case Fail(e) => if IsNotFound(e) then Ok(false) else Fail(e)
    case Ok(sts) => if STSReplicaNum != sts.currentReplicas then Ok(false) else Ok(true)
  }

  datatype KubernetesConfig = KubernetesConfig(image: string, imagePullPolicy: string, resources: Option<Resources>)

  /** The parts of an OperatorRedisHA resource's spec the statefulset is built from. */
  datatype RedisSpec = RedisSpec(
    kubernetesConfig: KubernetesConfig,
    storage: Option<Pvc>,
    nodeSelector: map<string, string>,
    affinity: Option<Affinity>,
    tolerations: Option<seq<Toleration>>)

  datatype OperatorRedisHA = OperatorRedisHA(meta: ObjectMeta, spec: RedisSpec)

  const EmptyMeta := ObjectMeta("", "", map[], map[], "", ZeroTime, [])
  const EmptyPvc := Pvc(EmptyMeta, PvcSpec(None, None, Resources(""), None))

  /** `generateRedisParams`. */
  function RedisParams(cr: OperatorRedisHA, replicas: int, affinity: Option<Affinity>): StatefulSetParams {
    StatefulSetParams(replicas, cr.spec.nodeSelector, None, "", affinity, cr.spec.tolerations, false,
                      if cr.spec.storage.Some? then cr.spec.storage.value else EmptyPvc, None)
  }

  /** `generateRedisClusterContainerParams`: persistence is switched on exactly when storage is given. */
  function RedisContainerParams(cr: OperatorRedisHA): ContainerParams {
    var kc := cr.spec.kubernetesConfig;
    ContainerParams(kc.image, kc.imagePullPolicy, kc.resources, "", "", None, None, "", None, None, None,
                    if cr.spec.storage.Some? then Some(true) else None, None, None)
  }

  /** What `CreateStatefulSet` sends to the API server when it creates. */
  function DesiredStatefulSet(cr: OperatorRedisHA, h: Helpers): StatefulSet
    requires cr.spec.kubernetesConfig.resources.Some?
  {
    var name := cr.meta.name;
    var labels := h.redisLabels(name, cr.meta.labels);
    var annotations := h.stsAnnotations(cr.meta);
    var meta := h.objectMeta(name, cr.meta.namespace, labels, annotations);
    StatefulSetDef(meta, RedisParams(cr, STSReplicaNum, cr.spec.affinity), RedisContainerParams(cr), h)
  }

  /**
   * `CreateStatefulSet`: create the statefulset unless it exists. A failed lookup is
   * returned as is and nothing is created; an existing statefulset is left alone; a
   * missing one is created with two replicas and a claim template exactly when storage
   * is configured, and the create error is returned.
   */
  method CreateStatefulSet(cr: OperatorRedisHA, get: Result<StatefulSet>, createErr: Option<Err>, h: Helpers)
    returns (err: Option<Err>, call: Action<StatefulSet>)
    requires get == Fail(NotFound) ==> cr.spec.kubernetesConfig.resources.Some?
    ensures get.Fail? && !IsNotFound(get.err) ==> err == Some(get.err) && call == NoCall
    ensures get.Ok? ==> err.None? && call == NoCall
    ensures get == Fail(NotFound) ==>
      && err == createErr
      && call == Create(DesiredStatefulSet(cr, h))
      && call.obj.spec.replicas == STSReplicaNum
      && (|call.obj.spec.volumeClaimTemplates| == 1 <==> cr.spec.storage.Some?)
      && (|call.obj.spec.volumeClaimTemplates| == 0 <==> cr.spec.storage.None?)
      && |call.obj.spec.template.spec.containers| == 1
  {
    var isExist := CheckStatefulSetExist(get);
    if isExist.Fail? {
      return Some(isExist.err), NoCall;
    }
    if isExist.value {
      return None, NoCall;
    }
    var stateFulName := cr.meta.name;
    var labels := h.redisLabels(stateFulName, cr.meta.labels);
    var annotations := h.stsAnnotations(cr.meta);
    var objectMetaInfo := h.objectMeta(stateFulName, cr.meta.namespace, labels, annotations);
    var params := RedisParams(cr, STSReplicaNum, cr.spec.affinity);
    var containerParams := RedisContainerParams(cr);
    var statefulSetDef := GenerateStatefulSetsDef(objectMetaInfo, params, containerParams, h);
    StatefulSetDefShape(objectMetaInfo, params, containerParams, h);
    return createErr, Create(statefulSetDef);
  }

  // ---------------------------------------------------------------------------
  // Create or patch.
  // ---------------------------------------------------------------------------

  /** The API server and patch-library answers one create-or-update sees. */
  datatype StsApi = StsApi(
    get: Result<StatefulSet>,                                // GetStatefulSet
    annotate: StatefulSet -> Option<Err>,                    // SetLastAppliedAnnotation
    calculate: (StatefulSet, StatefulSet) -> Result<bool>,   // Calculate(...).IsEmpty()
    create: Option<Err>,                                     // Create
    update: Option<Err>)                                     // Update

  /** The new object with the server-owned metadata of the stored one. */
  function WithServerFields(newSts: StatefulSet, stored: StatefulSet): StatefulSet {
    newSts.(meta := newSts.meta.(resourceVersion := stored.meta.resourceVersion,
                                 creationTimestamp := stored.meta.creationTimestamp,
                                 managedFields := stored.meta.managedFields))
  }

  /**
   * The object an update sends: the new object with the stored server-owned metadata,
   * the stored (immutable) claim templates, and annotations that are the new ones plus
   * every stored one whose key the new object lacks.
   */
  predicate UpdatedFrom(sent: StatefulSet, stored: StatefulSet, newSts: StatefulSet) {
    var n := WithServerFields(newSts, stored);
    && sent == n.(meta := n.meta.(annotations := sent.meta.annotations),
                  spec := n.spec.(volumeClaimTemplates := stored.spec.volumeClaimTemplates))
    && sent.meta.annotations.Keys == newSts.meta.annotations.Keys + stored.meta.annotations.Keys
    && (forall k :: k in newSts.meta.annotations ==> sent.meta.annotations[k] == newSts.meta.annotations[k])
    && (forall k :: k in stored.meta.annotations && k !in newSts.meta.annotations ==>
          sent.meta.annotations[k] == stored.meta.annotations[k])
  }

  /**
   * `patchStatefulSet`: copy the server-owned metadata, diff; an empty diff updates
   * nothing, a failed diff or annotation is returned, and otherwise the merged object
   * is sent as an update whose error is returned.
   */
  method PatchStatefulSet(stored: StatefulSet, newSts: StatefulSet, api: StsApi)
    returns (err: Option<Err>, call: Action<StatefulSet>)
    ensures var diff := api.calculate(stored, WithServerFields(newSts, stored));
      && (diff.Fail? ==> err == Some(diff.err) && call == NoCall)
      && (diff == Ok(true) ==> err.None? && call == NoCall)
      && (call.Update? ==> diff == Ok(false) && UpdatedFrom(call.obj, stored, newSts) && err == api.update)
      && (diff == Ok(false) ==> call.Update? || (call.NoCall? && err.Some?))
      && (diff == Ok(false) ==> exists o :: (UpdatedFrom(o, stored, newSts) &&
            (if api.annotate(o).Some? then err == api.annotate(o) && call == NoCall
             else err == api.update && call == Update(o))))
      && (call.Update? ==> api.annotate(call.obj).None?)
      && !call.Create?
  {
    var n := WithServerFields(newSts, stored);
    var patchResult := api.calculate(stored, n);
    if patchResult.Fail? {
      return Some(patchResult.err), NoCall;
    }
    if !patchResult.value {
      n := n.(spec := n.spec.(volumeClaimTemplates := stored.spec.volumeClaimTemplates));
      var merged := MergeAnnotations(n.meta.annotations, stored.meta.annotations);
      n := n.(meta := n.meta.(annotations := merged));
      assert UpdatedFrom(n, stored, newSts);
      var annotateErr := api.annotate(n);
      if annotateErr.Some? {
        return annotateErr, NoCall;
      }
      return api.update, Update(n);
    }
    return None, NoCall;
  }

  /**
   * `CreateOrUpdateStateFul`: a lookup that fails with NotFound creates the generated
   * statefulset, any other lookup error is returned, and a found statefulset is patched.
   */
  method CreateOrUpdateStateFul(stsMeta: ObjectMeta, params: StatefulSetParams, cp: ContainerParams,
                                api: StsApi, h: Helpers)
    returns (err: Option<Err>, call: Action<StatefulSet>)
    requires ContainerArgsOk(cp, params.enableMetrics)
    ensures var def := StatefulSetDef(stsMeta, params, cp, h);
      && (api.get.Fail? && api.annotate(def).Some? ==> err == api.annotate(def) && call == NoCall)
      && (api.get == Fail(NotFound) && api.annotate(def).None? ==> err == api.create && call == Create(def))
      && (api.get.Fail? && !IsNotFound(api.get.err) && api.annotate(def).None? ==>
            err == Some(api.get.err) && call == NoCall)
      && (api.get.Ok? ==> !call.Create? && (call.Update? ==> UpdatedFrom(call.obj, api.get.value, def)))
      && (api.get.Ok? ==> var diff := api.calculate(api.get.value, WithServerFields(def, api.get.value));
            && (diff.Fail? ==> err == Some(diff.err) && call == NoCall)
            && (diff == Ok(true) ==> err.None? && call == NoCall)
            && (diff == Ok(false) ==> exists o :: (UpdatedFrom(o, api.get.value, def) &&
                  (if api.annotate(o).Some? then err == api.annotate(o) && call == NoCall
                   else err == api.update && call == Update(o)))))
  {
    var statefulSetDef := GenerateStatefulSetsDef(stsMeta, params, cp, h);
    if api.get.Fail? {
      var annotateErr := api.annotate(statefulSetDef);
      if annotateErr.Some? {
        return annotateErr, NoCall;
      }
      if IsNotFound(api.get.err) {
        return api.create, Create(statefulSetDef);
      }
      return Some(api.get.err), NoCall;
    }
    err, call := PatchStatefulSet(api.get.value, statefulSetDef, api);
  }

  // ---------------------------------------------------------------------------
  // How the reconciler sees these outcomes.
  // ---------------------------------------------------------------------------

  /**
   * With the existence check as its collaborator, phase 0 (or 3) moves to 4 exactly
   * when the lookup says NotFound and to 5 exactly when the statefulset is found.
   */
  lemma WorkloadCheckFollowsLookup(name: string, namespace: string, st: Status, env: Env, get: Result<StatefulSet>)
    requires env.fetch.None? && env.statusWrite.None? && (st.crStatus == 0 || st.crStatus == 3)
    requires env.stsExist == CheckStatefulSetExist(get)
    ensures Reconciled(name, namespace, st, env).crStatus == 4 <==> get == Fail(NotFound)
    ensures Reconciled(name, namespace, st, env).crStatus == 5 <==> get.Ok?
    ensures Reconciled(name, namespace, st, env) == st <==> get.Fail? && !IsNotFound(get.err)
  {
  }

  /** With the pod check as its collaborator, phase 5 advances exactly when two replicas are current. */
  lemma PodCheckFollowsReplicas(name: string, namespace: string, st: Status, env: Env, get: Result<StatefulSet>)
    requires env.fetch.None? && env.statusWrite.None? && st.crStatus == 5
    requires env.podsReady == CheckStatefulSetPods(get)
    ensures Reconciled(name, namespace, st, env).crStatus == 6 <==> get.Ok? && get.value.currentReplicas == 2
    ensures Reconciled(name, namespace, st, env).crStatus != 6 ==> Reconciled(name, namespace, st, env) == st
  {
  }
}
