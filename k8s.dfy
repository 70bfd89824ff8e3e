/**
 * The slice of the Kubernetes object model the operator reads and writes. Embedded
 * types whose insides the operator never inspects (resource requirements, affinity,
 * tolerations, security context, PVC resources) are opaque records holding their
 * serialized text.
 */
module K8s {
  import opened Wrappers

  /** A Go `error` coming back from the API server or a transport. */
  datatype Err = NotFound | Failure(reason: string)

  /** `errors.IsNotFound(err)` */
  predicate IsNotFound(e: Err) {
    e.NotFound?
  }

  /** A Go `(value, error)` pair with exactly one side meaningful. */
  datatype Result<T> = Ok(value: T) | Fail(err: Err)

  /** The call an operation makes against the API server, if any. */
  datatype Action<T> = NoCall | Create(obj: T) | Update(obj: T) | Delete(key: string)

  datatype Resources = Resources(text: string)
  datatype Affinity = Affinity(text: string)
  datatype Toleration = Toleration(text: string)
  datatype SecurityContext = SecurityContext(text: string)

  /** `metav1.Time`; the zero value is what `metav1.Time{}` produces. */
  datatype Time = ZeroTime | At(unixSeconds: int)

  datatype ObjectMeta = ObjectMeta(
    name: string,
    namespace: string,
    labels: map<string, string>,
    annotations: map<string, string>,
    resourceVersion: string,
    creationTimestamp: Time,
    managedFields: seq<string>)

  datatype SecretKeyRef = SecretKeyRef(secretName: string, key: string)

  /** A container environment variable: a literal `value` or a secret reference. */
  datatype EnvVar = EnvVar(name: string, value: string, valueFrom: Option<SecretKeyRef>)

  datatype VolumeMount = VolumeMount(name: string, mountPath: string)

  /** An exec probe with its timing parameters. */
  datatype Probe = Probe(
    initialDelaySeconds: int,
    periodSeconds: int,
    failureThreshold: int,
    timeoutSeconds: int,
    command: seq<string>)

  datatype Container = Container(
    name: string,
    image: string,
    imagePullPolicy: string,
    env: seq<EnvVar>,
    resources: Resources,
    readinessProbe: Option<Probe>,
    livenessProbe: Option<Probe>,
    volumeMounts: seq<VolumeMount>)

  /** The parts of a pod the operator reads. */
  datatype Pod = Pod(name: string, podIP: string, containers: seq<Container>)

  /**
   * The annotation merge both patch paths perform before an update: every key of
   * `incoming` keeps its value, and every key only `stored` has is copied over.
   */
  method MergeAnnotations(incoming: map<string, string>, stored: map<string, string>)
    returns (merged: map<string, string>)
    ensures merged.Keys == incoming.Keys + stored.Keys
    ensures forall k :: k in incoming ==> merged[k] == incoming[k]
    ensures forall k :: k in stored && k !in incoming ==> merged[k] == stored[k]
  {
    merged := incoming;
    var todo := stored.Keys;
    while todo != {}
      invariant todo <= stored.Keys
      invariant merged.Keys == incoming.Keys + (stored.Keys - todo)
      invariant forall k :: k in incoming ==> merged[k] == incoming[k]
      invariant forall k :: k in stored && k !in todo && k !in incoming ==> merged[k] == stored[k]
      decreases todo
    {
      var key :| key in todo;
      if key !in merged {
        merged := merged[key := stored[key]];
      }
      todo := todo - {key};
    }
  }
}
