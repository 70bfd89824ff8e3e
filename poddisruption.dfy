/**
 * Pod disruption budgets: create the budget when it is missing, patch it when it has
 * drifted, and the thin create, update and delete wrappers that hand the API server's
 * error back unchanged.
 *
 * The budget's spec is never inspected by the operator; it is kept as opaque text. The
 * API server and patch-library answers are fields of `PdbApi`.
 */
module PodDisruption {
  import opened Wrappers
  import opened K8s

  const PdbKind := "PodDisruptionBudget"
  const PdbApiVersion := "policy/v1"

  datatype PodDisruptionBudget = PodDisruptionBudget(kind: string, apiVersion: string, meta: ObjectMeta, spec: string)

  /** The API server and patch-library answers one create-or-update sees. */
  datatype PdbApi = PdbApi(
    get: Result<PodDisruptionBudget>,                                         // GetPodDisruptionBudget
    annotate: PodDisruptionBudget -> Option<Err>,                             // SetLastAppliedAnnotation
    calculate: (PodDisruptionBudget, PodDisruptionBudget) -> Result<bool>,    // Calculate(...).IsEmpty()
    create: Option<Err>,                                                      // Create
    update: Option<Err>)                                                      // Update

  /** `createPodDisruptionBudget`: one create call, whose error is returned unchanged. */
  method CreatePodDisruptionBudget(pdb: PodDisruptionBudget, clientErr: Option<Err>)
    returns (err: Option<Err>, call: Action<PodDisruptionBudget>)
    ensures call == Create(pdb) && err == clientErr
  {
    return clientErr, Create(pdb);
  }

  /** `updatePodDisruptionBudget`: one update call, whose error is returned unchanged. */
  method UpdatePodDisruptionBudget(pdb: PodDisruptionBudget, clientErr: Option<Err>)
    returns (err: Option<Err>, call: Action<PodDisruptionBudget>)
    ensures call == Update(pdb) && err == clientErr
  {
    return clientErr, Update(pdb);
  }

  /** `deletePodDisruptionBudget`: one delete call by name, whose error is returned unchanged. */
  method DeletePodDisruptionBudget(pdbName: string, clientErr: Option<Err>)
    returns (err: Option<Err>, call: Action<PodDisruptionBudget>)
    ensures call == Delete(pdbName) && err == clientErr
  {
    return clientErr, Delete(pdbName);
  }

  /** The new budget with the server-owned metadata of the stored one. */
  function WithServerFields(newPdb: PodDisruptionBudget, stored: PodDisruptionBudget): PodDisruptionBudget {
    newPdb.(meta := newPdb.meta.(resourceVersion := stored.meta.resourceVersion,
                                 creationTimestamp := stored.meta.creationTimestamp,
                                 managedFields := stored.meta.managedFields))
  }

  /** The stored budget as it is compared: the server leaves its type fields empty, so they are filled in. */
  function WithTypeMeta(stored: PodDisruptionBudget): PodDisruptionBudget {
    stored.(kind := PdbKind, apiVersion := PdbApiVersion)
  }

  /**
   * The budget an update sends: the new budget with the stored server-owned metadata,
   * and annotations that are the new ones plus every stored one whose key the new
   * budget lacks.
   */
  predicate UpdatedFrom(sent: PodDisruptionBudget, stored: PodDisruptionBudget, newPdb: PodDisruptionBudget) {
    var n := WithServerFields(newPdb, stored);
    && sent == n.(meta := n.meta.(annotations := sent.meta.annotations))
    && sent.meta.annotations.Keys == newPdb.meta.annotations.Keys + stored.meta.annotations.Keys
    && (forall k :: k in newPdb.meta.annotations ==> sent.meta.annotations[k] == newPdb.meta.annotations[k])
    && (forall k :: k in stored.meta.annotations && k !in newPdb.meta.annotations ==>
          sent.meta.annotations[k] == stored.meta.annotations[k])
  }

  /**
   * `patchPodDisruptionBudget`: compare the stored budget (with its type fields filled
   * in) against the new one (with the stored server-owned metadata). A failed
   * comparison is returned; no difference means no call; otherwise the merged budget is
   * annotated and sent as an update, unless the annotation fails.
   */
  method PatchPodDisruptionBudget(stored: PodDisruptionBudget, newPdb: PodDisruptionBudget, api: PdbApi)
    returns (err: Option<Err>, call: Action<PodDisruptionBudget>)
    ensures var diff := api.calculate(WithTypeMeta(stored), WithServerFields(newPdb, stored));
      && (diff.Fail? ==> err == Some(diff.err) && call == NoCall)
      && (diff == Ok(true) ==> err.None? && call == NoCall)
      && (call.Update? ==> diff == Ok(false) && UpdatedFrom(call.obj, stored, newPdb) && err == api.update)
      && (diff == Ok(false) ==> call.Update? || (call.NoCall? && err.Some?))
      && (diff == Ok(false) ==> exists o :: (UpdatedFrom(o, stored, newPdb) &&
            (if api.annotate(o).Some? then err == api.annotate(o) && call == NoCall
             else err == api.update && call == Update(o))))
      && (call.Update? ==> api.annotate(call.obj).None?)
      && (call.Update? || call.NoCall?)
  {
    var n := WithServerFields(newPdb, stored);
    var s := WithTypeMeta(stored);
    var patchResult := api.calculate(s, n);
    if patchResult.Fail? {
      return Some(patchResult.err), NoCall;
    }
    if !patchResult.value {
      var merged := MergeAnnotations(n.meta.annotations, s.meta.annotations);
      n := n.(meta := n.meta.(annotations := merged));
      assert UpdatedFrom(n, stored, newPdb);
      var annotateErr := api.annotate(n);
      if annotateErr.Some? {
        return annotateErr, NoCall;
      }
      err, call := UpdatePodDisruptionBudget(n, api.update);
      return;
    }
    return None, NoCall;
  }

  /**
   * `CreateOrUpdatePodDisruptionBudget`: a lookup that fails with NotFound creates the
   * budget, any other lookup error is returned, and a found budget is patched. On
   * either failed lookup the annotation comes first and its error wins.
   */
  method CreateOrUpdatePodDisruptionBudget(pdbDef: PodDisruptionBudget, api: PdbApi)
    returns (err: Option<Err>, call: Action<PodDisruptionBudget>)
    ensures api.get.Fail? && api.annotate(pdbDef).Some? ==> err == api.annotate(pdbDef) && call == NoCall
    ensures api.get == Fail(NotFound) && api.annotate(pdbDef).None? ==> err == api.create && call == Create(pdbDef)
    ensures api.get.Fail? && !IsNotFound(api.get.err) && api.annotate(pdbDef).None? ==>
              err == Some(api.get.err) && call == NoCall
    ensures api.get.Ok? ==> !call.Create? && !call.Delete?
    ensures api.get.Ok? && call.Update? ==> UpdatedFrom(call.obj, api.get.value, pdbDef)
    ensures api.get.Ok? ==> var diff := api.calculate(WithTypeMeta(api.get.value), WithServerFields(pdbDef, api.get.value));
      && (diff.Fail? ==> err == Some(diff.err) && call == NoCall)
      && (diff == Ok(true) ==> err.None? && call == NoCall)
      && (diff == Ok(false) ==> exists o :: (UpdatedFrom(o, api.get.value, pdbDef) &&
            (if api.annotate(o).Some? then err == api.annotate(o) && call == NoCall
             else err == api.update && call == Update(o))))
  {
    if api.get.Fail? {
      var annotateErr := api.annotate(pdbDef);
      if annotateErr.Some? {
        return annotateErr, NoCall;
      }
      if IsNotFound(api.get.err) {
        err, call := CreatePodDisruptionBudget(pdbDef, api.create);
        return;
      }
      return Some(api.get.err), NoCall;
    }
    err, call := PatchPodDisruptionBudget(api.get.value, pdbDef, api);
  }
}
