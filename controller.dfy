/** The ProjectDevelopmentStream controller
    (internal/controller/projectdevelopmentstream_controller.go): the Ready
    condition it keeps in a stream's status, and one reconciliation of a
    stream. Every call to the cluster (fetching the stream, its template and
    its project, updating the stream, patching a resource) is replaced by
    its outcome, given as a parameter; so are the GroupVersionKinds the
    scheme would supply and the current time. */
module Controller {
  import opened Meta
  import opened Unstructured
  import opened Execute
  import opened Ownership
  import opened Resources

  const ConditionTypeReady: string := "Ready"

  /** ProjectDevelopmentStreamSpecTemplateRef: the template's name and the
      values the stream gives its variables. */
  datatype TemplateRef = TemplateRef(name: string, values: seq<TemplateValue>)

  /** A ProjectDevelopmentStreamTemplate as fetched: its variables and resources. */
  datatype StreamTemplate = StreamTemplate(variables: seq<TemplateVariable>, resources: seq<Resource>)

  /** A failed client Get: the error, and whether it is a not-found error. */
  datatype FetchError = FetchError(err: Error, notFound: bool)

  /** The outcome of fetching a value with a client Get. */
  datatype Fetch<T> = Fetched(value: T) | FetchFailed(failure: FetchError)

  /** The outcome of the server-side apply patch of one resource. */
  datatype PatchOutcome = Applied | Conflict | PatchFailed(err: Error)

  /** ctrl.Result */
  datatype ReconcileResult = ReconcileResult(requeue: bool)

  /** client.IgnoreNotFound */
  function IgnoreNotFound(failure: FetchError): Option<Error>
  {
    if failure.notFound then None else Some(failure.err)
  }

  // ---------------------------------------------------------------------
  // The Ready condition
  // ---------------------------------------------------------------------

  /** The index of the first Ready condition, or -1 when there is none. */
  function FirstReady(conds: seq<Condition>): (i: int)
    ensures -1 <= i < |conds|
    ensures 0 <= i ==> conds[i].conditionType == ConditionTypeReady
    ensures forall k :: 0 <= k < |conds| && (i < 0 || k < i) ==> conds[k].conditionType != ConditionTypeReady
  {
    if conds == [] then -1
    else if conds[0].conditionType == ConditionTypeReady then 0
    else
      var i := FirstReady(conds[1..]);
      assert forall k :: 1 <= k < |conds| ==> conds[k] == conds[1..][k - 1];
      if i < 0 then -1 else i + 1
  }

  /** The conditions after setReadyCondition: the new Ready condition
      overwrites the first Ready condition, keeping its transition time when
      the status is unchanged, or is appended when there is none. */
  function ReadyUpserted(conds: seq<Condition>, generation: int, status: ConditionStatus, reason: string,
                         message: string, now: int): seq<Condition>
  {
    var c := Condition(ConditionTypeReady, status, generation, now, reason, message);
    var i := FirstReady(conds);
    if i < 0 then conds + [c]
    else conds[i := if conds[i].status == status then c.(lastTransitionTime := conds[i].lastTransitionTime) else c]
  }

  /** The stream's Ready condition (the first one) has this status, reason
      and message, and was written for this generation. */
  predicate ReadyIs(conds: seq<Condition>, generation: int, status: ConditionStatus, reason: string, message: string)
  {
    var i := FirstReady(conds);
    0 <= i && conds[i].status == status && conds[i].reason == reason && conds[i].message == message
    && conds[i].observedGeneration == generation
  }

  /** setReadyCondition writes exactly one condition: an existing Ready
      condition is overwritten in place, every other condition and the
      length stay as they were, and the transition time moves to `now` only
      when the status changes; without a Ready condition the new one is
      appended. Either way the Ready condition then reads back as written. */
  lemma ReadyUpsertedSpec(conds: seq<Condition>, generation: int, status: ConditionStatus, reason: string,
                          message: string, now: int)
    ensures var r := ReadyUpserted(conds, generation, status, reason, message, now);
      var i := FirstReady(conds);
      && ReadyIs(r, generation, status, reason, message)
      && (0 <= i ==> |r| == |conds| && FirstReady(r) == i
                     && (forall k :: 0 <= k < |conds| && k != i ==> r[k] == conds[k])
                     && r[i].lastTransitionTime == (if conds[i].status == status then conds[i].lastTransitionTime else now))
      && (i < 0 ==> |r| == |conds| + 1 && r[..|conds|] == conds && FirstReady(r) == |conds|
                    && r[|conds|].lastTransitionTime == now)
  {
    var r := ReadyUpserted(conds, generation, status, reason, message, now);
    var i := FirstReady(conds);
    if 0 <= i {
      assert forall k :: 0 <= k < i ==> r[k] == conds[k];
      assert r[i].conditionType == ConditionTypeReady;
    } else {
      assert forall k :: 0 <= k < |conds| ==> r[k] == conds[k];
      assert r[|conds|].conditionType == ConditionTypeReady;
    }
  }

  // ---------------------------------------------------------------------
  // The stream
  // ---------------------------------------------------------------------

  /** A ProjectDevelopmentStream as fetched: its identity and spec do not
      change during a reconciliation; its status conditions are updated in
      place. setProductOwnerRef also adds the project's reference to the
      stream's owner references in memory; that update is not modelled, so
      the owner references stay as fetched. */
  class Stream {
    const name: string
    const namespace: string
    const uid: string
    const generation: int
    /** Spec.Project */
    const project: string
    /** Spec.Template, nil when absent */
    const template: Option<TemplateRef>
    var ownerReferences: seq<OwnerReference>
    var conditions: seq<Condition>

    constructor (name: string, namespace: string, uid: string, generation: int, project: string,
                 template: Option<TemplateRef>, ownerReferences: seq<OwnerReference>, conditions: seq<Condition>)
      ensures this.name == name && this.namespace == namespace && this.uid == uid
      ensures this.generation == generation && this.project == project && this.template == template
      ensures this.ownerReferences == ownerReferences && this.conditions == conditions
    {
      this.name := name;
      this.namespace := namespace;
      this.uid := uid;
      this.generation := generation;
      this.project := project;
      this.template := template;
      this.ownerReferences := ownerReferences;
      this.conditions := conditions;
    }

    /** setReadyCondition, with the outcome of the status update given; the
        conditions are changed in memory whatever that outcome. */
    method SetReadyCondition(status: ConditionStatus, reason: string, message: string, now: int,
                             updateErr: Option<Error>)
      returns (err: Option<Error>)
      modifies this
      ensures conditions == ReadyUpserted(old(conditions), generation, status, reason, message, now)
      ensures ownerReferences == old(ownerReferences)
      ensures err == updateErr
    {
      var condition := Condition(ConditionTypeReady, status, generation, now, reason, message);
      for i := 0 to |conditions|
        invariant conditions == old(conditions)
        invariant forall k :: 0 <= k < i ==> conditions[k].conditionType != ConditionTypeReady
      {
        if conditions[i].conditionType == ConditionTypeReady {
          if conditions[i].status == status {
            condition := condition.(lastTransitionTime := conditions[i].lastTransitionTime);
          }
          conditions := conditions[i := condition];
          return updateErr;
        }
      }
      conditions := conditions + [condition];
      return updateErr;
    }
  }

  /** checkProductOwnerRef: whether the stream's owner references already
      point at its project, found by a search through them. */
  method CheckProductOwnerRef(project: string, projectAPI: GroupVersionKind, owners: seq<OwnerReference>)
    returns (b: bool)
    ensures b == HasProductRef(project, projectAPI, owners)
  {
    if project == "" {
      return true;
    }
    var (apiVersion, kind) := ToAPIVersionAndKind(projectAPI);
    for i := 0 to |owners|
      invariant forall k :: 0 <= k < i ==> !RefersToProject(owners[k], projectAPI, project)
    {
      if owners[i].apiVersion == apiVersion && owners[i].kind == kind && owners[i].name == project {
        return true;
      }
    }
    return false;
  }

  // ---------------------------------------------------------------------
  // Applying the resources
  // ---------------------------------------------------------------------

  /** The reference controllerutil.SetOwnerReference builds to the stream:
      its apiVersion, kind, name and UID, neither controller nor blocking. */
  function StreamOwnerRef(streamAPI: GroupVersionKind, name: string, uid: string): OwnerReference
  {
    var (apiVersion, kind) := ToAPIVersionAndKind(streamAPI);
    OwnerReference(apiVersion, kind, name, uid, None, None)
  }

  /** A resource with no owner references gets the stream as its owner;
      one that has owner references keeps them. */
  function Owned(r: Resource, streamRef: OwnerReference): Resource
  {
    if |r.ownerReferences| == 0 then Resource(r.doc, [streamRef]) else r
  }

  /** Every resource, with its owner set as Owned says. */
  function AllOwned(rs: seq<Resource>, streamRef: OwnerReference): (os: seq<Resource>)
    ensures |os| == |rs|
  {
    seq(|rs|, j requires 0 <= j < |rs| => Owned(rs[j], streamRef))
  }

  /** The document is kept, there is an owner afterwards, existing owners are
      kept as they are, and owning twice is owning once. */
  lemma OwnedSpec(r: Resource, streamRef: OwnerReference)
    ensures Owned(r, streamRef).doc == r.doc
    ensures |Owned(r, streamRef).ownerReferences| > 0
    ensures |r.ownerReferences| > 0 ==> Owned(r, streamRef) == r
    ensures |r.ownerReferences| == 0 ==> Owned(r, streamRef).ownerReferences == [streamRef]
    ensures Owned(Owned(r, streamRef), streamRef) == Owned(r, streamRef)
  {
  }

  /** The resources patched, in order, and the requeue flag: `requeue ||
      createOrUpdateResource(...)` patches no resource once a patch has
      conflicted, and only a conflict asks for a requeue. */
  function PatchRun(rs: seq<Resource>, patch: Resource -> PatchOutcome): (run: (seq<Resource>, bool))
  {
    if rs == [] then ([], false)
    else
      var (patched, requeue) := PatchRun(rs[..|rs| - 1], patch);
      if requeue then (patched, requeue)
      else (patched + [rs[|rs| - 1]], patch(rs[|rs| - 1]).Conflict?)
  }

  /** The resources are patched in order up to and including the first
      conflicting one, and no further; the reconciliation asks for a requeue
      exactly when a patch conflicted, and otherwise every resource was
      patched. */
  lemma {:induction false} PatchRunSpec(rs: seq<Resource>, patch: Resource -> PatchOutcome)
    ensures var (patched, requeue) := PatchRun(rs, patch);
      && |patched| <= |rs| && patched == rs[..|patched|]
      && (forall j :: 0 <= j < |patched| - 1 ==> !patch(patched[j]).Conflict?)
      && (requeue <==> |patched| > 0 && patch(patched[|patched| - 1]).Conflict?)
      && (requeue <==> exists j :: 0 <= j < |rs| && patch(rs[j]).Conflict?)
      && (!requeue ==> patched == rs)
  {
    if rs != [] {
      var prefix := rs[..|rs| - 1];
      PatchRunSpec(prefix, patch);
      var (p, q) := PatchRun(prefix, patch);
      assert forall j :: 0 <= j < |prefix| ==> prefix[j] == rs[j];
      if q {
        var j :| 0 <= j < |prefix| && patch(prefix[j]).Conflict?;
        assert patch(rs[j]).Conflict?;
      } else {
        assert p == prefix;
        assert p + [rs[|rs| - 1]] == rs;
      }
    }
  }

  /** The owner step of the resource loop: controllerutil.SetOwnerReference
      to the stream, on a resource that has no owner references. */
  method OwnIfUnowned(resource: Object, streamRef: OwnerReference)
    modifies resource
    ensures resource.Snapshot() == Owned(old(resource.Snapshot()), streamRef)
  {
    if |resource.ownerReferences| <= 0 {
      resource.ownerReferences := [streamRef];
    }
  }

  /** The resource loop of Reconcile: a resource without owner references
      gets the stream as owner, and it is patched unless an earlier patch
      conflicted. The resources may alias one another. */
  method ApplyResources(resources: seq<Object>, streamRef: OwnerReference, patch: Resource -> PatchOutcome)
    returns (requeue: bool, patched: seq<Resource>)
    modifies set j | 0 <= j < |resources| :: resources[j]
    ensures forall j :: 0 <= j < |resources| ==>
      resources[j].Snapshot() == Owned(old(resources[j].Snapshot()), streamRef)
    ensures (patched, requeue) == PatchRun(AllOwned(old(Snapshots(resources)), streamRef), patch)
  {
    ghost var owned := AllOwned(old(Snapshots(resources)), streamRef);
    forall j | 0 <= j < |resources|
      ensures owned[j] == Owned(old(resources[j].Snapshot()), streamRef)
      ensures |owned[j].ownerReferences| > 0
    {
      SnapshotsAt(resources, j);
      OwnedSpec(old(resources[j].Snapshot()), streamRef);
    }
    requeue, patched := false, [];
    for i := 0 to |resources|
      invariant forall j :: 0 <= j < i ==> resources[j].Snapshot() == owned[j]
      invariant forall j :: i <= j < |resources| ==> Owned(resources[j].Snapshot(), streamRef) == owned[j]
      invariant (patched, requeue) == PatchRun(owned[..i], patch)
    {
      requeue, patched := ApplyStep(resources, i, streamRef, patch, owned, requeue, patched);
    }
    assert owned[..|resources|] == owned;
  }

  /** One turn of the resource loop, on resources[i]: the resources before
      it are as ApplyResources leaves them, those from it on will be once
      owned, and `owned` holds every resource as it will be. */
  method ApplyStep(resources: seq<Object>, i: nat, streamRef: OwnerReference, patch: Resource -> PatchOutcome,
                   ghost owned: seq<Resource>, requeue: bool, patched: seq<Resource>)
    returns (requeue': bool, patched': seq<Resource>)
    requires i < |resources| == |owned|
    requires forall j :: 0 <= j < |owned| ==> |owned[j].ownerReferences| > 0
    requires forall j :: 0 <= j < i ==> resources[j].Snapshot() == owned[j]
    requires forall j :: i <= j < |resources| ==> Owned(resources[j].Snapshot(), streamRef) == owned[j]
    requires (patched, requeue) == PatchRun(owned[..i], patch)
    modifies resources[i]
    ensures forall j :: 0 <= j <= i ==> resources[j].Snapshot() == owned[j]
    ensures forall j :: i < j < |resources| ==> Owned(resources[j].Snapshot(), streamRef) == owned[j]
    ensures (patched', requeue') == PatchRun(owned[..i + 1], patch)
  {
    var resource := resources[i];
    OwnedSpec(resource.Snapshot(), streamRef);
    OwnIfUnowned(resource, streamRef);
    assert owned[..i + 1][..i] == owned[..i];
    requeue', patched' := requeue, patched;
    if !requeue {
      var outcome := patch(resource.Snapshot());
      patched' := patched + [resource.Snapshot()];
      requeue' := outcome.Conflict?;
    }
  }

  // ---------------------------------------------------------------------
  // Reconcile
  // ---------------------------------------------------------------------

  /** A Ready condition as setReadyCondition is asked to write it. */
  datatype Ready = Ready(status: ConditionStatus, reason: string, message: string)

  /** What one reconciliation of a stream comes to: the result and error
      returned, the resources patched in order, and the Ready condition it
      leaves (None when the stream could not be fetched and nothing is
      written). */
  datatype Verdict = Verdict(result: ReconcileResult, err: Option<Error>, patched: seq<Resource>, ready: Option<Ready>)

  /** The Ready condition written first by every reconciliation of a fetched stream. */
  const Reconciling: Ready := Ready(ConditionUnknown, "Reconciling", "Reconciling ProjectDevelopmentStream")

  /** The outcome of Reconcile, decided from the stream's project, owner
      references and template, and from the outcomes of the calls it makes. */
  function Expected(streamFetch: Option<FetchError>, project: string, projectAPI: GroupVersionKind,
                    owners: seq<OwnerReference>, setOwnerErr: Option<Error>, namespace: string,
                    template: Option<TemplateRef>, templateFetch: Fetch<StreamTemplate>, execute: Executor,
                    streamRef: OwnerReference, patch: Resource -> PatchOutcome): Verdict
  {
    if streamFetch.Some? then
      Verdict(ReconcileResult(false), IgnoreNotFound(streamFetch.value), [], None)
    else if !HasProductRef(project, projectAPI, owners) && setOwnerErr.None? then
      Verdict(ReconcileResult(false), None, [],
              Some(Ready(ConditionUnknown, "UpdatingOwnerRef", "Owner reference updated, re-reconciling")))
    else if template.None? then
      Verdict(ReconcileResult(false), None, [],
              Some(Ready(ConditionTrue, "NoTemplate", "ProjectDevelopmentStream ready (no template specified)")))
    else ExpectedFromTemplate(namespace, template.value, templateFetch, execute, streamRef, patch)
  }

  /** The outcome of Reconcile once the stream has a template. */
  function ExpectedFromTemplate(namespace: string, ref: TemplateRef, templateFetch: Fetch<StreamTemplate>,
                                execute: Executor, streamRef: OwnerReference, patch: Resource -> PatchOutcome): Verdict
  {
    if templateFetch.FetchFailed? then
      Verdict(ReconcileResult(false), IgnoreNotFound(templateFetch.failure), [],
              Some(Ready(ConditionFalse, "TemplateFetchFailed", "Failed to fetch template")))
    else
      var pdst := templateFetch.value;
      match MkResourcesSpec(SupportedResourceTypes, execute, namespace, pdst.variables, ref.values, pdst.resources)
      case Err(_) =>
        Verdict(ReconcileResult(false), None, [],
                Some(Ready(ConditionFalse, "TemplateGenerationFailed", "Failed to generate resources from template")))
      case Ok(made) =>
        var (patched, requeue) := PatchRun(AllOwned(made, streamRef), patch);
        Verdict(ReconcileResult(requeue), None, patched,
                Some(if requeue then Ready(ConditionUnknown, "ApplyingResources", "Resource conflicts detected, retrying")
                     else Ready(ConditionTrue, "ResourcesApplied", "All resources applied successfully")))
  }

  /** Reconcile, from the point the stream was fetched. `pds` is the fetched
      stream (or, when `streamFetch` failed, an object that is not read);
      `projectAPI` and `streamAPI` are the GroupVersionKinds of the Project
      and ProjectDevelopmentStream types; `setOwnerErr` is the outcome of
      setProductOwnerRef; `templateFetch` the outcome of fetching the
      template; `patch` the outcome of patching each resource; `now` the
      time. The outcomes of the status updates are ignored by Reconcile.
      The stream's conditions end up with the "Reconciling" condition
      written, then overwritten by the final one. */
  method Reconcile(streamFetch: Option<FetchError>, pds: Stream, projectAPI: GroupVersionKind,
                   streamAPI: GroupVersionKind, setOwnerErr: Option<Error>, templateFetch: Fetch<StreamTemplate>,
                   execute: Executor, patch: Resource -> PatchOutcome, now: int)
    returns (result: ReconcileResult, err: Option<Error>, patched: seq<Resource>)
    modifies pds
    ensures var v := Expected(streamFetch, pds.project, projectAPI, old(pds.ownerReferences), setOwnerErr, pds.namespace,
                              pds.template, templateFetch, execute, StreamOwnerRef(streamAPI, pds.name, pds.uid), patch);
      && result == v.result && err == v.err && patched == v.patched
      && (v.ready.None? ==> pds.conditions == old(pds.conditions))
      && (v.ready.Some? ==>
            pds.conditions == ReadyUpserted(ReadyUpserted(old(pds.conditions), pds.generation, Reconciling.status,
                                                          Reconciling.reason, Reconciling.message, now),
                                            pds.generation, v.ready.value.status, v.ready.value.reason,
                                            v.ready.value.message, now))
    ensures pds.ownerReferences == old(pds.ownerReferences)
  {
    if streamFetch.Some? {
      return ReconcileResult(false), IgnoreNotFound(streamFetch.value), [];
    }
    var _ := pds.SetReadyCondition(Reconciling.status, Reconciling.reason, Reconciling.message, now, None);
    var hasRef := CheckProductOwnerRef(pds.project, projectAPI, pds.ownerReferences);
    if !hasRef {
      if setOwnerErr.None? {
        var _ := pds.SetReadyCondition(ConditionUnknown, "UpdatingOwnerRef", "Owner reference updated, re-reconciling", now, None);
        return ReconcileResult(false), None, [];
      }
    }
    if pds.template.None? {
      var _ := pds.SetReadyCondition(ConditionTrue, "NoTemplate", "ProjectDevelopmentStream ready (no template specified)", now, None);
      return ReconcileResult(false), None, [];
    }
    result, err, patched := ReconcileTemplate(pds, templateFetch, execute, StreamOwnerRef(streamAPI, pds.name, pds.uid),
                                              patch, now);
  }

  /** The part of Reconcile that fetches the stream's template, makes its
      resources and applies them. */
  method ReconcileTemplate(pds: Stream, templateFetch: Fetch<StreamTemplate>, execute: Executor,
                           streamRef: OwnerReference, patch: Resource -> PatchOutcome, now: int)
    returns (result: ReconcileResult, err: Option<Error>, patched: seq<Resource>)
    requires pds.template.Some?
    modifies pds
    ensures var v := ExpectedFromTemplate(pds.namespace, pds.template.value, templateFetch, execute, streamRef, patch);
      && result == v.result && err == v.err && patched == v.patched && v.ready.Some?
      && pds.conditions == ReadyUpserted(old(pds.conditions), pds.generation, v.ready.value.status, v.ready.value.reason,
                                         v.ready.value.message, now)
    ensures pds.ownerReferences == old(pds.ownerReferences)
  {
    var ref := pds.template.value;
    if templateFetch.FetchFailed? {
      var _ := pds.SetReadyCondition(ConditionFalse, "TemplateFetchFailed", "Failed to fetch template", now, None);
      return ReconcileResult(false), IgnoreNotFound(templateFetch.failure), [];
    }
    var pdst := templateFetch.value;
    var resources, mkErr := MkResources(execute, pds.namespace, pdst.variables, ref.values, pdst.resources);
    if mkErr.Some? {
      var _ := pds.SetReadyCondition(ConditionFalse, "TemplateGenerationFailed", "Failed to generate resources from template", now, None);
      return ReconcileResult(false), None, [];
    }
    forall j | 0 <= j < |resources|
      ensures fresh(resources[j])
    {
      assert resources[j] in resources;
    }
    var requeue;
    requeue, patched := ApplyResources(resources, streamRef, patch);
    if requeue {
      var _ := pds.SetReadyCondition(ConditionUnknown, "ApplyingResources", "Resource conflicts detected, retrying", now, None);
    } else {
      var _ := pds.SetReadyCondition(ConditionTrue, "ResourcesApplied", "All resources applied successfully", now, None);
    }
    return ReconcileResult(requeue), None, patched;
  }

  /** A reconciliation asks for a requeue only when the template was
      fetched, its resources were made, and patching one of them
      conflicted; it then returns no error, and the Ready condition says
      resources are being applied. */
  lemma ExpectedRequeue(streamFetch: Option<FetchError>, project: string, projectAPI: GroupVersionKind,
                        owners: seq<OwnerReference>, setOwnerErr: Option<Error>, namespace: string,
                        template: Option<TemplateRef>, templateFetch: Fetch<StreamTemplate>, execute: Executor,
                        streamRef: OwnerReference, patch: Resource -> PatchOutcome)
    ensures var v := Expected(streamFetch, project, projectAPI, owners, setOwnerErr, namespace, template,
                              templateFetch, execute, streamRef, patch);
      v.result.requeue <==>
        && streamFetch.None? && template.Some? && templateFetch.Fetched?
        && (HasProductRef(project, projectAPI, owners) || setOwnerErr.Some?)
        && var m := MkResourcesSpec(SupportedResourceTypes, execute, namespace, templateFetch.value.variables,
                                    template.value.values, templateFetch.value.resources);
           m.Ok? && exists j :: 0 <= j < |m.value| && patch(Owned(m.value[j], streamRef)).Conflict?
  {
    if streamFetch.None? && template.Some? && templateFetch.Fetched?
       && (HasProductRef(project, projectAPI, owners) || setOwnerErr.Some?) {
      var pdst := templateFetch.value;
      var m := MkResourcesSpec(SupportedResourceTypes, execute, namespace, pdst.variables, template.value.values, pdst.resources);
      if m.Ok? {
        AppliedVerdictRequeue(m.value, streamRef, patch);
      }
    }
  }

  /** Applying the resources made asks for a requeue exactly when patching
      one of them, owned, conflicts. */
  lemma AppliedVerdictRequeue(made: seq<Resource>, streamRef: OwnerReference, patch: Resource -> PatchOutcome)
    ensures PatchRun(AllOwned(made, streamRef), patch).1 <==>
      exists j :: 0 <= j < |made| && patch(Owned(made[j], streamRef)).Conflict?
  {
    var owned := AllOwned(made, streamRef);
    PatchRunSpec(owned, patch);
    if PatchRun(owned, patch).1 {
      var j :| 0 <= j < |owned| && patch(owned[j]).Conflict?;
      assert patch(Owned(made[j], streamRef)).Conflict?;
    } else {
      forall j | 0 <= j < |made|
        ensures !patch(Owned(made[j], streamRef)).Conflict?
      {
        assert owned[j] == Owned(made[j], streamRef);
      }
    }
  }

  /** A reconciliation never returns a not-found error, never returns an
      error together with a requeue, and returns an error only when fetching
      the stream or its template failed. */
  lemma ExpectedErrors(streamFetch: Option<FetchError>, project: string, projectAPI: GroupVersionKind,
                       owners: seq<OwnerReference>, setOwnerErr: Option<Error>, namespace: string,
                       template: Option<TemplateRef>, templateFetch: Fetch<StreamTemplate>, execute: Executor,
                       streamRef: OwnerReference, patch: Resource -> PatchOutcome)
    ensures var v := Expected(streamFetch, project, projectAPI, owners, setOwnerErr, namespace, template,
                              templateFetch, execute, streamRef, patch);
      && (v.err.Some? ==> !v.result.requeue && v.patched == [])
      && (v.err.Some? ==> (streamFetch.Some? && v.err == Some(streamFetch.value.err) && !streamFetch.value.notFound)
                          || (templateFetch.FetchFailed? && v.err == Some(templateFetch.failure.err)
                              && !templateFetch.failure.notFound))
      && (v.ready.None? <==> streamFetch.Some?)
  {
  }

  /** When nothing conflicts, every resource made from the template is
      patched, in template-table order, with the stream as owner of those
      that had no owner, and the stream is reported ready. */
  lemma ExpectedAllApplied(project: string, projectAPI: GroupVersionKind, owners: seq<OwnerReference>,
                           setOwnerErr: Option<Error>, namespace: string, ref: TemplateRef, pdst: StreamTemplate,
                           execute: Executor, streamRef: OwnerReference, patch: Resource -> PatchOutcome,
                           made: seq<Resource>)
    requires HasProductRef(project, projectAPI, owners) || setOwnerErr.Some?
    requires MkResourcesSpec(SupportedResourceTypes, execute, namespace, pdst.variables, ref.values, pdst.resources) == Ok(made)
    requires forall j :: 0 <= j < |made| ==> !patch(Owned(made[j], streamRef)).Conflict?
    ensures var v := Expected(None, project, projectAPI, owners, setOwnerErr, namespace, Some(ref),
                              Fetched(pdst), execute, streamRef, patch);
      && v.result == ReconcileResult(false) && v.err.None?
      && v.patched == AllOwned(made, streamRef)
      && v.ready == Some(Ready(ConditionTrue, "ResourcesApplied", "All resources applied successfully"))
  {
    var owned := AllOwned(made, streamRef);
    PatchRunSpec(owned, patch);
  }
}
