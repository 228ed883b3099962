/** What MkResources (internal/template/resources.go) guarantees about the
    resources it makes. The entries of supportedResourceTypes support
    disjoint sets of GroupVersionKinds, so on success there is exactly one
    resource per template resource. Each resource is in the stream's
    namespace, keeps the group, version and kind of its template resource,
    holds only valid names in its entry's name fields, and carries the owner
    reference its entry asks for. A template resource that no entry
    supports makes MkResources fail. */
module Guarantees {
  import opened Meta
  import opened Unstructured
  import opened Execute
  import opened Ownership
  import opened Resources

  // ---------------------------------------------------------------------
  // The table
  // ---------------------------------------------------------------------

  /** No two entries of the table support the same GroupVersionKind. */
  ghost predicate Disjoint(table: seq<ResourceType>)
  {
    forall s, t, g :: 0 <= s < t < |table| && g in table[s].supportedAPIs ==> g !in table[t].supportedAPIs
  }

  lemma SupportedResourceTypesDisjoint()
    ensures Disjoint(SupportedResourceTypes)
  {
  }

  const APIVersionPath: seq<string> := ["apiVersion"]
  const KindPath: seq<string> := ["kind"]

  /** A template-able path that can touch neither the namespace nor the
      apiVersion and kind of a resource. */
  predicate Apart(p: seq<string>)
  {
    Diverge(p, NamespacePath) && Diverge(p, APIVersionPath) && Diverge(p, KindPath)
  }

  /** The shape every entry of supportedResourceTypes has: metadata.name is
      its first name field, no template-able path touches the namespace,
      apiVersion or kind, and its plain fields are apart from its name
      fields. */
  ghost predicate KeepsIdentity(rt: ResourceType)
  {
    && |rt.templateAbleNameFields| > 0 && rt.templateAbleNameFields[0] == NamePath
    && (forall i :: 0 <= i < |rt.templateAbleNameFields| ==> Apart(rt.templateAbleNameFields[i]))
    && (forall i :: 0 <= i < |rt.templateAbleFields| ==> Apart(rt.templateAbleFields[i]))
    && (forall i, j :: 0 <= i < |rt.templateAbleFields| && 0 <= j < |rt.templateAbleNameFields| ==>
          Diverge(rt.templateAbleFields[i], rt.templateAbleNameFields[j]))
  }

  lemma SupportedResourceTypesKeepIdentity()
    ensures forall t :: 0 <= t < |SupportedResourceTypes| ==> KeepsIdentity(SupportedResourceTypes[t])
  {
    ApplicationTypeKeepsIdentity();
    ComponentTypeKeepsIdentity();
    ImageRepositoryTypeKeepsIdentity();
    assert KeepsIdentity(IntegrationTestScenarioType);
    assert KeepsIdentity(ReleasePlanType);
  }

  lemma ApplicationTypeKeepsIdentity()
    ensures KeepsIdentity(ApplicationType)
  {
  }

  lemma ComponentTypeKeepsIdentity()
    ensures KeepsIdentity(ComponentType)
  {
    var rt := ComponentType;
    forall i | 0 <= i < |rt.templateAbleFields|
      ensures Apart(rt.templateAbleFields[i])
      ensures forall j :: 0 <= j < |rt.templateAbleNameFields| ==> Diverge(rt.templateAbleFields[i], rt.templateAbleNameFields[j])
    {
      assert rt.templateAbleFields[i][..3] == ["spec", "source", "git"];
    }
  }

  lemma ImageRepositoryTypeKeepsIdentity()
    ensures KeepsIdentity(ImageRepositoryType)
  {
  }

  // ---------------------------------------------------------------------
  // One resource
  // ---------------------------------------------------------------------

  /** Two documents that agree on apiVersion and kind have the same GroupVersionKind. */
  lemma SameGroupVersionKind(d1: map<string, Value>, d2: map<string, Value>)
    requires NestedField(d1, APIVersionPath) == NestedField(d2, APIVersionPath)
    requires NestedField(d1, KindPath) == NestedField(d2, KindPath)
    ensures GroupVersionKindOf(d1) == GroupVersionKindOf(d2)
  {
    assert NestedString(d1, APIVersionPath) == NestedString(d2, APIVersionPath);
    assert NestedString(d1, KindPath) == NestedString(d2, KindPath);
  }

  /** Rendering fields apart from the namespace, apiVersion and kind keeps
      the namespace and the GroupVersionKind. */
  lemma TemplatesAppliedKeepIdentity(doc: map<string, Value>, paths: seq<seq<string>>, execute: Executor,
                                     values: map<string, string>)
    requires forall i :: 0 <= i < |paths| ==> Apart(paths[i])
    ensures GetNamespace(TemplatesApplied(doc, paths, execute, values).doc) == GetNamespace(doc)
    ensures GroupVersionKindOf(TemplatesApplied(doc, paths, execute, values).doc) == GroupVersionKindOf(doc)
  {
    var d := TemplatesApplied(doc, paths, execute, values).doc;
    TemplatesAppliedFrame(doc, paths, execute, values, NamespacePath);
    TemplatesAppliedFrame(doc, paths, execute, values, APIVersionPath);
    TemplatesAppliedFrame(doc, paths, execute, values, KindPath);
    assert NestedString(d, NamespacePath) == NestedString(doc, NamespacePath);
    SameGroupVersionKind(d, doc);
  }

  /** Rendering fields apart from every name field keeps the name fields valid. */
  lemma TemplatesAppliedKeepNames(doc: map<string, Value>, paths: seq<seq<string>>, execute: Executor,
                                  values: map<string, string>, nameFields: seq<seq<string>>)
    requires forall i, j :: 0 <= i < |paths| && 0 <= j < |nameFields| ==> Diverge(paths[i], nameFields[j])
    requires NameFieldsValid(doc, nameFields)
    ensures NameFieldsValid(TemplatesApplied(doc, paths, execute, values).doc, nameFields)
  {
    var d := TemplatesApplied(doc, paths, execute, values).doc;
    forall j | 0 <= j < |nameFields|
      ensures NestedString(d, nameFields[j]) == NestedString(doc, nameFields[j])
    {
      TemplatesAppliedFrame(doc, paths, execute, values, nameFields[j]);
    }
  }

  /** A template resource made into a resource of the stream by an entry of
      the shape of supportedResourceTypes: the resource is in the stream's
      namespace, has the GroupVersionKind of its template resource, and its
      name fields hold valid names. */
  lemma InstantiateKeepsIdentity(execute: Executor, rt: ResourceType, src: Resource, ns: string,
                                 values: map<string, string>)
    requires KeepsIdentity(rt)
    requires Instantiate(execute, rt, src, ns, values).Ok?
    ensures GetNamespace(Instantiate(execute, rt, src, ns, values).value.doc) == ns
    ensures GroupVersionKindOf(Instantiate(execute, rt, src, ns, values).value.doc) == GroupVersionKindOf(src.doc)
    ensures NameFieldsValid(Instantiate(execute, rt, src, ns, values).value.doc, rt.templateAbleNameFields)
  {
    var d0 := WithNamespace(src.doc, ns);
    var o1 := TemplatesApplied(d0, rt.templateAbleNameFields, execute, values);
    var o2 := TemplatesApplied(o1.doc, rt.templateAbleFields, execute, values);
    assert o1.err.None? && NameFieldsError(o1.doc, rt.templateAbleNameFields).None? && o2.err.None?;
    assert Instantiate(execute, rt, src, ns, values).value.doc == o2.doc;
    if NestedString(d0, NamePath).ReadFailed? {
      TemplatesAppliedFirstReadFails(d0, rt.templateAbleNameFields, execute, values);
    }
    NameReadableMetadataShape(src.doc, ns);
    WithNamespaceReadBack(src.doc, ns);
    WithNamespaceFrame(src.doc, ns, APIVersionPath);
    WithNamespaceFrame(src.doc, ns, KindPath);
    SameGroupVersionKind(d0, src.doc);
    TemplatesAppliedKeepIdentity(d0, rt.templateAbleNameFields, execute, values);
    TemplatesAppliedKeepIdentity(o1.doc, rt.templateAbleFields, execute, values);
    NameFieldsErrorSpec(o1.doc, rt.templateAbleNameFields);
    TemplatesAppliedKeepNames(o1.doc, rt.templateAbleFields, execute, values, rt.templateAbleNameFields);
  }

  /** The owner step of MkResources: an entry with an owner field that holds
      a string adds (or replaces) a reference to the owner of that name,
      keeping one reference per group and kind; otherwise the owner
      references of the template resource are kept as they are. */
  lemma InstantiateSetsOwner(execute: Executor, rt: ResourceType, src: Resource, ns: string,
                             values: map<string, string>)
    requires Instantiate(execute, rt, src, ns, values).Ok?
    ensures var out := Instantiate(execute, rt, src, ns, values).value;
      if rt.ownerNameField.Some? && NestedString(out.doc, rt.ownerNameField.value).Present? then
        NewOwnerRef(rt.ownerAPI, NestedString(out.doc, rt.ownerNameField.value).value,
                    rt.ownerIsController, rt.ownerDeletionBlocked) in out.ownerReferences
      else out.ownerReferences == src.ownerReferences
    ensures OnePerGroupKind(src.ownerReferences) ==>
      OnePerGroupKind(Instantiate(execute, rt, src, ns, values).value.ownerReferences)
  {
    var out := Instantiate(execute, rt, src, ns, values).value;
    assert out.ownerReferences == OwnersAfter(rt, out.doc, src.ownerReferences);
    if rt.ownerNameField.Some? && NestedString(out.doc, rt.ownerNameField.value).Present? {
      var ref := NewOwnerRef(rt.ownerAPI, NestedString(out.doc, rt.ownerNameField.value).value,
                             rt.ownerIsController, rt.ownerDeletionBlocked);
      UpsertContains(src.ownerReferences, ref);
      if OnePerGroupKind(src.ownerReferences) {
        UpsertKeepsOnePerGroupKind(src.ownerReferences, ref);
      }
    }
  }

  // ---------------------------------------------------------------------
  // How many resources
  // ---------------------------------------------------------------------

  /** The number of entries of the table that handle the resource. */
  function HandlerCount(table: seq<ResourceType>, r: Resource): (n: nat)
    ensures n <= |table|
  {
    if table == [] then 0
    else HandlerCount(table[..|table| - 1], r) + (if Handles(table[|table| - 1], r) then 1 else 0)
  }

  /** In a disjoint table a resource has one handler when it is supported and none otherwise. */
  lemma {:induction false} HandlerCountSpec(table: seq<ResourceType>, r: Resource)
    requires Disjoint(table)
    ensures HandlerCount(table, r) == if Supported(table, r) then 1 else 0
  {
    if table != [] {
      var t := |table| - 1;
      var prefix := table[..t];
      assert forall s :: 0 <= s < t ==> prefix[s] == table[s];
      HandlerCountSpec(prefix, r);
      SupportedStep(table, t, r);
      assert table[..t + 1] == table;
      if Handles(table[t], r) {
        forall s | 0 <= s < t
          ensures !Handles(prefix[s], r)
        {
          assert GroupVersionKindOf(r.doc) in table[t].supportedAPIs;
        }
      }
    }
  }

  /** How many resources the entries of the table make from the inputs. */
  function MatchTotal(table: seq<ResourceType>, inputs: seq<Resource>): nat
  {
    if table == [] then 0
    else MatchTotal(table[..|table| - 1], inputs) + |Matching(table[|table| - 1], inputs)|
  }

  /** The table makes as many resources as its entries handle template resources. */
  lemma {:induction false} ForTableLength(execute: Executor, table: seq<ResourceType>, inputs: seq<Resource>,
                                          ns: string, values: map<string, string>)
    requires ForTable(execute, table, inputs, ns, values).Ok?
    ensures |ForTable(execute, table, inputs, ns, values).value| == MatchTotal(table, inputs)
  {
    if table != [] {
      ForTableLength(execute, table[..|table| - 1], inputs, ns, values);
      ForEntryOk(execute, table[|table| - 1], inputs, ns, values);
    }
  }

  lemma {:induction false} MatchTotalNone(table: seq<ResourceType>)
    ensures MatchTotal(table, []) == 0
  {
    if table != [] {
      MatchTotalNone(table[..|table| - 1]);
    }
  }

  /** The last template resource adds one match per entry that handles it. */
  lemma {:induction false} MatchTotalLast(table: seq<ResourceType>, inputs: seq<Resource>)
    requires |inputs| > 0
    ensures MatchTotal(table, inputs)
         == MatchTotal(table, inputs[..|inputs| - 1]) + HandlerCount(table, inputs[|inputs| - 1])
  {
    if table != [] {
      MatchTotalLast(table[..|table| - 1], inputs);
    }
  }

  /** When every template resource has exactly one handler, there is one match per template resource. */
  lemma {:induction false} MatchTotalOnce(table: seq<ResourceType>, inputs: seq<Resource>)
    requires forall k :: 0 <= k < |inputs| ==> HandlerCount(table, inputs[k]) == 1
    ensures MatchTotal(table, inputs) == |inputs|
  {
    if inputs == [] {
      MatchTotalNone(table);
    } else {
      var prefix := inputs[..|inputs| - 1];
      assert forall k :: 0 <= k < |prefix| ==> prefix[k] == inputs[k];
      MatchTotalOnce(table, prefix);
      MatchTotalLast(table, inputs);
    }
  }

  // ---------------------------------------------------------------------
  // MkResources
  // ---------------------------------------------------------------------

  /** A template resource whose GroupVersionKind no entry of the table
      supports makes MkResources fail, however the others fare. */
  lemma MkResourcesRejectsUnsupported(table: seq<ResourceType>, execute: Executor, ns: string,
                                      vars: seq<TemplateVariable>, vals: seq<TemplateValue>,
                                      inputs: seq<Resource>, k: int)
    requires 0 <= k < |inputs| && !Supported(table, inputs[k])
    ensures MkResourcesSpec(table, execute, ns, vars, vals, inputs).Err?
  {
    FirstUnhandledSpec(table, inputs);
  }

  /** With a disjoint table, success means one resource per template resource. */
  lemma MkResourcesOnePerTemplate(table: seq<ResourceType>, execute: Executor, ns: string,
                                  vars: seq<TemplateVariable>, vals: seq<TemplateValue>, inputs: seq<Resource>)
    requires Disjoint(table)
    requires MkResourcesSpec(table, execute, ns, vars, vals, inputs).Ok?
    ensures |MkResourcesSpec(table, execute, ns, vars, vals, inputs).value| == |inputs|
  {
    var values := Resolve(execute, GivenValues(vals), vars).values;
    assert ForTable(execute, table, inputs, ns, values).Ok? && FirstUnhandled(table, inputs) == -1;
    FirstUnhandledSpec(table, inputs);
    forall k | 0 <= k < |inputs|
      ensures HandlerCount(table, inputs[k]) == 1
    {
      HandlerCountSpec(table, inputs[k]);
    }
    MatchTotalOnce(table, inputs);
    ForTableLength(execute, table, inputs, ns, values);
  }

  /** Every resource a table of the shape of supportedResourceTypes makes is
      in the stream's namespace, has the GroupVersionKind of one of the
      template resources and is handled by an entry whose name fields it
      holds valid names in. */
  lemma MkResourcesWellFormed(table: seq<ResourceType>, execute: Executor, ns: string,
                              vars: seq<TemplateVariable>, vals: seq<TemplateValue>, inputs: seq<Resource>)
    requires forall t :: 0 <= t < |table| ==> KeepsIdentity(table[t])
    requires MkResourcesSpec(table, execute, ns, vars, vals, inputs).Ok?
    ensures var out := MkResourcesSpec(table, execute, ns, vars, vals, inputs).value;
      forall j :: 0 <= j < |out| ==>
        && GetNamespace(out[j].doc) == ns
        && (exists k :: 0 <= k < |inputs| && GroupVersionKindOf(out[j].doc) == GroupVersionKindOf(inputs[k].doc))
        && (exists t :: 0 <= t < |table| && Handles(table[t], out[j]) &&
                        NameFieldsValid(out[j].doc, table[t].templateAbleNameFields))
  {
    var values := Resolve(execute, GivenValues(vals), vars).values;
    var out := ForTable(execute, table, inputs, ns, values).value;
    assert MkResourcesSpec(table, execute, ns, vars, vals, inputs).value == out;
    ForTableHandled(execute, table, inputs, ns, values);
    forall j | 0 <= j < |out|
      ensures GetNamespace(out[j].doc) == ns
      ensures exists k :: 0 <= k < |inputs| && GroupVersionKindOf(out[j].doc) == GroupVersionKindOf(inputs[k].doc)
      ensures exists t :: 0 <= t < |table| && Handles(table[t], out[j]) &&
                          NameFieldsValid(out[j].doc, table[t].templateAbleNameFields)
    {
      var t :| 0 <= t < |table| && HandledBy(execute, table[t], inputs, ns, values, out[j]);
      var k :| 0 <= k < |inputs| && Handles(table[t], inputs[k]) &&
               Instantiate(execute, table[t], inputs[k], ns, values) == Ok(out[j]);
      InstantiateKeepsIdentity(execute, table[t], inputs[k], ns, values);
    }
  }

  /** For supportedResourceTypes itself: on success one resource per
      template resource, each in the stream's namespace, with the
      GroupVersionKind of a template resource, supported by the table and
      holding valid names in its entry's name fields. */
  lemma MkResourcesGuarantees(execute: Executor, ns: string, vars: seq<TemplateVariable>,
                              vals: seq<TemplateValue>, inputs: seq<Resource>)
    requires MkResourcesSpec(SupportedResourceTypes, execute, ns, vars, vals, inputs).Ok?
    ensures var out := MkResourcesSpec(SupportedResourceTypes, execute, ns, vars, vals, inputs).value;
      && |out| == |inputs|
      && forall j :: 0 <= j < |out| ==>
        && GetNamespace(out[j].doc) == ns
        && (exists k :: 0 <= k < |inputs| && GroupVersionKindOf(out[j].doc) == GroupVersionKindOf(inputs[k].doc))
        && (exists t :: 0 <= t < |SupportedResourceTypes| && Handles(SupportedResourceTypes[t], out[j]) &&
                        NameFieldsValid(out[j].doc, SupportedResourceTypes[t].templateAbleNameFields))
  {
    SupportedResourceTypesDisjoint();
    SupportedResourceTypesKeepIdentity();
    MkResourcesOnePerTemplate(SupportedResourceTypes, execute, ns, vars, vals, inputs);
    MkResourcesWellFormed(SupportedResourceTypes, execute, ns, vars, vals, inputs);
  }
}
