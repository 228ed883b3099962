/** Owner references set before the owner's UID is known
    (internal/ownership/without_uid.go), and the test for a stream's
    reference to its project (internal/ownership/product.go). */
module Ownership {
  import opened Meta
  import opened Unstructured

  /** The reference SetWithoutUid builds: the owner's apiVersion and kind,
      its name, no UID, and Controller / BlockOwnerDeletion set (to true)
      only when asked for. */
  function NewOwnerRef(ownerAPI: GroupVersionKind, ownerName: string, ownerIsController: bool,
                       ownerDeletionBlocked: bool): (ref: OwnerReference)
    ensures ref.name == ownerName && ref.kind == ownerAPI.kind && ref.uid == ""
    ensures ref.controller.Some? <==> ownerIsController
    ensures ref.blockOwnerDeletion.Some? <==> ownerDeletionBlocked
    ensures ref.controller != Some(false) && ref.blockOwnerDeletion != Some(false)
  {
    var (apiVersion, kind) := ToAPIVersionAndKind(ownerAPI);
    OwnerReference(apiVersion, kind, ownerName, "",
      if ownerIsController then Some(true) else None,
      if ownerDeletionBlocked then Some(true) else None)
  }

  /** The apiVersion of the built reference parses back to the owner's group
      and version: the bare version for the empty group, group/version otherwise. */
  lemma NewOwnerRefAPIVersion(ownerAPI: GroupVersionKind, ownerName: string, isController: bool, blocked: bool)
    requires '/' !in ownerAPI.group && '/' !in ownerAPI.version
    ensures var ref := NewOwnerRef(ownerAPI, ownerName, isController, blocked);
      && ParseGroupVersion(ref.apiVersion) == Ok(GroupVersion(ownerAPI.group, ownerAPI.version))
      && (ownerAPI.group == "" ==> ref.apiVersion == ownerAPI.version)
  {
    ParseGroupVersionString(GroupVersion(ownerAPI.group, ownerAPI.version));
  }

  /** referSameGroupKind: both apiVersions parse, to the same group, and the
      kinds are equal; the versions do not matter. */
  predicate ReferSameGroupKind(a: OwnerReference, b: OwnerReference)
  {
    match (ParseGroupVersion(a.apiVersion), ParseGroupVersion(b.apiVersion))
    case (Ok(agv), Ok(bgv)) => agv.group == bgv.group && a.kind == b.kind
    case _ => false
  }

  /** A reference whose apiVersion does not parse matches nothing. */
  lemma UnparseableNeverMatches(a: OwnerReference, b: OwnerReference)
    requires Count(a.apiVersion, '/') > 1 || Count(b.apiVersion, '/') > 1
    ensures !ReferSameGroupKind(a, b) && !ReferSameGroupKind(b, a)
  {
    ParseGroupVersionFails(a.apiVersion);
    ParseGroupVersionFails(b.apiVersion);
  }

  /** Matching ignores the version: two references of one group and kind match
      whatever their versions. */
  lemma ReferSameGroupKindIgnoresVersion(a: OwnerReference, b: OwnerReference, group: string, va: string, vb: string)
    requires '/' !in group && '/' !in va && '/' !in vb
    requires a.apiVersion == GroupVersionString(GroupVersion(group, va))
    requires b.apiVersion == GroupVersionString(GroupVersion(group, vb))
    ensures ReferSameGroupKind(a, b) <==> a.kind == b.kind
  {
    ParseGroupVersionString(GroupVersion(group, va));
    ParseGroupVersionString(GroupVersion(group, vb));
  }

  lemma ReferSameGroupKindSymmetric(a: OwnerReference, b: OwnerReference)
    ensures ReferSameGroupKind(a, b) == ReferSameGroupKind(b, a)
  {
  }

  lemma ReferSameGroupKindTransitive(a: OwnerReference, b: OwnerReference, c: OwnerReference)
    requires ReferSameGroupKind(a, b) && ReferSameGroupKind(b, c)
    ensures ReferSameGroupKind(a, c)
  {
  }

  /** The index of the first reference of the same group and kind as `ref`, or -1. */
  function FirstSameGroupKind(owners: seq<OwnerReference>, ref: OwnerReference): (idx: int)
    ensures -1 <= idx < |owners|
  {
    if owners == [] then -1
    else if ReferSameGroupKind(owners[0], ref) then 0
    else
      var j := FirstSameGroupKind(owners[1..], ref);
      if j == -1 then -1 else j + 1
  }

  /** FirstSameGroupKind is -1 exactly when no reference has the group and
      kind of `ref`, and otherwise the index of the first one that has. */
  lemma {:induction false} FirstSameGroupKindSpec(owners: seq<OwnerReference>, ref: OwnerReference)
    ensures FirstSameGroupKind(owners, ref) == -1 <==> forall i :: 0 <= i < |owners| ==> !ReferSameGroupKind(owners[i], ref)
    ensures 0 <= FirstSameGroupKind(owners, ref) ==> ReferSameGroupKind(owners[FirstSameGroupKind(owners, ref)], ref)
    ensures forall i :: 0 <= i < FirstSameGroupKind(owners, ref) ==> !ReferSameGroupKind(owners[i], ref)
  {
    if owners != [] && !ReferSameGroupKind(owners[0], ref) {
      FirstSameGroupKindSpec(owners[1..], ref);
      assert forall i :: 1 <= i < |owners| ==> owners[i] == owners[1..][i - 1];
    }
  }

  /** indexOwnerRef */
  method IndexOwnerRef(owners: seq<OwnerReference>, ref: OwnerReference) returns (idx: int)
    ensures idx == FirstSameGroupKind(owners, ref)
  {
    FirstSameGroupKindSpec(owners, ref);
    for i := 0 to |owners|
      invariant forall k :: 0 <= k < i ==> !ReferSameGroupKind(owners[k], ref)
    {
      if ReferSameGroupKind(owners[i], ref) {
        return i;
      }
    }
    return -1;
  }

  /** The owner references after upsertOwnerRef: the first reference of the
      same group and kind is replaced, or the new one is appended. */
  function Upserted(owners: seq<OwnerReference>, ref: OwnerReference): seq<OwnerReference>
  {
    var idx := FirstSameGroupKind(owners, ref);
    if idx == -1 then owners + [ref] else owners[idx := ref]
  }

  /** When a reference of the same group and kind exists, the first one is
      replaced in place; the length and every other reference stay. */
  lemma UpsertReplacesFirst(owners: seq<OwnerReference>, ref: OwnerReference, idx: int)
    requires 0 <= idx < |owners| && ReferSameGroupKind(owners[idx], ref)
    requires forall i :: 0 <= i < idx ==> !ReferSameGroupKind(owners[i], ref)
    ensures |Upserted(owners, ref)| == |owners|
    ensures Upserted(owners, ref)[idx] == ref
    ensures forall i :: 0 <= i < |owners| && i != idx ==> Upserted(owners, ref)[i] == owners[i]
  {
    FirstSameGroupKindSpec(owners, ref);
  }

  /** When none has the same group and kind, the new reference is appended
      after the unchanged old ones. */
  lemma UpsertAppends(owners: seq<OwnerReference>, ref: OwnerReference)
    requires forall i :: 0 <= i < |owners| ==> !ReferSameGroupKind(owners[i], ref)
    ensures Upserted(owners, ref) == owners + [ref]
  {
    FirstSameGroupKindSpec(owners, ref);
  }

  /** The new reference is there afterwards, and the length grows by at most one. */
  lemma UpsertContains(owners: seq<OwnerReference>, ref: OwnerReference)
    ensures ref in Upserted(owners, ref)
    ensures |owners| <= |Upserted(owners, ref)| <= |owners| + 1
  {
    FirstSameGroupKindSpec(owners, ref);
    var idx := FirstSameGroupKind(owners, ref);
    if idx != -1 {
      assert Upserted(owners, ref)[idx] == ref;
    }
  }

  /** A reference whose apiVersion does not parse keeps its place and content. */
  lemma UpsertKeepsUnparseable(owners: seq<OwnerReference>, ref: OwnerReference, i: int)
    requires 0 <= i < |owners| && Count(owners[i].apiVersion, '/') > 1
    ensures i < |Upserted(owners, ref)| && Upserted(owners, ref)[i] == owners[i]
  {
    UnparseableNeverMatches(owners[i], ref);
    FirstSameGroupKindSpec(owners, ref);
  }

  /** At most one reference per API group and kind. */
  predicate OnePerGroupKind(owners: seq<OwnerReference>)
  {
    forall i, j :: 0 <= i < j < |owners| ==> !ReferSameGroupKind(owners[i], owners[j])
  }

  /** Upserting keeps at most one reference per API group and kind. */
  lemma UpsertKeepsOnePerGroupKind(owners: seq<OwnerReference>, ref: OwnerReference)
    requires OnePerGroupKind(owners)
    ensures OnePerGroupKind(Upserted(owners, ref))
  {
    FirstSameGroupKindSpec(owners, ref);
    var idx := FirstSameGroupKind(owners, ref);
    var r := Upserted(owners, ref);
    if idx == -1 {
      forall i, j | 0 <= i < j < |r|
        ensures !ReferSameGroupKind(r[i], r[j])
      {
        if j == |owners| {
          assert r[j] == ref;
        }
      }
    } else {
      forall i, j | 0 <= i < j < |r|
        ensures !ReferSameGroupKind(r[i], r[j])
      {
        if i == idx && ReferSameGroupKind(ref, r[j]) {
          ReferSameGroupKindTransitive(owners[idx], ref, owners[j]);
        }
      }
    }
  }

  /** upsertOwnerRef: the object's owner references are read, upserted and
      written back; its document is untouched. */
  method UpsertOwnerRef(ref: OwnerReference, obj: Object)
    modifies obj
    ensures obj.ownerReferences == Upserted(old(obj.ownerReferences), ref)
    ensures obj.doc == old(obj.doc)
  {
    var owners := obj.ownerReferences;
    var idx := IndexOwnerRef(owners, ref);
    if idx == -1 {
      owners := owners + [ref];
    } else {
      owners := owners[idx := ref];
    }
    obj.ownerReferences := owners;
  }

  /** SetWithoutUid */
  method SetWithoutUid(resource: Object, ownerAPI: GroupVersionKind, ownerName: string,
                       ownerIsController: bool, ownerDeletionBlocked: bool)
    modifies resource
    ensures resource.ownerReferences
         == Upserted(old(resource.ownerReferences), NewOwnerRef(ownerAPI, ownerName, ownerIsController, ownerDeletionBlocked))
    ensures resource.doc == old(resource.doc)
  {
    var ref := NewOwnerRef(ownerAPI, ownerName, ownerIsController, ownerDeletionBlocked);
    UpsertOwnerRef(ref, resource);
  }

  /** One owner reference points at the project: exact apiVersion (the
      version counts), kind and name. */
  predicate RefersToProject(ref: OwnerReference, projectAPI: GroupVersionKind, project: string)
  {
    var (apiVersion, kind) := ToAPIVersionAndKind(projectAPI);
    ref.apiVersion == apiVersion && ref.kind == kind && ref.name == project
  }

  /** Some owner reference points at the project. */
  predicate AnyRefersToProject(owners: seq<OwnerReference>, projectAPI: GroupVersionKind, project: string)
  {
    owners != [] && (RefersToProject(owners[0], projectAPI, project) || AnyRefersToProject(owners[1..], projectAPI, project))
  }

  /** HasProductRef, with the project type's GVK, which the Go code looks up
      in the client's scheme, given as a parameter. An empty project name
      counts as a reference. */
  function HasProductRef(project: string, projectAPI: GroupVersionKind, owners: seq<OwnerReference>): (b: bool)
    ensures project == "" ==> b
    ensures project != "" ==> (b <==> exists i :: 0 <= i < |owners| && RefersToProject(owners[i], projectAPI, project))
  {
    AnyRefersToProjectExists(owners, projectAPI, project);
    project == "" || AnyRefersToProject(owners, projectAPI, project)
  }

  lemma {:induction false} AnyRefersToProjectExists(owners: seq<OwnerReference>, projectAPI: GroupVersionKind, project: string)
    ensures AnyRefersToProject(owners, projectAPI, project)
        <==> exists i :: 0 <= i < |owners| && RefersToProject(owners[i], projectAPI, project)
  {
    if owners != [] {
      AnyRefersToProjectExists(owners[1..], projectAPI, project);
      if RefersToProject(owners[0], projectAPI, project) {
        assert 0 < |owners|;
      } else {
        forall i | 0 < i < |owners|
          ensures owners[i] == owners[1..][i - 1]
        {
        }
      }
    }
  }

  /** A stream of a named project with no owner references has no product reference. */
  lemma NoOwnersNoProductRef(project: string, projectAPI: GroupVersionKind)
    requires project != ""
    ensures !HasProductRef(project, projectAPI, [])
  {
  }

  /** The answer depends neither on the order of the references nor on
      references that do not point at the project. */
  lemma HasProductRefIgnoresOrderAndUnrelated(project: string, projectAPI: GroupVersionKind,
                                             owners: seq<OwnerReference>, others: seq<OwnerReference>)
    requires forall r :: r in others && r !in owners ==> !RefersToProject(r, projectAPI, project)
    requires forall r :: r in owners ==> r in others
    ensures HasProductRef(project, projectAPI, owners) == HasProductRef(project, projectAPI, others)
  {
    if project != "" {
      if HasProductRef(project, projectAPI, others) {
        var i :| 0 <= i < |others| && RefersToProject(others[i], projectAPI, project);
        assert others[i] in owners;
      }
    }
  }
}
