/** The parts of the unstructured package of k8s.io/apimachinery that the
    template engine relies on: documents as nested maps and lists, the typed
    accessors that read, write and remove a field by its key path, and the
    Unstructured object itself. */
module Unstructured {
  import opened Meta

  /** A JSON-like document node. `Other` stands for numbers and booleans. */
  datatype Value = Str(s: string) | Map(m: map<string, Value>) | List(items: seq<Value>) | Null | Other

  datatype Lookup = Found(v: Value) | NotFound | LookupFailed(err: Error)

  /** The loop of NestedFieldNoCopy, from key `i` of `path` on: a null or a
      missing key ends the search as not found, a non-map on the way is an
      error naming the keys up to that point. */
  function FieldAt(v: Value, path: seq<string>, i: nat): Lookup
    requires i <= |path|
    decreases |path| - i
  {
    if i == |path| then Found(v)
    else match v
      case Null => NotFound
      case Map(m) => if path[i] in m then FieldAt(m[path[i]], path, i + 1) else NotFound
      case _ => LookupFailed(AccessorError(path[..i + 1]))
  }

  /** NestedFieldNoCopy */
  function NestedField(obj: map<string, Value>, path: seq<string>): Lookup
  {
    FieldAt(Map(obj), path, 0)
  }

  /** The (value, found, error) triple of the typed accessors. */
  datatype Read<+T> = Present(value: T) | Absent | ReadFailed(err: Error)

  /** NestedString: a string, absent, or an error (also for a leaf of another type). */
  function NestedString(obj: map<string, Value>, path: seq<string>): Read<string>
  {
    match NestedField(obj, path)
    case Found(Str(s)) => Present(s)
    case Found(_) => ReadFailed(AccessorError(path))
    case NotFound => Absent
    case LookupFailed(e) => ReadFailed(e)
  }

  predicate AllStrings(items: seq<Value>)
  {
    forall i :: 0 <= i < |items| ==> items[i].Str?
  }

  function StringsOf(items: seq<Value>): (ss: seq<string>)
    requires AllStrings(items)
    ensures |ss| == |items|
  {
    seq(|items|, i requires 0 <= i < |items| => items[i].s)
  }

  function StringValues(ss: seq<string>): (items: seq<Value>)
    ensures |items| == |ss| && AllStrings(items) && StringsOf(items) == ss
  {
    seq(|ss|, i requires 0 <= i < |ss| => Str(ss[i]))
  }

  /** NestedStringSlice: a list whose elements are all strings, absent, or an error. */
  function NestedStringSlice(obj: map<string, Value>, path: seq<string>): Read<seq<string>>
  {
    match NestedField(obj, path)
    case Found(List(items)) => if AllStrings(items) then Present(StringsOf(items)) else ReadFailed(AccessorError(path))
    case Found(_) => ReadFailed(AccessorError(path))
    case NotFound => Absent
    case LookupFailed(e) => ReadFailed(e)
  }

  /** The loop of setNestedFieldNoCopy from key `i` on: an existing non-null
      map is entered, a missing key or a null is replaced by a new map, any
      other value is an error; the last key receives the value. */
  function SetAt(m: map<string, Value>, value: Value, path: seq<string>, i: nat): Result<map<string, Value>>
    requires i < |path|
    decreases |path| - i
  {
    if i == |path| - 1 then Ok(m[path[i] := value])
    else
      var child := if path[i] in m && m[path[i]] != Null then m[path[i]] else Map(map[]);
      match child
      case Map(cm) =>
        (match SetAt(cm, value, path, i + 1)
         case Ok(cm') => Ok(m[path[i] := Map(cm')])
         case Err(e) => Err(e))
      case _ => Err(SetFieldError(path[..i + 1]))
  }

  /** SetNestedField (the Go function indexes the last key, so the path is never empty). */
  function SetNestedField(obj: map<string, Value>, value: Value, path: seq<string>): Result<map<string, Value>>
    requires |path| > 0
  {
    SetAt(obj, value, path, 0)
  }

  /** SetNestedStringSlice */
  function SetNestedStringSlice(obj: map<string, Value>, ss: seq<string>, path: seq<string>): Result<map<string, Value>>
    requires |path| > 0
  {
    SetNestedField(obj, List(StringValues(ss)), path)
  }

  /** The loop of RemoveNestedField from key `i` on: stops silently at the
      first value that is not a map, deletes the last key otherwise. */
  function RemoveAt(m: map<string, Value>, path: seq<string>, i: nat): map<string, Value>
    requires i < |path|
    decreases |path| - i
  {
    if i == |path| - 1 then m - {path[i]}
    else if path[i] in m && m[path[i]].Map? then m[path[i] := Map(RemoveAt(m[path[i]].m, path, i + 1))]
    else m
  }

  /** RemoveNestedField */
  function RemoveNestedField(obj: map<string, Value>, path: seq<string>): map<string, Value>
    requires |path| > 0
  {
    RemoveAt(obj, path, 0)
  }

  /** Two key paths that part ways at or after key `i`: neither is a prefix of the other there. */
  predicate DivergeFrom(p: seq<string>, q: seq<string>, i: nat)
    decreases |p| - i
  {
    i < |p| && i < |q| && (p[i] != q[i] || DivergeFrom(p, q, i + 1))
  }

  /** Two key paths address disjoint parts of any document. */
  predicate Diverge(p: seq<string>, q: seq<string>)
  {
    DivergeFrom(p, q, 0)
  }

  lemma {:induction false} SetAtReadBack(m: map<string, Value>, value: Value, path: seq<string>, i: nat)
    requires i < |path| && SetAt(m, value, path, i).Ok?
    ensures FieldAt(Map(SetAt(m, value, path, i).value), path, i) == Found(value)
    decreases |path| - i
  {
    if i < |path| - 1 {
      var child := if path[i] in m && m[path[i]] != Null then m[path[i]] else Map(map[]);
      SetAtReadBack(child.m, value, path, i + 1);
    }
  }

  lemma {:induction false} SetAtFrame(m: map<string, Value>, value: Value, p: seq<string>, q: seq<string>, i: nat)
    requires i < |p| && SetAt(m, value, p, i).Ok? && DivergeFrom(p, q, i)
    ensures FieldAt(Map(SetAt(m, value, p, i).value), q, i) == FieldAt(Map(m), q, i)
    decreases |p| - i
  {
    if p[i] == q[i] {
      assert DivergeFrom(p, q, i + 1);
      var child := if p[i] in m && m[p[i]] != Null then m[p[i]] else Map(map[]);
      SetAtFrame(child.m, value, p, q, i + 1);
    }
  }

  lemma {:induction false} SetAtFound(m: map<string, Value>, value: Value, path: seq<string>, i: nat)
    requires i < |path| && FieldAt(Map(m), path, i).Found?
    ensures SetAt(m, value, path, i).Ok?
    ensures value == FieldAt(Map(m), path, i).v ==> SetAt(m, value, path, i) == Ok(m)
    decreases |path| - i
  {
    if i < |path| - 1 {
      SetAtFound(m[path[i]].m, value, path, i + 1);
      if value == FieldAt(Map(m), path, i).v {
        assert m[path[i] := Map(m[path[i]].m)] == m;
      }
    } else if value == FieldAt(Map(m), path, i).v {
      assert m[path[i] := value] == m;
    }
  }

  lemma {:induction false} RemoveAtFrame(m: map<string, Value>, p: seq<string>, q: seq<string>, i: nat)
    requires i < |p| && DivergeFrom(p, q, i)
    ensures FieldAt(Map(RemoveAt(m, p, i)), q, i) == FieldAt(Map(m), q, i)
    decreases |p| - i
  {
    if p[i] == q[i] {
      assert DivergeFrom(p, q, i + 1);
      if p[i] in m && m[p[i]].Map? {
        RemoveAtFrame(m[p[i]].m, p, q, i + 1);
      }
    }
  }

  /** After a successful SetNestedField the path reads back the value written. */
  lemma SetNestedFieldReadBack(obj: map<string, Value>, value: Value, path: seq<string>)
    requires |path| > 0 && SetNestedField(obj, value, path).Ok?
    ensures NestedField(SetNestedField(obj, value, path).value, path) == Found(value)
  {
    SetAtReadBack(obj, value, path, 0);
  }

  /** SetNestedField changes nothing that a diverging path can see. */
  lemma SetNestedFieldFrame(obj: map<string, Value>, value: Value, p: seq<string>, q: seq<string>)
    requires |p| > 0 && SetNestedField(obj, value, p).Ok? && Diverge(p, q)
    ensures NestedField(SetNestedField(obj, value, p).value, q) == NestedField(obj, q)
  {
    SetAtFrame(obj, value, p, q, 0);
  }

  /** Writing a path that could be read never fails, and writing back the
      value read leaves the document as it was. */
  lemma SetNestedFieldAfterRead(obj: map<string, Value>, value: Value, path: seq<string>)
    requires |path| > 0 && NestedField(obj, path).Found?
    ensures SetNestedField(obj, value, path).Ok?
    ensures value == NestedField(obj, path).v ==> SetNestedField(obj, value, path) == Ok(obj)
  {
    SetAtFound(obj, value, path, 0);
  }

  /** RemoveNestedField changes nothing that a diverging path can see. */
  lemma RemoveNestedFieldFrame(obj: map<string, Value>, p: seq<string>, q: seq<string>)
    requires |p| > 0 && Diverge(p, q)
    ensures NestedField(RemoveNestedField(obj, p), q) == NestedField(obj, q)
  {
    RemoveAtFrame(obj, p, q, 0);
  }

  const NamespacePath: seq<string> := ["metadata", "namespace"]
  const NamePath: seq<string> := ["metadata", "name"]

  /** Unstructured.SetNamespace: an empty namespace removes the field, any
      other is written (a failed write is ignored by the Go code). */
  function WithNamespace(obj: map<string, Value>, ns: string): map<string, Value>
  {
    if ns == "" then RemoveNestedField(obj, NamespacePath)
    else match SetNestedField(obj, Str(ns), NamespacePath)
      case Ok(o) => o
      case Err(_) => obj
  }

  /** Unstructured.GetNamespace: the string at metadata.namespace, or "". */
  function GetNamespace(obj: map<string, Value>): string
  {
    match NestedString(obj, NamespacePath)
    case Present(s) => s
    case _ => ""
  }

  /** Unstructured.GroupVersionKind: parsed from the apiVersion and kind
      strings; an apiVersion that does not parse gives the empty identity. */
  function GroupVersionKindOf(obj: map<string, Value>): GroupVersionKind
  {
    var apiVersion := match NestedString(obj, ["apiVersion"]) case Present(s) => s case _ => "";
    var kind := match NestedString(obj, ["kind"]) case Present(s) => s case _ => "";
    match ParseGroupVersion(apiVersion)
    case Ok(gv) => GroupVersionKind(gv.group, gv.version, kind)
    case Err(_) => GroupVersionKind("", "", "")
  }

  /** When metadata is a map, null or absent, the namespace reads back as the
      one set; only a metadata of another kind makes the write fail. */
  lemma WithNamespaceReadBack(obj: map<string, Value>, ns: string)
    requires "metadata" in obj ==> obj["metadata"].Map? || obj["metadata"].Null?
    ensures GetNamespace(WithNamespace(obj, ns)) == ns
  {
    if ns != "" {
      assert SetNestedField(obj, Str(ns), NamespacePath).Ok?;
      SetNestedFieldReadBack(obj, Str(ns), NamespacePath);
    }
  }

  /** If metadata.name reads without error once the namespace is set, the
      metadata of the original document was a map, null or absent. */
  lemma NameReadableMetadataShape(obj: map<string, Value>, ns: string)
    requires !NestedString(WithNamespace(obj, ns), NamePath).ReadFailed?
    ensures "metadata" in obj ==> obj["metadata"].Map? || obj["metadata"].Null?
  {
  }

  /** Setting the namespace changes nothing a path diverging from metadata.namespace can see. */
  lemma WithNamespaceFrame(obj: map<string, Value>, ns: string, q: seq<string>)
    requires Diverge(NamespacePath, q)
    ensures NestedField(WithNamespace(obj, ns), q) == NestedField(obj, q)
  {
    if ns == "" {
      RemoveNestedFieldFrame(obj, NamespacePath, q);
    } else if SetNestedField(obj, Str(ns), NamespacePath).Ok? {
      SetNestedFieldFrame(obj, Str(ns), NamespacePath, q);
    }
  }

  /** What an operation that edits a document in place leaves behind: the
      error it returned, if any, and the document as it then is. */
  datatype Outcome = Outcome(err: Option<Error>, doc: map<string, Value>)

  /** The state of an Unstructured object: its document and, kept beside
      it, the owner references of its metadata. */
  datatype Resource = Resource(doc: map<string, Value>, ownerReferences: seq<OwnerReference>)

  /** *unstructured.Unstructured, updated in place. */
  class Object {
    var doc: map<string, Value>
    var ownerReferences: seq<OwnerReference>

    constructor (r: Resource)
      ensures Snapshot() == r
    {
      doc := r.doc;
      ownerReferences := r.ownerReferences;
    }

    function Snapshot(): Resource
      reads this
    {
      Resource(doc, ownerReferences)
    }

    method SetNamespace(ns: string)
      modifies this
      ensures doc == WithNamespace(old(doc), ns)
      ensures ownerReferences == old(ownerReferences)
    {
      doc := WithNamespace(doc, ns);
    }
  }
}
