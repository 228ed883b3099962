/** Kubernetes API-machinery shapes the controller relies on: optional values,
    results, the errors the template engine reports, group/version/kind
    identities, owner references and status conditions. */
module Meta {

  datatype Option<+T> = None | Some(value: T)

  datatype Result<+T> = Ok(value: T) | Err(error: Error)

  /** The error values of the template engine. The Go code builds them with
      fmt.Errorf; here each format string is a constructor and its
      arguments are the constructor's fields. */
  datatype Error =
    | AccessorError(path: seq<string>)        // a value on the path is not of the type the accessor expects
    | SetFieldError(path: seq<string>)        // a value on the path to be written is not a map
    | BadGroupVersion(groupVersion: string)   // "unexpected GroupVersion string: %v"
    | TemplateError(message: string)          // text/template could not parse or execute a template
    | ReadingObject(cause: Error)             // "error reading object: %s"
    | UpdatingObject(cause: Error)            // "error updating object: %s"
    | ReadingResourceTemplate(cause: Error)   // "Error reading resource template: %s"
    | ApplyingResourceTemplate(cause: Error)  // "Error applying resource template: %s"
    | InvalidNameField(value: string, field: string)  // "Invalid resource name value '%s' for resource field '%s'. ..."
    | MissingVariable(name: string)           // "Template variable '%s' is missing a value and default not defined"
    | UnsupportedResourceType(gvk: GroupVersionKind)  // "Unsupported resource type in template: %s"

  datatype GroupVersion = GroupVersion(group: string, version: string)

  datatype GroupVersionKind = GroupVersionKind(group: string, version: string, kind: string)

  /** Number of occurrences of `c` in `s` (strings.Count for a one-character separator). */
  function Count(s: string, c: char): (n: nat)
    ensures n <= |s|
    ensures n == 0 <==> c !in s
  {
    if s == [] then 0 else (if s[0] == c then 1 else 0) + Count(s[1..], c)
  }

  /** Index of the first occurrence of `c` in `s`, or -1 (strings.Index). */
  function IndexOf(s: string, c: char): (i: int)
    ensures -1 <= i < |s|
    ensures i == -1 <==> c !in s
    ensures 0 <= i ==> s[i] == c && c !in s[..i]
  {
    if s == [] then -1
    else if s[0] == c then 0
    else
      var j := IndexOf(s[1..], c);
      if j == -1 then -1
      else
        assert s[..j + 1] == [s[0]] + s[1..][..j];
        j + 1
  }

  /** schema.ParseGroupVersion: "" (and "/") is the empty group version, a
      string without '/' is a bare version of the empty group, exactly one
      '/' separates group and version, and more than one is an error. */
  function ParseGroupVersion(gv: string): Result<GroupVersion>
  {
    if gv == "" || gv == "/" then Ok(GroupVersion("", ""))
    else
      var n := Count(gv, '/');
      if n == 0 then Ok(GroupVersion("", gv))
      else if n == 1 then
        var i := IndexOf(gv, '/');
        Ok(GroupVersion(gv[..i], gv[i + 1..]))
      else Err(BadGroupVersion(gv))
  }

  /** GroupVersion.String(): the bare version for the empty group, otherwise group/version. */
  function GroupVersionString(gv: GroupVersion): string
  {
    if gv.group == "" then gv.version else gv.group + "/" + gv.version
  }

  /** GroupVersionKind.ToAPIVersionAndKind: the apiVersion string and the kind. */
  function ToAPIVersionAndKind(gvk: GroupVersionKind): (string, string)
  {
    (GroupVersionString(GroupVersion(gvk.group, gvk.version)), gvk.kind)
  }

  lemma {:induction false} CountAppend(a: string, b: string, c: char)
    ensures Count(a + b, c) == Count(a, c) + Count(b, c)
  {
    if a == [] {
      assert a + b == b;
    } else {
      assert (a + b)[1..] == a[1..] + b;
      CountAppend(a[1..], b, c);
    }
  }

  /** Rendering a group version and parsing it back gives it back, as long as
      neither part contains a '/'. */
  lemma ParseGroupVersionString(gv: GroupVersion)
    requires '/' !in gv.group && '/' !in gv.version
    ensures ParseGroupVersion(GroupVersionString(gv)) == Ok(gv)
  {
    var s := GroupVersionString(gv);
    if gv.group != "" {
      assert s == gv.group + ("/" + gv.version);
      assert |s| >= 2;
      CountAppend(gv.group, "/" + gv.version, '/');
      CountAppend("/", gv.version, '/');
      assert Count("/", '/') == 1;
      var i := IndexOf(s, '/');
      assert s[|gv.group|] == '/';
      assert s[..|gv.group|] == gv.group;
      assert i == |gv.group|;
      assert s[..i] == gv.group;
      assert s[i + 1..] == gv.version;
    }
  }

  /** A group version with more than one '/' does not parse. */
  lemma ParseGroupVersionFails(gv: string)
    ensures ParseGroupVersion(gv).Err? <==> Count(gv, '/') > 1
  {
    if gv == "/" { assert Count(gv, '/') == 1; }
  }

  /** metav1.OwnerReference. The UID is empty until the owner is looked up;
      Controller and BlockOwnerDeletion are optional booleans (Go pointers). */
  datatype OwnerReference = OwnerReference(
    apiVersion: string,
    kind: string,
    name: string,
    uid: string,
    controller: Option<bool>,
    blockOwnerDeletion: Option<bool>)

  datatype ConditionStatus = ConditionTrue | ConditionFalse | ConditionUnknown

  /** metav1.Condition; the transition time is a number of seconds. */
  datatype Condition = Condition(
    conditionType: string,
    status: ConditionStatus,
    observedGeneration: int,
    lastTransitionTime: int,
    reason: string,
    message: string)

  /** strings.Join */
  function Join(parts: seq<string>, sep: string): (s: string)
  {
    if parts == [] then ""
    else if |parts| == 1 then parts[0]
    else parts[0] + sep + Join(parts[1..], sep)
  }
}
