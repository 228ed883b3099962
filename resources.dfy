/** Resource generation from a ProjectDevelopmentStreamTemplate
    (internal/template/resources.go): resolving the template variables,
    rendering and validating the template-able fields of each supported
    resource type, and MkResources, which turns the template's resources
    into the resources owned by one ProjectDevelopmentStream. */
module Resources {
  import opened Meta
  import opened Unstructured
  import opened Execute
  import opened Ownership

  // ---------------------------------------------------------------------
  // The supported resource types
  // ---------------------------------------------------------------------

  /** One entry of supportedResourceTypes. */
  datatype ResourceType = ResourceType(
    supportedAPIs: seq<GroupVersionKind>,
    templateAbleFields: seq<seq<string>>,
    templateAbleNameFields: seq<seq<string>>,
    ownerNameField: Option<seq<string>>,
    ownerAPI: GroupVersionKind,
    ownerIsController: bool,
    ownerDeletionBlocked: bool)

  const AppStudio: string := "appstudio.redhat.com"
  const ApplicationAPI: GroupVersionKind := GroupVersionKind(AppStudio, "v1alpha1", "Application")
  const ComponentAPI: GroupVersionKind := GroupVersionKind(AppStudio, "v1alpha1", "Component")
  const ImageRepositoryAPI: GroupVersionKind := GroupVersionKind(AppStudio, "v1alpha1", "ImageRepository")
  const IntegrationTestScenarioAPI: GroupVersionKind := GroupVersionKind(AppStudio, "v1beta2", "IntegrationTestScenario")
  const ReleasePlanAPI: GroupVersionKind := GroupVersionKind(AppStudio, "v1alpha1", "ReleasePlan")

  /** The zero GroupVersionKind, the owner API of an entry without an owner. */
  const NoAPI: GroupVersionKind := GroupVersionKind("", "", "")

  const ApplicationType: ResourceType := ResourceType(
    [ApplicationAPI],
    [["spec", "displayName"]],
    [["metadata", "name"]],
    None, NoAPI, false, false)

  const ComponentType: ResourceType := ResourceType(
    [ComponentAPI],
    [["spec", "source", "git", "context"], ["spec", "source", "git", "dockerfileUrl"],
     ["spec", "source", "git", "revision"], ["spec", "source", "git", "url"]],
    [["metadata", "name"], ["spec", "application"], ["spec", "componentName"]],
    Some(["spec", "application"]), ApplicationAPI, false, false)

  const ImageRepositoryType: ResourceType := ResourceType(
    [ImageRepositoryAPI],
    [],
    [["metadata", "name"], ["metadata", "labels", "appstudio.redhat.com/component"],
     ["metadata", "labels", "appstudio.redhat.com/application"], ["spec", "image", "name"]],
    Some(["metadata", "labels", "appstudio.redhat.com/component"]), ComponentAPI, false, false)

  const IntegrationTestScenarioType: ResourceType := ResourceType(
    [IntegrationTestScenarioAPI],
    [],
    [["metadata", "name"], ["spec", "application"]],
    Some(["spec", "application"]), ApplicationAPI, true, true)

  const ReleasePlanType: ResourceType := ResourceType(
    [ReleasePlanAPI],
    [],
    [["metadata", "name"], ["spec", "application"]],
    Some(["spec", "application"]), ApplicationAPI, true, true)

  /** supportedResourceTypes, in the order resources are created. */
  const SupportedResourceTypes: seq<ResourceType> :=
    [ApplicationType, ComponentType, ImageRepositoryType, IntegrationTestScenarioType, ReleasePlanType]

  /** findGVK: a linear search for an exactly equal group, version and kind. */
  method FindGVK(gvks: seq<GroupVersionKind>, someGVK: GroupVersionKind) returns (found: bool)
    ensures found <==> someGVK in gvks
  {
    for i := 0 to |gvks|
      invariant someGVK !in gvks[..i]
    {
      if someGVK == gvks[i] {
        return true;
      }
      assert gvks[..i + 1] == gvks[..i] + [gvks[i]];
    }
    assert gvks[..|gvks|] == gvks;
    return false;
  }

  // ---------------------------------------------------------------------
  // Template variables
  // ---------------------------------------------------------------------

  /** ProjectDevelopmentStreamTemplateVariable: a name, an optional default
      (a template over earlier variables) and a description. */
  datatype TemplateVariable = TemplateVariable(name: string, defaultValue: Option<string>, description: string)

  /** ProjectDevelopmentStreamSpecTemplateValue: a value given by the stream. */
  datatype TemplateValue = TemplateValue(name: string, value: string)

  /** The givenValues map: each given value under its name, a later one
      replacing an earlier one of the same name. */
  function GivenValues(vals: seq<TemplateValue>): (given: map<string, string>)
    ensures vals != [] ==> vals[|vals| - 1].name in given
  {
    if vals == [] then map[]
    else
      var last := vals[|vals| - 1];
      GivenValues(vals[..|vals| - 1])[last.name := last.value]
  }

  /** Exactly the names some value is given under have a given value. */
  lemma {:induction false} GivenValuesNames(vals: seq<TemplateValue>)
    ensures forall name :: name in GivenValues(vals) <==> exists i :: 0 <= i < |vals| && vals[i].name == name
  {
    if vals != [] {
      var prefix := vals[..|vals| - 1];
      GivenValuesNames(prefix);
      assert forall i :: 0 <= i < |prefix| ==> prefix[i] == vals[i];
    }
  }

  /** The value given under a name is the one given last under it. */
  lemma {:induction false} GivenValuesLastWins(vals: seq<TemplateValue>, i: int)
    requires 0 <= i < |vals|
    requires forall k :: i < k < |vals| ==> vals[k].name != vals[i].name
    ensures vals[i].name in GivenValues(vals) && GivenValues(vals)[vals[i].name] == vals[i].value
  {
    if i < |vals| - 1 {
      var prefix := vals[..|vals| - 1];
      GivenValuesLastWins(prefix, i);
    }
  }

  /** What getVarValues returns: the values resolved so far, and the error
      that stopped the resolution, if any. */
  datatype Resolution = Resolution(values: map<string, string>, err: Option<Error>)

  /** The loop of getVarValues over `vars`, in order: a given value is taken
      as it is; otherwise the default is rendered against the values of the
      variables before it; a variable with neither is an error. The first
      error stops the loop and the values resolved until then are kept. */
  function Resolve(execute: Executor, given: map<string, string>, vars: seq<TemplateVariable>): (r: Resolution)
    ensures r.err.None? && vars != [] ==> vars[|vars| - 1].name in r.values
  {
    if vars == [] then Resolution(map[], None)
    else
      var v := vars[|vars| - 1];
      var p := Resolve(execute, given, vars[..|vars| - 1]);
      if p.err.Some? then p
      else if v.name in given then Resolution(p.values[v.name := given[v.name]], None)
      else if v.defaultValue.Some? then
        match execute(v.defaultValue.value, p.values)
        case Ok(s) => Resolution(p.values[v.name := s], None)
        case Err(e) => Resolution(p.values, Some(e))
      else Resolution(p.values, Some(MissingVariable(v.name)))
  }

  /** Only declared variables get a value. */
  lemma {:induction false} ResolveNames(execute: Executor, given: map<string, string>, vars: seq<TemplateVariable>)
    ensures forall name :: name in Resolve(execute, given, vars).values ==> exists i :: 0 <= i < |vars| && vars[i].name == name
  {
    if vars != [] {
      var prefix := vars[..|vars| - 1];
      ResolveNames(execute, given, prefix);
      assert forall i :: 0 <= i < |prefix| ==> prefix[i] == vars[i];
    }
  }

  /** Once a prefix of the variables fails, resolving all of them gives the
      same values and the same error: resolution stops at the first error. */
  lemma {:induction false} ResolveStops(execute: Executor, given: map<string, string>, vars: seq<TemplateVariable>, j: nat)
    requires j <= |vars| && Resolve(execute, given, vars[..j]).err.Some?
    ensures Resolve(execute, given, vars) == Resolve(execute, given, vars[..j])
    decreases |vars|
  {
    if j < |vars| {
      assert vars[..|vars| - 1][..j] == vars[..j];
      ResolveStops(execute, given, vars[..|vars| - 1], j);
    } else {
      assert vars[..j] == vars;
    }
  }

  /** Once every variable resolved, so did every prefix. */
  lemma ResolvePrefixOk(execute: Executor, given: map<string, string>, vars: seq<TemplateVariable>, j: nat)
    requires j <= |vars| && Resolve(execute, given, vars).err.None?
    ensures Resolve(execute, given, vars[..j]).err.None?
  {
    if Resolve(execute, given, vars[..j]).err.Some? {
      ResolveStops(execute, given, vars, j);
    }
  }

  /** Resolving one more variable, after the earlier ones resolved. */
  lemma ResolveStep(execute: Executor, given: map<string, string>, vars: seq<TemplateVariable>, i: nat)
    requires i < |vars| && Resolve(execute, given, vars[..i]).err.None?
    ensures var p := Resolve(execute, given, vars[..i]).values;
      var v := vars[i];
      Resolve(execute, given, vars[..i + 1]) ==
        if v.name in given then Resolution(p[v.name := given[v.name]], None)
        else if v.defaultValue.Some? then
          (match execute(v.defaultValue.value, p)
           case Ok(s) => Resolution(p[v.name := s], None)
           case Err(e) => Resolution(p, Some(e)))
        else Resolution(p, Some(MissingVariable(v.name)))
  {
    assert vars[..i + 1][..i] == vars[..i];
  }

  /** A variable without a given value and without a default is an error
      naming it, once the variables before it resolved. */
  lemma ResolveMissing(execute: Executor, given: map<string, string>, vars: seq<TemplateVariable>, i: nat)
    requires i < |vars| && Resolve(execute, given, vars[..i]).err.None?
    requires vars[i].name !in given && vars[i].defaultValue.None?
    ensures Resolve(execute, given, vars).err == Some(MissingVariable(vars[i].name))
  {
    ResolveStep(execute, given, vars, i);
    ResolveStops(execute, given, vars, i + 1);
  }

  /** A default that fails to render stops the resolution with the
      renderer's error, once the variables before it resolved. */
  lemma ResolveDefaultFails(execute: Executor, given: map<string, string>, vars: seq<TemplateVariable>, i: nat)
    requires i < |vars| && Resolve(execute, given, vars[..i]).err.None?
    requires vars[i].name !in given && vars[i].defaultValue.Some?
    requires execute(vars[i].defaultValue.value, Resolve(execute, given, vars[..i]).values).Err?
    ensures Resolve(execute, given, vars).err
         == Some(execute(vars[i].defaultValue.value, Resolve(execute, given, vars[..i]).values).error)
  {
    ResolveStep(execute, given, vars, i);
    ResolveStops(execute, given, vars, i + 1);
  }

  /** Resolving more variables only adds or replaces the values of the new
      variables: a name that no later variable declares keeps its value. */
  lemma {:induction false} ResolveKeeps(execute: Executor, given: map<string, string>, vars: seq<TemplateVariable>,
                                        j: nat, name: string)
    requires j <= |vars| && Resolve(execute, given, vars).err.None?
    requires forall k :: j <= k < |vars| ==> vars[k].name != name
    requires name in Resolve(execute, given, vars[..j]).values
    ensures name in Resolve(execute, given, vars).values
    ensures Resolve(execute, given, vars).values[name] == Resolve(execute, given, vars[..j]).values[name]
    decreases |vars|
  {
    if j < |vars| {
      var prefix := vars[..|vars| - 1];
      assert prefix[..j] == vars[..j];
      assert vars[|vars| - 1].name != name;
      ResolveKeeps(execute, given, prefix, j, name);
    } else {
      assert vars[..j] == vars;
    }
  }

  /** A given value is used verbatim, without rendering, whatever the default. */
  lemma ResolveGivenWins(execute: Executor, given: map<string, string>, vars: seq<TemplateVariable>, i: nat)
    requires i < |vars| && Resolve(execute, given, vars).err.None?
    requires vars[i].name in given
    ensures vars[i].name in Resolve(execute, given, vars).values
    ensures Resolve(execute, given, vars).values[vars[i].name] == given[vars[i].name]
  {
    var name := vars[i].name;
    var j :| i <= j < |vars| && vars[j].name == name && forall k :: j < k < |vars| ==> vars[k].name != name by {
      LastOccurrence(vars, i);
    }
    ResolvePrefixOk(execute, given, vars, j);
    ResolveStep(execute, given, vars, j);
    ResolvePrefixOk(execute, given, vars, j + 1);
    ResolveKeeps(execute, given, vars, j + 1, name);
  }

  /** A default is rendered against the values of the variables before it
      only, and the rendering is stored under the variable's name (unless a
      later variable declares the same name again). */
  lemma ResolveDefault(execute: Executor, given: map<string, string>, vars: seq<TemplateVariable>, i: nat)
    requires i < |vars| && Resolve(execute, given, vars).err.None?
    requires vars[i].name !in given
    requires forall k :: i < k < |vars| ==> vars[k].name != vars[i].name
    ensures vars[i].defaultValue.Some?
    ensures execute(vars[i].defaultValue.value, Resolve(execute, given, vars[..i]).values).Ok?
    ensures vars[i].name in Resolve(execute, given, vars).values
    ensures Resolve(execute, given, vars).values[vars[i].name]
         == execute(vars[i].defaultValue.value, Resolve(execute, given, vars[..i]).values).value
    ensures forall name :: name in Resolve(execute, given, vars[..i]).values ==>
              exists k :: 0 <= k < i && vars[k].name == name
  {
    ResolvePrefixOk(execute, given, vars, i);
    ResolveStep(execute, given, vars, i);
    ResolvePrefixOk(execute, given, vars, i + 1);
    ResolveKeeps(execute, given, vars, i + 1, vars[i].name);
    ResolveNames(execute, given, vars[..i]);
    assert forall k :: 0 <= k < i ==> vars[..i][k] == vars[k];
  }

  /** On success every declared variable has a value. */
  lemma ResolveComplete(execute: Executor, given: map<string, string>, vars: seq<TemplateVariable>, i: nat)
    requires i < |vars| && Resolve(execute, given, vars).err.None?
    ensures vars[i].name in Resolve(execute, given, vars).values
  {
    var name := vars[i].name;
    var j :| i <= j < |vars| && vars[j].name == name && forall k :: j < k < |vars| ==> vars[k].name != name by {
      LastOccurrence(vars, i);
    }
    ResolvePrefixOk(execute, given, vars, j);
    ResolveStep(execute, given, vars, j);
    ResolvePrefixOk(execute, given, vars, j + 1);
    ResolveKeeps(execute, given, vars, j + 1, name);
  }

  /** Some variable at or after `i` has the name of `vars[i]` and is the last to have it. */
  lemma {:induction false} LastOccurrence(vars: seq<TemplateVariable>, i: nat)
    requires i < |vars|
    ensures exists j :: i <= j < |vars| && vars[j].name == vars[i].name &&
                        forall k :: j < k < |vars| ==> vars[k].name != vars[i].name
    decreases |vars| - i
  {
    if exists k :: i < k < |vars| && vars[k].name == vars[i].name {
      var k :| i < k < |vars| && vars[k].name == vars[i].name;
      LastOccurrence(vars, k);
    } else {
      assert i <= i < |vars| && vars[i].name == vars[i].name &&
             forall k :: i < k < |vars| ==> vars[k].name != vars[i].name;
    }
  }

  /** getVarValues */
  method GetVarValues(execute: Executor, vars: seq<TemplateVariable>, vals: seq<TemplateValue>)
    returns (values: map<string, string>, err: Option<Error>)
    ensures Resolution(values, err) == Resolve(execute, GivenValues(vals), vars)
  {
    values := map[];
    var givenValues: map<string, string> := map[];
    for i := 0 to |vals|
      invariant givenValues == GivenValues(vals[..i])
    {
      assert vals[..i + 1][..i] == vals[..i];
      givenValues := givenValues[vals[i].name := vals[i].value];
    }
    assert vals[..|vals|] == vals;
    err := None;
    var i := 0;
    while i < |vars|
      invariant i <= |vars|
      invariant Resolution(values, err) == Resolve(execute, givenValues, vars[..i])
      invariant err.None?
    {
      var variable := vars[i];
      assert vars[..i + 1][..i] == vars[..i];
      if variable.name in givenValues {
        values := values[variable.name := givenValues[variable.name]];
      } else if variable.defaultValue.Some? {
        var rendered := execute(variable.defaultValue.value, values);
        if rendered.Err? {
          err := Some(rendered.error);
          ResolveStops(execute, givenValues, vars, i + 1);
          return;
        }
        values := values[variable.name := rendered.value];
      } else {
        err := Some(MissingVariable(variable.name));
        ResolveStops(execute, givenValues, vars, i + 1);
        return;
      }
      i := i + 1;
    }
    assert vars[..i] == vars;
  }

  // ---------------------------------------------------------------------
  // Rendering template-able fields
  // ---------------------------------------------------------------------

  /** One iteration of applyResourceTemplate: a field that cannot be read is
      a reading error, an absent field is skipped, and a string field is
      rendered and written back; a rendering or writing failure is an
      applying error. A failing step leaves the document as it was. */
  function TemplateApplied(doc: map<string, Value>, path: seq<string>, execute: Executor,
                           values: map<string, string>): (r: Outcome)
    ensures r.err.Some? ==> r.doc == doc
    ensures NestedString(doc, path).Absent? ==> r == Outcome(None, doc)
    ensures NestedString(doc, path).ReadFailed? ==> r == Outcome(Some(ReadingResourceTemplate(NestedString(doc, path).err)), doc)
  {
    match NestedString(doc, path)
    case ReadFailed(e) => Outcome(Some(ReadingResourceTemplate(e)), doc)
    case Absent => Outcome(None, doc)
    case Present(t) =>
      match execute(t, values)
      case Err(e) => Outcome(Some(ApplyingResourceTemplate(e)), doc)
      case Ok(v) =>
        assert |path| > 0;
        match SetNestedField(doc, Str(v), path)
        case Ok(d) => Outcome(None, d)
        case Err(e) => Outcome(Some(ApplyingResourceTemplate(e)), doc)
  }

  /** applyResourceTemplate on a document value: the fields in order, up to
      the first error; the fields before the failing one stay rendered. */
  function TemplatesApplied(doc: map<string, Value>, paths: seq<seq<string>>, execute: Executor,
                            values: map<string, string>): Outcome
    decreases |paths|
  {
    if paths == [] then Outcome(None, doc)
    else
      var o := TemplateApplied(doc, paths[0], execute, values);
      if o.err.Some? then o else TemplatesApplied(o.doc, paths[1..], execute, values)
  }

  /** A string field whose template renders is replaced by the rendering,
      the write cannot fail (the field was just read), and nothing a
      diverging path sees changes. */
  lemma TemplateAppliedRenders(doc: map<string, Value>, path: seq<string>, execute: Executor,
                               values: map<string, string>, t: string)
    requires NestedString(doc, path) == Present(t) && execute(t, values).Ok?
    ensures TemplateApplied(doc, path, execute, values).err.None?
    ensures NestedString(TemplateApplied(doc, path, execute, values).doc, path) == Present(execute(t, values).value)
    ensures forall q :: Diverge(path, q) ==>
      NestedField(TemplateApplied(doc, path, execute, values).doc, q) == NestedField(doc, q)
  {
    var v := Str(execute(t, values).value);
    assert |path| > 0;
    SetNestedFieldAfterRead(doc, v, path);
    SetNestedFieldReadBack(doc, v, path);
    forall q | Diverge(path, q)
      ensures NestedField(TemplateApplied(doc, path, execute, values).doc, q) == NestedField(doc, q)
    {
      SetNestedFieldFrame(doc, v, path, q);
    }
  }

  /** A template that fails to render is an applying error carrying the
      renderer's error, and the document is left as it was. */
  lemma TemplateAppliedFails(doc: map<string, Value>, path: seq<string>, execute: Executor,
                             values: map<string, string>, t: string)
    requires NestedString(doc, path) == Present(t) && execute(t, values).Err?
    ensures TemplateApplied(doc, path, execute, values)
         == Outcome(Some(ApplyingResourceTemplate(execute(t, values).error)), doc)
  {
  }

  /** A step never changes what a diverging path sees, error or not. */
  lemma TemplateAppliedFrame(doc: map<string, Value>, path: seq<string>, execute: Executor,
                             values: map<string, string>, q: seq<string>)
    requires Diverge(path, q)
    ensures NestedField(TemplateApplied(doc, path, execute, values).doc, q) == NestedField(doc, q)
  {
    if NestedString(doc, path).Present? && execute(NestedString(doc, path).value, values).Ok? {
      TemplateAppliedRenders(doc, path, execute, values, NestedString(doc, path).value);
    }
  }

  /** A path that diverges from every template-able field is left as it was,
      whatever the outcome. */
  lemma {:induction false} TemplatesAppliedFrame(doc: map<string, Value>, paths: seq<seq<string>>, execute: Executor,
                                                 values: map<string, string>, q: seq<string>)
    requires forall i :: 0 <= i < |paths| ==> Diverge(paths[i], q)
    ensures NestedField(TemplatesApplied(doc, paths, execute, values).doc, q) == NestedField(doc, q)
    decreases |paths|
  {
    if paths != [] {
      var o := TemplateApplied(doc, paths[0], execute, values);
      TemplateAppliedFrame(doc, paths[0], execute, values, q);
      if o.err.None? {
        TemplatesAppliedFrame(o.doc, paths[1..], execute, values, q);
      }
    }
  }

  /** A field that cannot be read stops the rendering with a reading error,
      and the fields after it are not looked at. */
  lemma TemplatesAppliedFirstReadFails(doc: map<string, Value>, paths: seq<seq<string>>, execute: Executor,
                                       values: map<string, string>)
    requires |paths| > 0 && NestedString(doc, paths[0]).ReadFailed?
    ensures TemplatesApplied(doc, paths, execute, values)
         == Outcome(Some(ReadingResourceTemplate(NestedString(doc, paths[0]).err)), doc)
  {
  }

  /** applyResourceTemplate */
  method ApplyResourceTemplate(resource: Object, templateAbleFields: seq<seq<string>>,
                               templateVarValues: map<string, string>, execute: Executor)
    returns (err: Option<Error>)
    modifies resource
    ensures Outcome(err, resource.doc) == TemplatesApplied(old(resource.doc), templateAbleFields, execute, templateVarValues)
    ensures resource.ownerReferences == old(resource.ownerReferences)
  {
    for i := 0 to |templateAbleFields|
      invariant TemplatesApplied(old(resource.doc), templateAbleFields, execute, templateVarValues)
             == TemplatesApplied(resource.doc, templateAbleFields[i..], execute, templateVarValues)
      invariant resource.ownerReferences == old(resource.ownerReferences)
    {
      var path := templateAbleFields[i];
      assert templateAbleFields[i..][1..] == templateAbleFields[i + 1..];
      var valueTemplate := NestedString(resource.doc, path);
      if valueTemplate.ReadFailed? {
        return Some(ReadingResourceTemplate(valueTemplate.err));
      }
      if valueTemplate.Absent? {
        continue;
      }
      var value := execute(valueTemplate.value, templateVarValues);
      if value.Err? {
        return Some(ApplyingResourceTemplate(value.error));
      }
      var updated := SetNestedField(resource.doc, Str(value.value), path);
      if updated.Err? {
        return Some(ApplyingResourceTemplate(updated.error));
      }
      resource.doc := updated.value;
    }
    return None;
  }

  // ---------------------------------------------------------------------
  // Validating name fields
  // ---------------------------------------------------------------------

  /** nameFieldPattern, ^[a-z0-9]([-a-z0-9]*[a-z0-9])?$: non-empty, only
      a-z, 0-9 and '-', starting and ending with a-z or 0-9. */
  predicate IsValidName(s: string)
  {
    && |s| > 0
    && IsNameChar(s[0])
    && IsNameChar(s[|s| - 1])
    && forall i :: 0 <= i < |s| ==> IsNameChar(s[i]) || s[i] == '-'
  }

  /** hyphenize makes a valid name of any string that is non-empty and
      starts and ends with a-z or 0-9, and of no other string. */
  lemma HyphenizeValidName(s: string)
    ensures IsValidName(Hyphenize(s)) <==> |s| > 0 && IsNameChar(s[0]) && IsNameChar(s[|s| - 1])
  {
  }

  /** The error of validateResourceNameFields: the first readable string at
      the given paths that is not a valid name, with its dotted path;
      unreadable and absent paths are skipped. */
  function NameFieldsError(doc: map<string, Value>, nameFields: seq<seq<string>>): Option<Error>
    decreases |nameFields|
  {
    if nameFields == [] then None
    else
      match NestedString(doc, nameFields[0])
      case Present(value) =>
        if !IsValidName(value) then Some(InvalidNameField(value, Join(nameFields[0], ".")))
        else NameFieldsError(doc, nameFields[1..])
      case _ => NameFieldsError(doc, nameFields[1..])
  }

  /** Every name field that holds a string holds a valid name. */
  predicate NameFieldsValid(doc: map<string, Value>, nameFields: seq<seq<string>>)
  {
    forall i :: 0 <= i < |nameFields| && NestedString(doc, nameFields[i]).Present? ==>
      IsValidName(NestedString(doc, nameFields[i]).value)
  }

  /** There is no error exactly when every name field that holds a string
      holds a valid name; an error names an invalid value and its dotted path. */
  lemma {:induction false} NameFieldsErrorSpec(doc: map<string, Value>, nameFields: seq<seq<string>>)
    ensures NameFieldsError(doc, nameFields).None? <==> NameFieldsValid(doc, nameFields)
    ensures NameFieldsError(doc, nameFields).Some? ==>
      exists i :: 0 <= i < |nameFields| && NestedString(doc, nameFields[i]).Present? &&
        !IsValidName(NestedString(doc, nameFields[i]).value) &&
        NameFieldsError(doc, nameFields) == Some(InvalidNameField(NestedString(doc, nameFields[i]).value, Join(nameFields[i], ".")))
    decreases |nameFields|
  {
    if nameFields != [] {
      NameFieldsErrorSpec(doc, nameFields[1..]);
      assert forall i :: 1 <= i < |nameFields| ==> nameFields[i] == nameFields[1..][i - 1];
    }
  }

  /** validateResourceNameFields; it only reads the resource. */
  method ValidateResourceNameFields(resource: Object, nameFields: seq<seq<string>>) returns (err: Option<Error>)
    ensures err == NameFieldsError(resource.doc, nameFields)
  {
    for i := 0 to |nameFields|
      invariant NameFieldsError(resource.doc, nameFields) == NameFieldsError(resource.doc, nameFields[i..])
    {
      var path := nameFields[i];
      assert nameFields[i..][1..] == nameFields[i + 1..];
      var value := NestedString(resource.doc, path);
      if !value.Present? {
        continue;
      }
      if !IsValidName(value.value) {
        return Some(InvalidNameField(value.value, Join(path, ".")));
      }
    }
    return None;
  }

  /** The document of the name-field examples in resources_internal_test.go. */
  const NameFieldsDoc: map<string, Value> := map[
    "key1" := Map(map["key1a" := Str("good-name"), "key1b" := List([Str("good-name1"), Str("good-name2")])]),
    "key2" := Map(map["key2a" := Str("bad.name"), "key2b" := List([Str("good-name1"), Str("bad.name2")])])]

  /** A valid name passes, and "bad.name" is reported with its value and
      dotted path, also when a valid field comes first. */
  lemma NameFieldsExamples()
    ensures NameFieldsError(NameFieldsDoc, [["key1", "key1a"]]) == None
    ensures NameFieldsError(NameFieldsDoc, [["key2", "key2a"]]) == Some(InvalidNameField("bad.name", "key2.key2a"))
    ensures NameFieldsError(NameFieldsDoc, [["key1", "key1a"], ["key2", "key2a"]])
         == Some(InvalidNameField("bad.name", "key2.key2a"))
  {
    assert IsValidName("good-name") by {
      assert forall i :: 0 <= i < |"good-name"| ==> IsNameChar("good-name"[i]) || "good-name"[i] == '-';
    }
    assert !IsValidName("bad.name") by {
      assert "bad.name"[3] == '.';
    }
    assert Join(["key2", "key2a"], ".") == "key2.key2a";
    var rest: seq<seq<string>> := [["key2", "key2a"]];
    assert [["key1", "key1a"], ["key2", "key2a"]][1..] == rest;
  }

  /** A path ending in "[]" reaches a list where NestedString expects a map,
      so the read fails and the path is skipped: the list members are not
      validated, whatever they hold. */
  lemma NameFieldsListPathSkipped()
    ensures NameFieldsError(NameFieldsDoc, [["key2", "key2b", "[]"]]) == None
    ensures NameFieldsError(NameFieldsDoc, [["key1", "key1a"], ["key2", "key2b", "[]"]]) == None
  {
    var listPath: seq<string> := ["key2", "key2b", "[]"];
    assert NestedString(NameFieldsDoc, listPath).ReadFailed?;
    assert IsValidName("good-name") by {
      assert forall i :: 0 <= i < |"good-name"| ==> IsNameChar("good-name"[i]) || "good-name"[i] == '-';
    }
    var rest: seq<seq<string>> := [listPath];
    assert [["key1", "key1a"], listPath][1..] == rest;
  }

  // ---------------------------------------------------------------------
  // MkResources
  // ---------------------------------------------------------------------

  /** The owner references after the owner step of MkResources: when the
      entry names an owner field and that field holds a string, a reference
      to the owner is upserted; otherwise they are left as they were. */
  function OwnersAfter(rt: ResourceType, doc: map<string, Value>, owners: seq<OwnerReference>): seq<OwnerReference>
  {
    if rt.ownerNameField.Some? && NestedString(doc, rt.ownerNameField.value).Present? then
      Upserted(owners, NewOwnerRef(rt.ownerAPI, NestedString(doc, rt.ownerNameField.value).value,
                                   rt.ownerIsController, rt.ownerDeletionBlocked))
    else owners
  }

  /** One template resource made into a resource of the stream: a copy in
      the stream's namespace, its name fields rendered and then validated,
      its other template-able fields rendered, and its owner set. */
  function Instantiate(execute: Executor, rt: ResourceType, src: Resource, ns: string,
                       values: map<string, string>): Result<Resource>
  {
    var o1 := TemplatesApplied(WithNamespace(src.doc, ns), rt.templateAbleNameFields, execute, values);
    if o1.err.Some? then Err(o1.err.value)
    else match NameFieldsError(o1.doc, rt.templateAbleNameFields)
      case Some(e) => Err(e)
      case None =>
        var o2 := TemplatesApplied(o1.doc, rt.templateAbleFields, execute, values);
        if o2.err.Some? then Err(o2.err.value)
        else Ok(Resource(o2.doc, OwnersAfter(rt, o2.doc, src.ownerReferences)))
  }

  /** The entry handles the resource: its GVK equals one the entry supports. */
  predicate Handles(rt: ResourceType, r: Resource)
  {
    GroupVersionKindOf(r.doc) in rt.supportedAPIs
  }

  /** The template resources an entry handles, in template order. */
  function Matching(rt: ResourceType, inputs: seq<Resource>): (ms: seq<Resource>)
    ensures |ms| <= |inputs|
  {
    if inputs == [] then []
    else Matching(rt, inputs[..|inputs| - 1]) + (if Handles(rt, inputs[|inputs| - 1]) then [inputs[|inputs| - 1]] else [])
  }

  /** Every template resource Matching keeps is one of the inputs, and the entry handles it. */
  lemma {:induction false} MatchingHandled(rt: ResourceType, inputs: seq<Resource>)
    ensures forall j :: 0 <= j < |Matching(rt, inputs)| ==>
      Matching(rt, inputs)[j] in inputs && Handles(rt, Matching(rt, inputs)[j])
  {
    if inputs != [] {
      var prefix := inputs[..|inputs| - 1];
      MatchingHandled(rt, prefix);
      assert forall r :: r in prefix ==> r in inputs;
    }
  }

  /** The inner loop of MkResources for one entry: the resources it makes
      from the templates it handles, in template order, or the first error. */
  function ForEntry(execute: Executor, rt: ResourceType, inputs: seq<Resource>, ns: string,
                    values: map<string, string>): Result<seq<Resource>>
  {
    if inputs == [] then Ok([])
    else
      var prefix := inputs[..|inputs| - 1];
      var last := inputs[|inputs| - 1];
      match ForEntry(execute, rt, prefix, ns, values)
      case Err(e) => Err(e)
      case Ok(ps) =>
        if !Handles(rt, last) then Ok(ps)
        else match Instantiate(execute, rt, last, ns, values)
          case Err(e) => Err(e)
          case Ok(res) => Ok(ps + [res])
  }

  /** The resources an entry makes are, one for one and in order, the
      template resources it handles, instantiated. */
  lemma {:induction false} ForEntryOk(execute: Executor, rt: ResourceType, inputs: seq<Resource>, ns: string,
                                      values: map<string, string>)
    requires ForEntry(execute, rt, inputs, ns, values).Ok?
    ensures |ForEntry(execute, rt, inputs, ns, values).value| == |Matching(rt, inputs)|
    ensures forall j :: 0 <= j < |Matching(rt, inputs)| ==>
      Instantiate(execute, rt, Matching(rt, inputs)[j], ns, values) == Ok(ForEntry(execute, rt, inputs, ns, values).value[j])
  {
    if inputs != [] {
      ForEntryOk(execute, rt, inputs[..|inputs| - 1], ns, values);
    }
  }

  /** An error of an entry is the error of making one of the template
      resources it handles. */
  lemma {:induction false} ForEntryErr(execute: Executor, rt: ResourceType, inputs: seq<Resource>, ns: string,
                                       values: map<string, string>)
    requires ForEntry(execute, rt, inputs, ns, values).Err?
    ensures exists j :: (0 <= j < |Matching(rt, inputs)| &&
      Instantiate(execute, rt, Matching(rt, inputs)[j], ns, values) == Err(ForEntry(execute, rt, inputs, ns, values).error))
  {
    var prefix := inputs[..|inputs| - 1];
    var last := inputs[|inputs| - 1];
    if ForEntry(execute, rt, prefix, ns, values).Err? {
      ForEntryErr(execute, rt, prefix, ns, values);
      var j :| 0 <= j < |Matching(rt, prefix)| &&
        Instantiate(execute, rt, Matching(rt, prefix)[j], ns, values) == Err(ForEntry(execute, rt, prefix, ns, values).error);
      assert Matching(rt, inputs)[j] == Matching(rt, prefix)[j];
    } else {
      assert Matching(rt, inputs)[|Matching(rt, prefix)|] == last;
    }
  }

  /** The resource is made by the entry from one of the template resources it handles. */
  ghost predicate HandledBy(execute: Executor, rt: ResourceType, inputs: seq<Resource>, ns: string,
                            values: map<string, string>, out: Resource)
  {
    exists k :: 0 <= k < |inputs| && Handles(rt, inputs[k]) && Instantiate(execute, rt, inputs[k], ns, values) == Ok(out)
  }

  /** The outer loop of MkResources over the entries of `table`: the
      resources of each entry in turn, or the first error. */
  function ForTable(execute: Executor, table: seq<ResourceType>, inputs: seq<Resource>, ns: string,
                    values: map<string, string>): Result<seq<Resource>>
  {
    if table == [] then Ok([])
    else
      match ForTable(execute, table[..|table| - 1], inputs, ns, values)
      case Err(e) => Err(e)
      case Ok(ps) =>
        match ForEntry(execute, table[|table| - 1], inputs, ns, values)
        case Err(e) => Err(e)
        case Ok(es) => Ok(ps + es)
  }

  /** Every resource the table makes is made by one of its entries from a
      template resource that entry handles. */
  lemma {:induction false} ForTableHandled(execute: Executor, table: seq<ResourceType>, inputs: seq<Resource>, ns: string,
                                           values: map<string, string>)
    requires ForTable(execute, table, inputs, ns, values).Ok?
    ensures forall j :: 0 <= j < |ForTable(execute, table, inputs, ns, values).value| ==>
      exists t :: 0 <= t < |table| && HandledBy(execute, table[t], inputs, ns, values, ForTable(execute, table, inputs, ns, values).value[j])
  {
    if table != [] {
      var prefix := table[..|table| - 1];
      var last := table[|table| - 1];
      ForTableHandled(execute, prefix, inputs, ns, values);
      var es := ForEntry(execute, last, inputs, ns, values).value;
      ForEntryOk(execute, last, inputs, ns, values);
      MatchingHandled(last, inputs);
      assert forall j :: 0 <= j < |es| ==> HandledBy(execute, last, inputs, ns, values, es[j]) by {
        forall j | 0 <= j < |es|
          ensures HandledBy(execute, last, inputs, ns, values, es[j])
        {
          var m := Matching(last, inputs)[j];
          var k :| 0 <= k < |inputs| && inputs[k] == m;
        }
      }
      assert forall t :: 0 <= t < |prefix| ==> prefix[t] == table[t];
    }
  }

  /** Some entry of the table handles the resource. */
  predicate Supported(table: seq<ResourceType>, r: Resource)
  {
    exists t :: 0 <= t < |table| && Handles(table[t], r)
  }

  /** The first template resource no entry of the table handles, or -1. */
  function FirstUnhandled(table: seq<ResourceType>, inputs: seq<Resource>): (u: int)
    ensures -1 <= u < |inputs|
  {
    if inputs == [] then -1
    else if !Supported(table, inputs[0]) then 0
    else
      var u := FirstUnhandled(table, inputs[1..]);
      if u == -1 then -1 else u + 1
  }

  /** FirstUnhandled is -1 exactly when every template resource is
      supported, and otherwise the index of the first one that is not. */
  lemma {:induction false} FirstUnhandledSpec(table: seq<ResourceType>, inputs: seq<Resource>)
    ensures FirstUnhandled(table, inputs) == -1 <==> forall k :: 0 <= k < |inputs| ==> Supported(table, inputs[k])
    ensures 0 <= FirstUnhandled(table, inputs) ==> !Supported(table, inputs[FirstUnhandled(table, inputs)])
    ensures 0 <= FirstUnhandled(table, inputs) ==> forall k :: 0 <= k < FirstUnhandled(table, inputs) ==> Supported(table, inputs[k])
  {
    if inputs != [] && Supported(table, inputs[0]) {
      FirstUnhandledSpec(table, inputs[1..]);
      assert forall k :: 1 <= k < |inputs| ==> inputs[k] == inputs[1..][k - 1];
    }
  }

  /** What MkResources returns for the stream's namespace and template
      values and the template's variables and resources: a variable error
      first, then the first error making a resource (table order, then
      template order), then an error for the first unsupported resource. */
  function MkResourcesSpec(table: seq<ResourceType>, execute: Executor, ns: string, vars: seq<TemplateVariable>,
                           vals: seq<TemplateValue>, inputs: seq<Resource>): Result<seq<Resource>>
  {
    var res := Resolve(execute, GivenValues(vals), vars);
    if res.err.Some? then Err(res.err.value)
    else match ForTable(execute, table, inputs, ns, res.values)
      case Err(e) => Err(e)
      case Ok(out) =>
        var u := FirstUnhandled(table, inputs);
        if u >= 0 then Err(UnsupportedResourceType(GroupVersionKindOf(inputs[u].doc))) else Ok(out)
  }


  /** The state of each object of a list. */
  function Snapshots(objs: seq<Object>): (rs: seq<Resource>)
    reads objs
    ensures |rs| == |objs|
  {
    if objs == [] then [] else Snapshots(objs[..|objs| - 1]) + [objs[|objs| - 1].Snapshot()]
  }

  /** unhandledTemplates as first filled in: every template index unhandled. */
  function AllUnhandled(n: nat): (m: map<int, bool>)
    ensures forall k :: k in m <==> 0 <= k < n
    ensures forall k :: 0 <= k < n ==> m[k]
  {
    if n == 0 then map[] else AllUnhandled(n - 1)[n - 1 := true]
  }

  /** The unhandled marks after the inner loop for entry `rt` has looked at
      the first `i` templates: those the entry handles are marked false. */
  function Marked(rt: ResourceType, templates: seq<Resource>, unhandled: map<int, bool>, i: nat): (m: map<int, bool>)
    requires i <= |templates|
    ensures forall k :: k in unhandled ==> k in m
    ensures forall k :: k in m ==> k in unhandled || 0 <= k < i
  {
    if i == 0 then unhandled
    else
      var m := Marked(rt, templates, unhandled, i - 1);
      if Handles(rt, templates[i - 1]) then m[i - 1 := false] else m
  }

  /** The unhandled marks after the entries of `table` have run. */
  function UnhandledAfter(table: seq<ResourceType>, templates: seq<Resource>): (m: map<int, bool>)
    ensures forall k :: k in m <==> 0 <= k < |templates|
  {
    if table == [] then AllUnhandled(|templates|)
    else Marked(table[|table| - 1], templates, UnhandledAfter(table[..|table| - 1], templates), |templates|)
  }

  /** Marking keeps the keys, and marks false exactly the templates the entry handles. */
  lemma {:induction false} MarkedAt(rt: ResourceType, templates: seq<Resource>, unhandled: map<int, bool>, i: nat, k: int)
    requires i <= |templates|
    requires forall j :: 0 <= j < i ==> j in unhandled
    ensures k in Marked(rt, templates, unhandled, i) <==> k in unhandled
    ensures k in unhandled ==>
      Marked(rt, templates, unhandled, i)[k] == (unhandled[k] && !(0 <= k < i && Handles(rt, templates[k])))
  {
    if i > 0 {
      MarkedAt(rt, templates, unhandled, i - 1, k);
    }
  }

  /** After the whole table, a template is unhandled exactly when no entry supports it. */
  lemma {:induction false} UnhandledAfterAt(table: seq<ResourceType>, templates: seq<Resource>, k: int)
    ensures k in UnhandledAfter(table, templates) <==> 0 <= k < |templates|
    ensures 0 <= k < |templates| ==> (UnhandledAfter(table, templates)[k] <==> !Supported(table, templates[k]))
  {
    if table != [] {
      var t := |table| - 1;
      var before := UnhandledAfter(table[..t], templates);
      UnhandledAfterAt(table[..t], templates, k);
      forall j | 0 <= j < |templates|
        ensures j in before
      {
        UnhandledAfterAt(table[..t], templates, j);
      }
      MarkedAt(table[t], templates, before, |templates|, k);
      if 0 <= k < |templates| {
        SupportedStep(table, t, templates[k]);
        assert table[..t + 1] == table;
      }
    }
  }

  /** When the first `i` templates are handled after the whole table, and
      template `i` is not (or there is none), FirstUnhandled is `i` (or -1). */
  lemma UnhandledAfterFirst(table: seq<ResourceType>, templates: seq<Resource>, i: nat)
    requires i <= |templates|
    requires forall k :: 0 <= k < i ==> !UnhandledAfter(table, templates)[k]
    requires i < |templates| ==> UnhandledAfter(table, templates)[i]
    ensures FirstUnhandled(table, templates) == if i < |templates| then i else -1
  {
    forall k | 0 <= k <= i && k < |templates|
      ensures (UnhandledAfter(table, templates)[k] <==> !Supported(table, templates[k]))
    {
      UnhandledAfterAt(table, templates, k);
    }
    FirstUnhandledSpec(table, templates);
  }

  /** The body of MkResources' inner loop for a template resource the entry
      handles. The template resources are values held by the template, so
      the deep copy is a new object with the same content; only the copy is
      changed. */
  method MkResource(execute: Executor, srt: ResourceType, template: Resource, ns: string,
                    templateVarValues: map<string, string>)
    returns (resource: Object, err: Option<Error>)
    ensures fresh(resource)
    ensures err.Some? ==> Instantiate(execute, srt, template, ns, templateVarValues) == Err(err.value)
    ensures err.None? ==> Instantiate(execute, srt, template, ns, templateVarValues) == Ok(resource.Snapshot())
  {
    resource := new Object(template);
    resource.SetNamespace(ns);
    err := ApplyResourceTemplate(resource, srt.templateAbleNameFields, templateVarValues, execute);
    if err.Some? {
      return;
    }
    err := ValidateResourceNameFields(resource, srt.templateAbleNameFields);
    if err.Some? {
      return;
    }
    err := ApplyResourceTemplate(resource, srt.templateAbleFields, templateVarValues, execute);
    if err.Some? {
      return;
    }
    if srt.ownerNameField.Some? {
      var ownerName := NestedString(resource.doc, srt.ownerNameField.value);
      if ownerName.Present? {
        SetWithoutUid(resource, srt.ownerAPI, ownerName.value, srt.ownerIsController, srt.ownerDeletionBlocked);
      }
    }
  }

  /** Once the templates up to `i` fail for an entry, the entry fails with the same error. */
  lemma {:induction false} ForEntryStops(execute: Executor, rt: ResourceType, inputs: seq<Resource>, ns: string,
                                         values: map<string, string>, i: nat)
    requires i <= |inputs| && ForEntry(execute, rt, inputs[..i], ns, values).Err?
    ensures ForEntry(execute, rt, inputs, ns, values) == ForEntry(execute, rt, inputs[..i], ns, values)
    decreases |inputs|
  {
    if i < |inputs| {
      assert inputs[..|inputs| - 1][..i] == inputs[..i];
      ForEntryStops(execute, rt, inputs[..|inputs| - 1], ns, values, i);
    } else {
      assert inputs[..i] == inputs;
    }
  }

  /** Once the entries up to `t` fail, the whole table fails with the same error. */
  lemma {:induction false} ForTableStops(execute: Executor, table: seq<ResourceType>, inputs: seq<Resource>, ns: string,
                                         values: map<string, string>, t: nat)
    requires t <= |table| && ForTable(execute, table[..t], inputs, ns, values).Err?
    ensures ForTable(execute, table, inputs, ns, values) == ForTable(execute, table[..t], inputs, ns, values)
    decreases |table|
  {
    if t < |table| {
      assert table[..|table| - 1][..t] == table[..t];
      ForTableStops(execute, table[..|table| - 1], inputs, ns, values, t);
    } else {
      assert table[..t] == table;
    }
  }

  /** Snapshots of a concatenation are the concatenated snapshots. */
  lemma {:induction false} SnapshotsAppend(objs: seq<Object>, more: seq<Object>)
    ensures Snapshots(objs + more) == Snapshots(objs) + Snapshots(more)
    decreases |more|
  {
    if more == [] {
      assert objs + more == objs;
    } else {
      var init := more[..|more| - 1];
      assert (objs + more)[..|objs + more| - 1] == objs + init;
      SnapshotsAppend(objs, init);
    }
  }

  /** Each snapshot is the state of the object at the same position. */
  lemma {:induction false} SnapshotsAt(objs: seq<Object>, i: int)
    requires 0 <= i < |objs|
    ensures Snapshots(objs)[i] == objs[i].Snapshot()
    decreases |objs|
  {
    if i < |objs| - 1 {
      SnapshotsAt(objs[..|objs| - 1], i);
    }
  }

  /** MkResources: the resources to be owned by a stream in namespace `ns`
      whose template values are `vals`, made from the variables and the
      resources of its template, by the entries of SupportedResourceTypes. */
  method MkResources(execute: Executor, ns: string, vars: seq<TemplateVariable>, vals: seq<TemplateValue>,
                     templates: seq<Resource>)
    returns (resources: seq<Object>, err: Option<Error>)
    ensures err.Some? ==> resources == [] && MkResourcesSpec(SupportedResourceTypes, execute, ns, vars, vals, templates) == Err(err.value)
    ensures err.None? ==> MkResourcesSpec(SupportedResourceTypes, execute, ns, vars, vals, templates) == Ok(Snapshots(resources))
    ensures forall o :: o in resources ==> fresh(o)
  {
    resources, err := MkResourcesFor(SupportedResourceTypes, execute, ns, vars, vals, templates);
  }

  /** The body of MkResources for a table of supported resource types. */
  method MkResourcesFor(table: seq<ResourceType>, execute: Executor, ns: string, vars: seq<TemplateVariable>,
                        vals: seq<TemplateValue>, templates: seq<Resource>)
    returns (resources: seq<Object>, err: Option<Error>)
    ensures err.Some? ==> resources == [] && MkResourcesSpec(table, execute, ns, vars, vals, templates) == Err(err.value)
    ensures err.None? ==> MkResourcesSpec(table, execute, ns, vars, vals, templates) == Ok(Snapshots(resources))
    ensures forall o :: o in resources ==> fresh(o)
  {
    var unhandledTemplates: map<int, bool> := map[];
    for i := 0 to |templates|
      invariant unhandledTemplates == AllUnhandled(i)
    {
      unhandledTemplates := unhandledTemplates[i := true];
    }
    var templateVarValues, varErr := GetVarValues(execute, vars, vals);
    if varErr.Some? {
      return [], varErr;
    }
    resources, unhandledTemplates, err := MkTableResources(table, execute, templates, ns, templateVarValues, unhandledTemplates);
    if err.Some? {
      return [], err;
    }
    err := CheckHandled(table, templates, unhandledTemplates);
    if err.Some? {
      return [], err;
    }
  }

  /** The outer loop of MkResources: the entries of the table in turn, until the first error. */
  method MkTableResources(table: seq<ResourceType>, execute: Executor, templates: seq<Resource>, ns: string,
                          templateVarValues: map<string, string>, unhandledTemplates: map<int, bool>)
    returns (resources: seq<Object>, unhandledAfter: map<int, bool>, err: Option<Error>)
    requires unhandledTemplates == AllUnhandled(|templates|)
    ensures err.Some? ==> ForTable(execute, table, templates, ns, templateVarValues) == Err(err.value)
    ensures err.None? ==> ForTable(execute, table, templates, ns, templateVarValues) == Ok(Snapshots(resources))
    ensures err.None? ==> unhandledAfter == UnhandledAfter(table, templates)
    ensures forall o :: o in resources ==> fresh(o)
  {
    resources := [];
    unhandledAfter := unhandledTemplates;
    for t := 0 to |table|
      invariant unhandledAfter == UnhandledAfter(table[..t], templates)
      invariant ForTable(execute, table[..t], templates, ns, templateVarValues) == Ok(Snapshots(resources))
      invariant forall o :: o in resources ==> fresh(o)
    {
      var e;
      resources, unhandledAfter, e := MkTableStep(table, t, execute, templates, ns, templateVarValues,
                                                  resources, unhandledAfter);
      if e.Some? {
        return [], unhandledAfter, e;
      }
    }
    assert table[..|table|] == table;
    err := None;
  }

  /** The body of the outer loop of MkResources for entry `t`: its
      resources are appended, and the templates it handles marked; its
      error is the error of the whole table. */
  method MkTableStep(table: seq<ResourceType>, t: nat, execute: Executor, templates: seq<Resource>, ns: string,
                     templateVarValues: map<string, string>, resources: seq<Object>, unhandled: map<int, bool>)
    returns (resources': seq<Object>, unhandled': map<int, bool>, err: Option<Error>)
    requires t < |table|
    requires unhandled == UnhandledAfter(table[..t], templates)
    requires ForTable(execute, table[..t], templates, ns, templateVarValues) == Ok(Snapshots(resources))
    ensures err.Some? ==> ForTable(execute, table, templates, ns, templateVarValues) == Err(err.value)
    ensures err.None? ==> ForTable(execute, table[..t + 1], templates, ns, templateVarValues) == Ok(Snapshots(resources'))
    ensures err.None? ==> unhandled' == UnhandledAfter(table[..t + 1], templates)
    ensures forall o :: o in resources' ==> o in resources || fresh(o)
  {
    assert table[..t + 1][..t] == table[..t];
    var made;
    made, unhandled', err := MkEntryResources(execute, table[t], templates, ns, templateVarValues, unhandled);
    resources' := resources;
    if err.None? {
      SnapshotsAppend(resources, made);
      resources' := resources + made;
    } else {
      ForTableStops(execute, table, templates, ns, templateVarValues, t + 1);
    }
  }

  /** The last loop of MkResources: an error for the first template
      resource no entry of the table handled. */
  method CheckHandled(table: seq<ResourceType>, templates: seq<Resource>, unhandledTemplates: map<int, bool>)
    returns (err: Option<Error>)
    requires unhandledTemplates == UnhandledAfter(table, templates)
    ensures err.None? <==> FirstUnhandled(table, templates) == -1
    ensures err.Some? ==> err.value == UnsupportedResourceType(GroupVersionKindOf(templates[FirstUnhandled(table, templates)].doc))
  {
    for i := 0 to |templates|
      invariant forall k :: 0 <= k < i ==> !unhandledTemplates[k]
    {
      if unhandledTemplates[i] {
        UnhandledAfterFirst(table, templates, i);
        return Some(UnsupportedResourceType(GroupVersionKindOf(templates[i].doc)));
      }
    }
    UnhandledAfterFirst(table, templates, |templates|);
    err := None;
  }

  /** The inner loop of MkResources for one entry `srt`: the templates it
      handles are marked as handled and made into resources, in template
      order, until the first error. */
  method MkEntryResources(execute: Executor, srt: ResourceType, templates: seq<Resource>, ns: string,
                          templateVarValues: map<string, string>, unhandledTemplates: map<int, bool>)
    returns (made: seq<Object>, unhandledAfter: map<int, bool>, err: Option<Error>)
    ensures err.Some? ==> ForEntry(execute, srt, templates, ns, templateVarValues) == Err(err.value)
    ensures err.None? ==> ForEntry(execute, srt, templates, ns, templateVarValues) == Ok(Snapshots(made))
    ensures err.None? ==> unhandledAfter == Marked(srt, templates, unhandledTemplates, |templates|)
    ensures forall o :: o in made ==> fresh(o)
  {
    made := [];
    unhandledAfter := unhandledTemplates;
    for i := 0 to |templates|
      invariant unhandledAfter == Marked(srt, templates, unhandledTemplates, i)
      invariant ForEntry(execute, srt, templates[..i], ns, templateVarValues) == Ok(Snapshots(made))
      invariant forall o :: o in made ==> fresh(o)
    {
      var e;
      made, unhandledAfter, e := MkEntryStep(execute, srt, templates, i, ns, templateVarValues, made,
                                             unhandledTemplates, unhandledAfter);
      if e.Some? {
        return [], unhandledAfter, e;
      }
    }
    assert templates[..|templates|] == templates;
    err := None;
  }

  /** The body of the inner loop of MkResources for template `i`: when the
      entry handles it, it is marked as handled and made into one more
      resource; an error making it is the error of the whole entry. */
  method MkEntryStep(execute: Executor, srt: ResourceType, templates: seq<Resource>, i: nat, ns: string,
                     templateVarValues: map<string, string>, made: seq<Object>,
                     ghost unhandledTemplates: map<int, bool>, unhandled: map<int, bool>)
    returns (made': seq<Object>, unhandled': map<int, bool>, err: Option<Error>)
    requires i < |templates|
    requires ForEntry(execute, srt, templates[..i], ns, templateVarValues) == Ok(Snapshots(made))
    requires unhandled == Marked(srt, templates, unhandledTemplates, i)
    ensures unhandled' == Marked(srt, templates, unhandledTemplates, i + 1)
    ensures err.Some? ==> ForEntry(execute, srt, templates, ns, templateVarValues) == Err(err.value)
    ensures err.None? ==> ForEntry(execute, srt, templates[..i + 1], ns, templateVarValues) == Ok(Snapshots(made'))
    ensures forall o :: o in made' ==> o in made || fresh(o)
  {
    made', unhandled' := made, unhandled;
    ForEntrySnoc(execute, srt, templates, i, ns, templateVarValues);
    var found := FindGVK(srt.supportedAPIs, GroupVersionKindOf(templates[i].doc));
    if !found {
      return made, unhandled, None;
    }
    unhandled' := unhandled[i := false];
    var resource;
    resource, err := MkResource(execute, srt, templates[i], ns, templateVarValues);
    if err.None? {
      SnapshotsAppend(made, [resource]);
      made' := made + [resource];
    } else {
      ForEntryStops(execute, srt, templates, ns, templateVarValues, i + 1);
    }
  }

  /** One more template for an entry: skipped when the entry does not handle
      it, otherwise made into a resource or the entry's error. */
  lemma ForEntrySnoc(execute: Executor, rt: ResourceType, inputs: seq<Resource>, i: nat, ns: string,
                     values: map<string, string>)
    requires i < |inputs| && ForEntry(execute, rt, inputs[..i], ns, values).Ok?
    ensures ForEntry(execute, rt, inputs[..i + 1], ns, values) ==
      if !Handles(rt, inputs[i]) then ForEntry(execute, rt, inputs[..i], ns, values)
      else match Instantiate(execute, rt, inputs[i], ns, values)
        case Err(e) => Err(e)
        case Ok(r) => Ok(ForEntry(execute, rt, inputs[..i], ns, values).value + [r])
  {
    assert inputs[..i + 1][..i] == inputs[..i];
  }

  /** Supported by the first t + 1 entries: supported by the first t, or by entry t. */
  lemma SupportedStep(table: seq<ResourceType>, t: nat, r: Resource)
    requires t < |table|
    ensures Supported(table[..t + 1], r) <==> Supported(table[..t], r) || Handles(table[t], r)
  {
    if Supported(table[..t + 1], r) {
      var k :| 0 <= k < t + 1 && Handles(table[..t + 1][k], r);
      if k < t {
        assert Handles(table[..t][k], r);
      }
    }
    if Supported(table[..t], r) {
      var k :| 0 <= k < t && Handles(table[..t][k], r);
      assert Handles(table[..t + 1][k], r);
    }
    if Handles(table[t], r) {
      assert Handles(table[..t + 1][t], r);
    }
  }
}
