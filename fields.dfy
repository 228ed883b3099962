/** Applying a field function to one field of a resource document
    (internal/template/unstructured.go): a key path names a string field, or,
    when it ends with "[]", a list of strings whose members are each
    handed to the function. Paths that are not found are ignored. */
module FieldFuncs {
  import opened Meta
  import opened Unstructured
  import opened Execute

  /** The (value, set, error) triple a field function returns for the
      current value of a field. */
  datatype FieldUpdate = FieldUpdate(value: string, doSet: bool, err: Option<Error>)

  /** fieldFunc */
  type FieldFunc = string -> FieldUpdate

  /** The marker that, as the last key of a path, stands for every member of a list. */
  const ListMarker: string := "[]"

  /** applyPlainFieldFunc on a document value. */
  function PlainApplied(doc: map<string, Value>, path: seq<string>, ff: FieldFunc): (r: Outcome)
    ensures r.err.Some? ==> r.doc == doc
    ensures NestedString(doc, path).Absent? ==> r == Outcome(None, doc)
  {
    match NestedString(doc, path)
    case ReadFailed(e) => Outcome(Some(ReadingObject(e)), doc)
    case Absent => Outcome(None, doc)
    case Present(s) =>
      var u := ff(s);
      if u.err.Some? then Outcome(u.err, doc)
      else if !u.doSet then Outcome(None, doc)
      else
        assert |path| > 0;
        match SetNestedField(doc, Str(u.value), path)
        case Ok(d) => Outcome(None, d)
        case Err(e) => Outcome(Some(UpdatingObject(e)), doc)
  }

  /** The loop of applySliceFieldFunc over the list `xs`: the new members
      (the function's value where it asks to set, the old member elsewhere)
      and whether any member asked to be set, or the first error. */
  function MapStrings(ff: FieldFunc, xs: seq<string>): (r: Result<(seq<string>, bool)>)
    ensures r.Ok? ==> |r.value.0| == |xs|
  {
    if xs == [] then Ok(([], false))
    else
      var last := xs[|xs| - 1];
      var prefix := xs[..|xs| - 1];
      match MapStrings(ff, prefix)
      case Err(e) => Err(e)
      case Ok(p) =>
        var u := ff(last);
        if u.err.Some? then Err(u.err.value)
        else Ok((p.0 + [if u.doSet then u.value else last], p.1 || u.doSet))
  }

  /** MapStrings succeeds exactly when no member fails; its list holds, member
      by member, the function's value where it asks to set and the old member
      elsewhere, and its flag says whether any member asked to be set; on
      failure it returns the error of the first failing member. */
  lemma {:induction false} MapStringsSpec(ff: FieldFunc, xs: seq<string>)
    ensures MapStrings(ff, xs).Ok? ==> forall i :: 0 <= i < |xs| ==>
      MapStrings(ff, xs).value.0[i] == (if ff(xs[i]).doSet then ff(xs[i]).value else xs[i])
    ensures MapStrings(ff, xs).Ok? ==> (MapStrings(ff, xs).value.1 <==> exists i :: 0 <= i < |xs| && ff(xs[i]).doSet)
    ensures MapStrings(ff, xs).Ok? <==> forall i :: 0 <= i < |xs| ==> ff(xs[i]).err.None?
    ensures MapStrings(ff, xs).Err? ==>
      exists i :: 0 <= i < |xs| && ff(xs[i]).err == Some(MapStrings(ff, xs).error) &&
        (forall k :: 0 <= k < i ==> ff(xs[k]).err.None?)
  {
    if xs != [] {
      var prefix := xs[..|xs| - 1];
      MapStringsSpec(ff, prefix);
      assert forall i :: 0 <= i < |prefix| ==> prefix[i] == xs[i];
      if MapStrings(ff, prefix).Err? {
        var i :| 0 <= i < |prefix| && ff(prefix[i]).err == Some(MapStrings(ff, prefix).error) &&
                 (forall k :: 0 <= k < i ==> ff(prefix[k]).err.None?);
        assert ff(xs[i]).err == Some(MapStrings(ff, xs).error);
      } else if ff(xs[|xs| - 1]).err.Some? {
        assert ff(xs[|xs| - 1]).err == Some(MapStrings(ff, xs).error);
      }
    }
  }

  /** Once a prefix of the list fails, the whole list fails with the same error. */
  lemma {:induction false} MapStringsErrPrefix(ff: FieldFunc, xs: seq<string>, j: nat)
    requires j <= |xs| && MapStrings(ff, xs[..j]).Err?
    ensures MapStrings(ff, xs) == MapStrings(ff, xs[..j])
    decreases |xs|
  {
    if j < |xs| {
      assert xs[..|xs| - 1][..j] == xs[..j];
      MapStringsErrPrefix(ff, xs[..|xs| - 1], j);
    } else {
      assert xs[..j] == xs;
    }
  }

  /** applySliceFieldFunc on a document value. */
  function SliceApplied(doc: map<string, Value>, path: seq<string>, ff: FieldFunc): (r: Outcome)
    ensures r.err.Some? ==> r.doc == doc
    ensures NestedStringSlice(doc, path).Absent? ==> r == Outcome(None, doc)
  {
    match NestedStringSlice(doc, path)
    case ReadFailed(e) => Outcome(Some(ReadingObject(e)), doc)
    case Absent => Outcome(None, doc)
    case Present(xs) =>
      match MapStrings(ff, xs)
      case Err(e) => Outcome(Some(e), doc)
      case Ok(p) =>
        if !p.1 then Outcome(None, doc)
        else
          assert |path| > 0;
          match SetNestedStringSlice(doc, p.0, path)
          case Ok(d) => Outcome(None, d)
          case Err(e) => Outcome(Some(UpdatingObject(e)), doc)
  }

  /** applyFieldFunc on a document value. The Go code indexes the last key,
      so an empty path panics there; that panic is not modelled and an empty
      path is excluded instead. */
  function FieldApplied(doc: map<string, Value>, path: seq<string>, ff: FieldFunc): (r: Outcome)
    requires |path| > 0
    ensures r.err.Some? ==> r.doc == doc
  {
    if path[|path| - 1] == ListMarker then SliceApplied(doc, path[..|path| - 1], ff)
    else PlainApplied(doc, path, ff)
  }

  /** The field function of applyFieldTemplate: the field's value is a
      template, rendered with `values` and always set. */
  function TemplateFieldFunc(execute: Executor, values: map<string, string>): FieldFunc
  {
    s => match execute(s, values)
      case Ok(v) => FieldUpdate(v, true, None)
      case Err(e) => FieldUpdate("", true, Some(e))
  }

  /** A string field the function asks to set is written, reads back as the
      new value, and nothing a diverging path sees changes; the write never
      fails, because the path was just read. */
  lemma PlainAppliedWrites(doc: map<string, Value>, path: seq<string>, ff: FieldFunc, s: string)
    requires NestedString(doc, path) == Present(s) && ff(s).err.None?
    ensures PlainApplied(doc, path, ff).err.None?
    ensures ff(s).doSet ==> NestedString(PlainApplied(doc, path, ff).doc, path) == Present(ff(s).value)
    ensures !ff(s).doSet ==> PlainApplied(doc, path, ff).doc == doc
    ensures forall q :: Diverge(path, q) ==> NestedField(PlainApplied(doc, path, ff).doc, q) == NestedField(doc, q)
  {
    assert |path| > 0;
    if ff(s).doSet {
      SetNestedFieldAfterRead(doc, Str(ff(s).value), path);
      SetNestedFieldReadBack(doc, Str(ff(s).value), path);
      forall q | Diverge(path, q)
        ensures NestedField(PlainApplied(doc, path, ff).doc, q) == NestedField(doc, q)
      {
        SetNestedFieldFrame(doc, Str(ff(s).value), path, q);
      }
    }
  }

  /** A list of strings whose members the function maps without error is
      replaced by the mapped list when some member asked to be set, and left
      alone otherwise; nothing a diverging path sees changes. */
  lemma SliceAppliedWrites(doc: map<string, Value>, path: seq<string>, ff: FieldFunc, xs: seq<string>)
    requires NestedStringSlice(doc, path) == Present(xs) && MapStrings(ff, xs).Ok?
    ensures SliceApplied(doc, path, ff).err.None?
    ensures MapStrings(ff, xs).value.1 ==>
      NestedStringSlice(SliceApplied(doc, path, ff).doc, path) == Present(MapStrings(ff, xs).value.0)
    ensures !MapStrings(ff, xs).value.1 ==> SliceApplied(doc, path, ff).doc == doc
    ensures forall q :: Diverge(path, q) ==> NestedField(SliceApplied(doc, path, ff).doc, q) == NestedField(doc, q)
  {
    assert |path| > 0;
    var vs := MapStrings(ff, xs).value.0;
    if MapStrings(ff, xs).value.1 {
      var v := List(StringValues(vs));
      SetNestedFieldAfterRead(doc, v, path);
      SetNestedFieldReadBack(doc, v, path);
      forall q | Diverge(path, q)
        ensures NestedField(SliceApplied(doc, path, ff).doc, q) == NestedField(doc, q)
      {
        SetNestedFieldFrame(doc, v, path, q);
      }
    }
  }

  /** The error of a failing field function is returned as it is, and the
      document is left as it was. */
  lemma PlainAppliedFails(doc: map<string, Value>, path: seq<string>, ff: FieldFunc, s: string)
    requires NestedString(doc, path) == Present(s) && ff(s).err.Some?
    ensures PlainApplied(doc, path, ff) == Outcome(ff(s).err, doc)
  {
  }

  /** A field that cannot be read is reported as a reading error. */
  lemma FieldAppliedReadError(doc: map<string, Value>, path: seq<string>, ff: FieldFunc)
    requires |path| > 0 && path[|path| - 1] != ListMarker && NestedString(doc, path).ReadFailed?
    ensures FieldApplied(doc, path, ff) == Outcome(Some(ReadingObject(NestedString(doc, path).err)), doc)
  {
  }

  const SomeValues: map<string, string> := map["foo" := "bar", "baz" := "bal"]

  /** The two templates of unstructured_internal_test.go render with its values. */
  lemma RenderSomeValues()
    ensures ExecuteTemplate("{{.foo}}", SomeValues) == Ok("bar")
    ensures ExecuteTemplate("{{.baz}}", SomeValues) == Ok("bal")
  {
    assert IsKey("foo") && IsKey("baz");
    assert "{{." + "foo" + "}}" == "{{.foo}}";
    assert "{{." + "baz" + "}}" == "{{.baz}}";
    ExecuteField("foo", SomeValues);
    ExecuteField("baz", SomeValues);
  }

  /** First and third entries of unstructured_internal_test.go: the named key
      is rendered, the other is not, and a path that is not found is ignored. */
  lemma ApplyFieldTemplateTopLevel()
    ensures var doc := map["key1" := Str("{{.foo}}"), "key2" := Str("{{.baz}}")];
      && FieldApplied(doc, ["key1"], TemplateFieldFunc(ExecuteTemplate, SomeValues))
         == Outcome(None, map["key1" := Str("bar"), "key2" := Str("{{.baz}}")])
      && FieldApplied(doc, ["key3", "key3a"], TemplateFieldFunc(ExecuteTemplate, SomeValues))
         == Outcome(None, doc)
  {
    RenderSomeValues();
    var doc := map["key1" := Str("{{.foo}}"), "key2" := Str("{{.baz}}")];
    assert doc["key1" := Str("bar")] == map["key1" := Str("bar"), "key2" := Str("{{.baz}}")];
  }

  /** Second entry of unstructured_internal_test.go: a nested key is rendered
      and its siblings are not. */
  lemma ApplyFieldTemplateNested()
    ensures var doc := map["key1" := Map(map["key1a" := Str("{{.foo}}"), "key1b" := Str("{{.baz}}")]),
                           "key2" := Map(map["key2a" := Str("{{.baz}}")])];
      FieldApplied(doc, ["key1", "key1b"], TemplateFieldFunc(ExecuteTemplate, SomeValues))
      == Outcome(None, map["key1" := Map(map["key1a" := Str("{{.foo}}"), "key1b" := Str("bal")]),
                           "key2" := Map(map["key2a" := Str("{{.baz}}")])])
  {
    RenderSomeValues();
    NestedTemplateApplied(ExecuteTemplate, SomeValues, "bal");
  }

  /** The nested entry with any engine that renders "{{.baz}}" as v. */
  lemma NestedTemplateApplied(execute: Executor, values: map<string, string>, v: string)
    requires execute("{{.baz}}", values) == Ok(v)
    ensures var doc := map["key1" := Map(map["key1a" := Str("{{.foo}}"), "key1b" := Str("{{.baz}}")]),
                           "key2" := Map(map["key2a" := Str("{{.baz}}")])];
      FieldApplied(doc, ["key1", "key1b"], TemplateFieldFunc(execute, values))
      == Outcome(None, map["key1" := Map(map["key1a" := Str("{{.foo}}"), "key1b" := Str(v)]),
                           "key2" := Map(map["key2a" := Str("{{.baz}}")])])
  {
    var inner := map["key1a" := Str("{{.foo}}"), "key1b" := Str("{{.baz}}")];
    assert inner["key1b" := Str(v)] == map["key1a" := Str("{{.foo}}"), "key1b" := Str(v)];
  }

  /** Appending a member that maps without error extends the mapped list by its new value. */
  lemma MapStringsSnoc(ff: FieldFunc, xs: seq<string>, x: string)
    requires MapStrings(ff, xs).Ok? && ff(x).err.None?
    ensures MapStrings(ff, xs + [x]) == Ok((MapStrings(ff, xs).value.0 + [if ff(x).doSet then ff(x).value else x],
                                            MapStrings(ff, xs).value.1 || ff(x).doSet))
  {
    assert (xs + [x])[..|xs|] == xs;
  }

  /** A two-member list whose members both ask to be set. */
  lemma MapStringsPair(ff: FieldFunc, x: string, y: string, vx: string, vy: string)
    requires ff(x) == FieldUpdate(vx, true, None) && ff(y) == FieldUpdate(vy, true, None)
    ensures MapStrings(ff, [x, y]) == Ok(([vx, vy], true))
  {
    var e: seq<string> := [];
    assert MapStrings(ff, e) == Ok((e, false));
    MapStringsSnoc(ff, e, x);
    assert e + [x] == [x];
    assert e + [vx] == [vx];
    MapStringsSnoc(ff, [x], y);
    assert [x] + [y] == [x, y];
    assert [vx] + [vy] == [vx, vy];
  }

  /** A top-level list of strings whose members all map without error, some asking to be set. */
  lemma SliceAppliedTopLevel(k: string, xs: seq<string>, ff: FieldFunc, vs: seq<string>)
    requires MapStrings(ff, xs) == Ok((vs, true))
    ensures FieldApplied(map[k := List(StringValues(xs))], [k, ListMarker], ff)
         == Outcome(None, map[k := List(StringValues(vs))])
  {
    var doc := map[k := List(StringValues(xs))];
    assert [k, ListMarker][..1] == [k];
    assert FieldAt(Map(doc), [k], 0) == FieldAt(List(StringValues(xs)), [k], 1);
    assert NestedStringSlice(doc, [k]) == Present(xs);
    assert SetNestedStringSlice(doc, vs, [k]) == Ok(doc[k := List(StringValues(vs))]);
    assert doc[k := List(StringValues(vs))] == map[k := List(StringValues(vs))];
    assert SliceApplied(doc, [k], ff) == Outcome(None, map[k := List(StringValues(vs))]);
  }

  /** Fourth entry of unstructured_internal_test.go: every member of a list is rendered. */
  lemma ApplyFieldTemplateList()
    ensures FieldApplied(map["key1" := List([Str("{{.foo}}"), Str("{{.baz}}")])], ["key1", ListMarker],
                         TemplateFieldFunc(ExecuteTemplate, SomeValues))
         == Outcome(None, map["key1" := List([Str("bar"), Str("bal")])])
  {
    RenderSomeValues();
    TemplatePairApplied("key1", ExecuteTemplate, SomeValues, "{{.foo}}", "{{.baz}}", "bar", "bal");
  }

  /** A top-level list of two templates that both render is replaced by the two renderings. */
  lemma TemplatePairApplied(k: string, execute: Executor, values: map<string, string>,
                            x: string, y: string, vx: string, vy: string)
    requires execute(x, values) == Ok(vx) && execute(y, values) == Ok(vy)
    ensures FieldApplied(map[k := List([Str(x), Str(y)])], [k, ListMarker], TemplateFieldFunc(execute, values))
         == Outcome(None, map[k := List([Str(vx), Str(vy)])])
  {
    var ff := TemplateFieldFunc(execute, values);
    MapStringsPair(ff, x, y, vx, vy);
    assert StringValues([x, y]) == [Str(x), Str(y)];
    assert StringValues([vx, vy]) == [Str(vx), Str(vy)];
    SliceAppliedTopLevel(k, [x, y], ff, [vx, vy]);
  }

  /** applyPlainFieldFunc */
  method ApplyPlainFieldFunc(res: Object, path: seq<string>, ff: FieldFunc) returns (err: Option<Error>)
    modifies res
    ensures Outcome(err, res.doc) == PlainApplied(old(res.doc), path, ff)
    ensures res.ownerReferences == old(res.ownerReferences)
  {
    var existing := NestedString(res.doc, path);
    if existing.ReadFailed? {
      return Some(ReadingObject(existing.err));
    }
    if existing.Absent? {
      return None;
    }
    var u := ff(existing.value);
    if u.err.Some? {
      return u.err;
    }
    if u.doSet {
      var updated := SetNestedField(res.doc, Str(u.value), path);
      if updated.Err? {
        return Some(UpdatingObject(updated.error));
      }
      res.doc := updated.value;
    }
    return None;
  }

  /** applySliceFieldFunc: the new members are collected in a buffer of the
      list's length, and the list is written back only when some member
      asked to be set. */
  method ApplySliceFieldFunc(res: Object, path: seq<string>, ff: FieldFunc) returns (err: Option<Error>)
    modifies res
    ensures Outcome(err, res.doc) == SliceApplied(old(res.doc), path, ff)
    ensures res.ownerReferences == old(res.ownerReferences)
  {
    var existing := NestedStringSlice(res.doc, path);
    if existing.ReadFailed? {
      return Some(ReadingObject(existing.err));
    }
    if existing.Absent? {
      return None;
    }
    var xs := existing.value;
    var valueArr := new string[|xs|];
    var setAny := false;
    for i := 0 to |xs|
      invariant MapStrings(ff, xs[..i]) == Ok((valueArr[..i], setAny))
      invariant res.doc == old(res.doc) && res.ownerReferences == old(res.ownerReferences)
    {
      assert xs[..i + 1][..i] == xs[..i];
      var u := ff(xs[i]);
      if u.err.Some? {
        assert MapStrings(ff, xs[..i + 1]) == Err(u.err.value);
        MapStringsErrPrefix(ff, xs, i + 1);
        return u.err;
      }
      if u.doSet {
        valueArr[i] := u.value;
      } else {
        valueArr[i] := xs[i];
      }
      setAny := setAny || u.doSet;
      assert valueArr[..i + 1] == valueArr[..i] + [valueArr[i]];
    }
    assert xs[..|xs|] == xs && valueArr[..|xs|] == valueArr[..];
    if setAny {
      var updated := SetNestedStringSlice(res.doc, valueArr[..], path);
      if updated.Err? {
        return Some(UpdatingObject(updated.error));
      }
      res.doc := updated.value;
    }
    return None;
  }

  /** applyFieldFunc (an empty path panics in Go and is excluded here) */
  method ApplyFieldFunc(res: Object, path: seq<string>, ff: FieldFunc) returns (err: Option<Error>)
    requires |path| > 0
    modifies res
    ensures Outcome(err, res.doc) == FieldApplied(old(res.doc), path, ff)
    ensures res.ownerReferences == old(res.ownerReferences)
  {
    if path[|path| - 1] == ListMarker {
      err := ApplySliceFieldFunc(res, path[..|path| - 1], ff);
    } else {
      err := ApplyPlainFieldFunc(res, path, ff);
    }
  }

  /** applyFieldTemplate (an empty path panics in Go and is excluded here) */
  method ApplyFieldTemplate(res: Object, path: seq<string>, execute: Executor, values: map<string, string>)
    returns (err: Option<Error>)
    requires |path| > 0
    modifies res
    ensures Outcome(err, res.doc) == FieldApplied(old(res.doc), path, TemplateFieldFunc(execute, values))
    ensures res.ownerReferences == old(res.ownerReferences)
  {
    err := ApplyFieldFunc(res, path, TemplateFieldFunc(execute, values));
  }
}
