# project-controller template engine, in Dafny

This project models the core of the Konflux project-controller. A
ProjectDevelopmentStream names a ProjectDevelopmentStreamTemplate and gives
values for its variables. The controller resolves those variables and
instantiates every resource of the template. Each resource is rendered with
the variables, checked against the Kubernetes name rule, placed in the
stream's namespace and given an owner. The resources are then applied, and a
`Ready` condition on the stream reports the outcome. The model also covers the
owner-reference helpers the engine uses, and the logr sink that turns log
calls into Kubernetes events.

Modules, one per component of the program:

- `Meta` (meta.dfy): errors, `Option`/`Result`, GroupVersion(Kind), the
  apiVersion parser and printer, owner references and conditions.
- `Unstructured` (unstructured.dfy): the JSON-like document of an unstructured
  object (`Str | Map | List | Null | Other`), the nested-field readers and
  writers, and the class `Object` (an `*unstructured.Unstructured` updated in
  place).
- `Execute` (execute.dfy): `hyphenize`, and `executeTemplate` as an abstract
  function type `Executor`. One small concrete engine (literal text, `{{.k}}`,
  `{{.k|hyphenize}}`) is used for the worked examples.
- `FieldFuncs` (fields.dfy): the field walker of internal/template/unstructured.go.
- `Ownership` (ownership.dfy): the owner-reference upsert and the product-reference test.
- `Resources` (resources.dfy): `supportedResourceTypes`, variable resolution,
  rendering, name validation and `MkResources`.
- `Guarantees` (guarantees.dfy): what `MkResources` promises about its output
  for the shipped table.
- `Controller` (controller.dfy): the Ready condition and one reconciliation,
  with every cluster call replaced by its outcome.
- `Eventr` (eventr.dfy): the event logger.

Code that loops or updates state in place is modelled as methods:
- the variable-resolution loop, the two loops of `MkResources`, field
  rendering and name validation;
- the slice walker, the owner upsert, `setReadyCondition` and the
  reconciliation's resource loop.

Each such method is proved equal to a function of its inputs. The properties
are then lemmas about those functions.

## Model

| member | source | states |
|---|---|---|
| Meta.ParseGroupVersionString | internal/ownership/without_uid.go:16-21 | the apiVersion written for a group and version parses back to that group and version when neither contains '/' |
| Meta.ParseGroupVersionFails | internal/ownership/without_uid.go:57-65 | an apiVersion fails to parse exactly when it has more than one '/' |
| Unstructured.SetNestedFieldReadBack | internal/template/resources.go:218 | after a successful write, the path reads back the written value |
| Unstructured.SetNestedFieldFrame | internal/template/unstructured.go:46-51 | a write leaves every path that diverges from the written one as it was |
| Unstructured.SetNestedFieldAfterRead | internal/template/unstructured.go:33-51 | a write to a path that was just read succeeds, and writing back the same value changes nothing |
| Unstructured.RemoveNestedFieldFrame | internal/template/unstructured.go:46-51 | removing a field leaves every diverging path as it was |
| Unstructured.StringValues | internal/template/unstructured.go:78-80 | a list of strings written as values reads back as the same strings |
| Unstructured.WithNamespaceReadBack | internal/template/resources.go:151 | after SetNamespace the object's namespace is the one set, whenever metadata is a map, null or absent |
| Unstructured.WithNamespaceFrame | internal/template/resources.go:151 | SetNamespace changes no path apart from metadata.namespace |
| Unstructured.Object.SetNamespace | internal/template/resources.go:151 | the document becomes WithNamespace of the old one; the owner references are unchanged |
| Execute.Hyphenize | internal/template/execute.go:9-14 | same length; every a-z/0-9 character is kept in place; every other character becomes '-'; only a-z, 0-9 and '-' remain |
| Execute.HyphenizeIdempotent | internal/template/execute.go:9-14 | hyphenizing twice is hyphenizing once |
| Execute.HyphenizeNameChars | internal/template/execute.go:9-14 | a string of a-z/0-9 only is left unchanged |
| Execute.HyphenizeVersion | internal/template/execute_internal_test.go:21-26 | "1.2.3" becomes "1-2-3" |
| Execute.ExecuteTemplate | internal/template/execute.go:16-27 | parse the whole template first, then render its nodes in order; a parse error or the first rendering error is the result |
| Execute.DigitAfterDotIsNoField | internal/template/execute.go:16-27 | an action '.' followed by a digit is never read as a field lookup |
| Execute.ExecuteLiteral | internal/template/execute.go:16-27 | text without actions renders as itself |
| Execute.ExecuteField | internal/template/execute.go:16-27 | "{{.k}}" renders the value of k, or "<no value>" when k is missing |
| Execute.ExecuteHyphenizedField | internal/template/execute.go:9-27 | "{{.k\|hyphenize}}" renders the hyphenized value of k; a missing k is an error, since hyphenize needs a string |
| Execute.ExecuteFieldExample | internal/template/execute_internal_test.go:15-20 | "{{.version}}" with version 1.2.3 renders "1.2.3" |
| Execute.ExecuteHyphenizeExample | internal/template/execute_internal_test.go:21-26 | "{{.version\|hyphenize}}" renders "1-2-3" |
| FieldFuncs.PlainApplied | internal/template/unstructured.go:33-53 | an absent path changes nothing and returns no error; on error the document is unchanged |
| FieldFuncs.PlainAppliedWrites | internal/template/unstructured.go:42-52 | a string field is written with the function's value only when it asks to set; no diverging path changes |
| FieldFuncs.PlainAppliedFails | internal/template/unstructured.go:42-45 | the field function's error is returned as it is and the document is unchanged |
| FieldFuncs.FieldAppliedReadError | internal/template/unstructured.go:34-37 | an unreadable scalar path gives the "error reading object" error and no change |
| FieldFuncs.MapStrings | internal/template/unstructured.go:64-77 | the per-element loop of the slice walker: new or old value per element, the setAny flag, or the first error |
| FieldFuncs.MapStringsSpec | internal/template/unstructured.go:64-77 | success iff no element fails; same length and order; each element is the new value where set, else the old one; setAny iff some element was set; an error is the first failing element's |
| FieldFuncs.MapStringsErrPrefix | internal/template/unstructured.go:66-70 | mapping stops at the first failing element |
| FieldFuncs.SliceApplied | internal/template/unstructured.go:55-85 | an absent list changes nothing and returns no error; on error the document is unchanged |
| FieldFuncs.SliceAppliedWrites | internal/template/unstructured.go:64-84 | the list is rewritten with the mapped strings exactly when some element was set; no diverging path changes |
| FieldFuncs.FieldApplied | internal/template/unstructured.go:25-31 | a final "[]" segment walks the string list at the prefix, any other path the string at the path; an error leaves the document unchanged |
| FieldFuncs.SliceAppliedTopLevel | internal/template/unstructured.go:25-31 | a final "[]" segment addresses the list of strings at the prefix |
| FieldFuncs.MapStringsSnoc | internal/template/unstructured.go:66-77 | one more element appends its new or old value and ORs its set flag |
| FieldFuncs.RenderSomeValues | internal/template/unstructured_internal_test.go:8-11 | "{{.foo}}" renders "bar" and "{{.baz}}" renders "bal" with the test's values |
| FieldFuncs.ApplyFieldTemplateTopLevel | internal/template/unstructured_internal_test.go:21-69 | only the addressed top-level key is rendered, and a path that is not found changes nothing |
| FieldFuncs.ApplyFieldTemplateNested | internal/template/unstructured_internal_test.go:34-56 | a nested path renders only the addressed leaf |
| FieldFuncs.NestedTemplateApplied | internal/template/unstructured.go:18-23 | only for the nested document of the unit test and the path key1.key1b: with any executor that renders "{{.baz}}" as v, that leaf becomes v and the rest of the document is kept (the general statement is PlainAppliedWrites) |
| FieldFuncs.ApplyFieldTemplateList | internal/template/unstructured_internal_test.go:70-86 | every member of an addressed list is rendered |
| FieldFuncs.TemplatePairApplied | internal/template/unstructured.go:18-23 | for any executor, both members of a two-element list become their renderings |
| FieldFuncs.ApplyPlainFieldFunc | internal/template/unstructured.go:33-53 | the resulting error and document are PlainApplied of the old document |
| FieldFuncs.ApplySliceFieldFunc | internal/template/unstructured.go:55-85 | the resulting error and document are SliceApplied of the old document |
| FieldFuncs.ApplyFieldFunc | internal/template/unstructured.go:25-31 | dispatches on a final "[]" segment; the result is FieldApplied of the old document |
| FieldFuncs.ApplyFieldTemplate | internal/template/unstructured.go:18-23 | the field function always asks to set and carries the executor's error |
| Ownership.NewOwnerRef | internal/ownership/without_uid.go:16-27 | the reference carries the owner's kind and name and no UID; Controller is set only when asked, and then to true; the same holds for BlockOwnerDeletion |
| Ownership.NewOwnerRefAPIVersion | internal/ownership/without_uid.go:16-21 | the apiVersion is the bare version for the empty group, otherwise group/version |
| Ownership.ReferSameGroupKind | internal/ownership/without_uid.go:56-66 | both apiVersions parse, to the same group, and the kinds are equal |
| Ownership.UnparseableNeverMatches | internal/ownership/without_uid.go:56-66 | a reference whose apiVersion does not parse matches nothing |
| Ownership.ReferSameGroupKindIgnoresVersion | internal/ownership/without_uid.go:56-66 | two references of the same group match iff their kinds are equal, whatever their versions |
| Ownership.ReferSameGroupKindSymmetric | internal/ownership/without_uid.go:56-66 | matching is symmetric |
| Ownership.ReferSameGroupKindTransitive | internal/ownership/without_uid.go:56-66 | matching is transitive |
| Ownership.FirstSameGroupKind | internal/ownership/without_uid.go:45-52 | the index of the first reference of the same group and kind, or -1 |
| Ownership.FirstSameGroupKindSpec | internal/ownership/without_uid.go:45-52 | -1 iff no reference matches; otherwise a matching index with no match before it |
| Ownership.IndexOwnerRef | internal/ownership/without_uid.go:45-52 | the search loop returns FirstSameGroupKind |
| Ownership.Upserted | internal/ownership/without_uid.go:33-41 | the owner references after upsertOwnerRef: the first match replaced, else the new reference appended |
| Ownership.UpsertReplacesFirst | internal/ownership/without_uid.go:33-41 | the first matching reference is replaced in place; the length and every other entry are unchanged |
| Ownership.UpsertAppends | internal/ownership/without_uid.go:35-36 | without a match the reference is appended after the unchanged list |
| Ownership.UpsertContains | internal/ownership/without_uid.go:28-41 | the new reference is in the list afterwards, which grows by at most one |
| Ownership.UpsertKeepsUnparseable | internal/ownership/without_uid.go:57-65 | a reference with an unparseable apiVersion is never replaced |
| Ownership.UpsertKeepsOnePerGroupKind | internal/ownership/without_uid.go:8-11 | at most one reference per group and kind before implies the same after |
| Ownership.UpsertOwnerRef | internal/ownership/without_uid.go:33-41 | the object's references become Upserted of the old ones; its document is unchanged |
| Ownership.SetWithoutUid | internal/ownership/without_uid.go:12-29 | upserts NewOwnerRef of the arguments and nothing else |
| Ownership.HasProductRef | internal/ownership/product.go:9-22 | true for an empty project; otherwise true iff some reference has the project's exact apiVersion, kind and name |
| Ownership.NoOwnersNoProductRef | internal/ownership/product.go:14-22 | a named project with no owner references has no product reference |
| Ownership.HasProductRefIgnoresOrderAndUnrelated | internal/ownership/product.go:16-21 | the answer ignores order and references that do not point at the project |
| Resources.GivenValues | internal/template/resources.go:260-263 | the last supplied name always has a value |
| Resources.FindGVK | internal/template/resources.go:189-196 | true iff the GVK equals one of the list exactly |
| Resources.GivenValuesNames | internal/template/resources.go:260-263 | the given values are keyed by exactly the supplied names |
| Resources.GivenValuesLastWins | internal/template/resources.go:261-263 | a name supplied twice keeps its last value |
| Resources.ResolveNames | internal/template/resources.go:264-272 | only declared variables get values |
| Resources.ResolveStops | internal/template/resources.go:269-279 | resolution stops at the first error |
| Resources.ResolveGivenWins | internal/template/resources.go:265-266 | a supplied value is used verbatim, whatever the default |
| Resources.ResolveDefault | internal/template/resources.go:267-272 | a default is rendered against the variables resolved before it, and the result is stored under the variable's name |
| Resources.ResolveMissing | internal/template/resources.go:273-278 | a variable with no value and no default gives an error naming it |
| Resources.ResolveDefaultFails | internal/template/resources.go:268-271 | a failing default rendering is the error of the resolution |
| Resources.ResolveComplete | internal/template/resources.go:264-280 | on success every declared variable has a value |
| Resources.Resolve | internal/template/resources.go:255-282 | the variables resolved in order from the given values and rendered defaults, stopping at the first error; on success the last variable has a value |
| Resources.GetVarValues | internal/template/resources.go:255-282 | the loop computes Resolve over the given values |
| Resources.TemplateApplied | internal/template/resources.go:206-222 | an absent path changes nothing; an unreadable path gives the read error; an error leaves the document unchanged |
| Resources.TemplateAppliedRenders | internal/template/resources.go:214-221 | a string field becomes its rendering and no diverging path changes |
| Resources.TemplateAppliedFails | internal/template/resources.go:214-217 | a rendering error becomes the error and the document is unchanged |
| Resources.TemplatesApplied | internal/template/resources.go:201-224 | each template-able path rendered in turn, stopping at the first error |
| Resources.TemplatesAppliedFrame | internal/template/resources.go:206-222 | paths that diverge from every template-able path are unchanged |
| Resources.TemplatesAppliedFirstReadFails | internal/template/resources.go:207-210 | an unreadable first path stops the loop with that error |
| Resources.ApplyResourceTemplate | internal/template/resources.go:201-224 | the loop computes TemplatesApplied of the old document; the owner references are unchanged |
| Resources.IsValidName | internal/template/resources.go:226 | the name pattern: non-empty, only a-z, 0-9 and '-', first and last a-z or 0-9 |
| Resources.HyphenizeValidName | internal/template/resources.go:226 | a hyphenized string is a valid name iff it is non-empty and starts and ends with a-z or 0-9 |
| Resources.NameFieldsError | internal/template/resources.go:231-251 | the first present string at the paths that is not a valid name, with its dotted path; other paths skipped |
| Resources.NameFieldsErrorSpec | internal/template/resources.go:235-250 | no error iff every present string at the paths is a valid name; an error names the first invalid value and its dotted path; absent and unreadable paths are skipped |
| Resources.ValidateResourceNameFields | internal/template/resources.go:231-251 | the loop returns NameFieldsError |
| Resources.NameFieldsExamples | internal/template/resources_internal_test.go:117-137 | "good-name" passes; "bad.name" fails naming key2.key2a, alone or after a good field |
| Resources.NameFieldsListPathSkipped | internal/template/resources.go:236-239 | a path through a list is skipped, so bad names inside a list raise no error |
| Resources.MatchingHandled | internal/template/resources.go:144-148 | every resource matched by an entry is an input that the entry handles |
| Resources.Handles | internal/template/resources.go:146 | an entry handles a template resource iff the resource's group, version and kind equal one the entry supports (findGVK) |
| Resources.OwnersAfter | internal/template/resources.go:161-174 | with an owner name field that reads as a string, the owner references with a reference to that owner upserted; otherwise the references unchanged (a missing or unreadable field skips the owner) |
| Resources.ForEntry | internal/template/resources.go:145-176 | the inner loop for one entry: the resources made from the templates it handles, in template order, each one Instantiate of its template; the first instantiation error ends it |
| Resources.ForTable | internal/template/resources.go:144-177 | the outer loop: the resources of each entry in table order, concatenated; the first entry error ends it |
| Resources.FirstUnhandled | internal/template/resources.go:178-185 | the index of the first template resource no entry supports, or -1 |
| Resources.ForEntryOk | internal/template/resources.go:145-176 | an entry makes one resource per input it handles, in input order, each instantiated |
| Resources.ForEntryErr | internal/template/resources.go:152-160 | an entry's error is the error of instantiating one of its inputs |
| Resources.ForTableHandled | internal/template/resources.go:144-177 | every resource made comes from an input handled by some entry |
| Resources.FirstUnhandledSpec | internal/template/resources.go:178-185 | -1 iff every input is supported; otherwise the first unsupported input |
| Resources.Instantiate | internal/template/resources.go:150-175 | a template resource in the namespace, its name fields rendered then validated, its other fields rendered, its owner upserted when the owner field holds a string |
| Resources.MkResource | internal/template/resources.go:150-175 | a fresh resource equal to Instantiate of the template, or its error |
| Resources.MkResourcesSpec | internal/template/resources.go:129-187 | the variable error, else the first instantiation error in table then template order, else an error for the first unsupported template resource, else all the resources made |
| Resources.MkResources | internal/template/resources.go:129-187 | the result is MkResourcesSpec of the inputs; no resources on error; all resources are fresh |
| Resources.MkResourcesFor | internal/template/resources.go:129-187 | as MkResources, for any table |
| Resources.MkTableResources | internal/template/resources.go:144-177 | the outer loop computes ForTable and the unhandled map |
| Resources.MkTableStep | internal/template/resources.go:144-177 | one entry of the outer loop extends ForTable by that entry |
| Resources.MkEntryResources | internal/template/resources.go:145-176 | the inner loop computes ForEntry and marks the handled inputs |
| Resources.MkEntryStep | internal/template/resources.go:145-176 | one input of the inner loop extends ForEntry and marks it if handled |
| Resources.CheckHandled | internal/template/resources.go:178-185 | no error iff every input is supported; otherwise an unsupported-type error for the first unsupported input |
| Resources.ResolveStep | internal/template/resources.go:264-279 | one turn of the resolution loop: a given value, else the rendered default, else a missing-variable error |
| Resources.ResolveKeeps | internal/template/resources.go:264-280 | a value stays as resolved unless a later variable has the same name |
| Resources.ForEntrySnoc | internal/template/resources.go:145-176 | one more input extends an entry's resources by its instance if handled, or stops on its error |
| Resources.SupportedStep | internal/template/resources.go:144-149 | an input is supported by a longer table prefix iff the shorter one or the new entry handles it |
| Resources.MarkedAt | internal/template/resources.go:145-149 | after the inner loop an input stays marked unhandled iff it was and the entry does not handle it |
| Resources.UnhandledAfterAt | internal/template/resources.go:136-149 | after both loops an input is marked unhandled iff no entry supports it |
| Guarantees.SupportedResourceTypesDisjoint | internal/template/resources.go:46-124 | no GVK is supported by two entries of the table |
| Guarantees.SupportedResourceTypesKeepIdentity | internal/template/resources.go:46-124 | every entry renders metadata.name first, and no template-able path touches namespace, apiVersion or kind; plain paths are apart from name paths |
| Guarantees.TemplatesAppliedKeepIdentity | internal/template/resources.go:206-222 | rendering paths that keep clear of them leaves namespace and GVK unchanged |
| Guarantees.TemplatesAppliedKeepNames | internal/template/resources.go:155-158 | rendering plain fields after validation keeps the name fields valid |
| Guarantees.InstantiateKeepsIdentity | internal/template/resources.go:150-160 | a made resource is in the stream's namespace, keeps its GVK and has valid names in its name fields |
| Guarantees.InstantiateSetsOwner | internal/template/resources.go:161-174 | the owner reference is added when the owner field holds a string, otherwise the references are unchanged; one reference per group and kind is kept |
| Guarantees.HandlerCountSpec | internal/template/resources.go:144-149 | in a disjoint table a resource has one handler if supported, else none |
| Guarantees.ForTableLength | internal/template/resources.go:144-177 | the number of resources made is the number of (entry, input) matches |
| Guarantees.MatchTotalLast | internal/template/resources.go:144-149 | the last input adds one match per entry that handles it |
| Guarantees.MatchTotalOnce | internal/template/resources.go:144-149 | when each input has exactly one handler there are as many matches as inputs |
| Guarantees.MkResourcesRejectsUnsupported | internal/template/resources.go:178-185 | one unsupported input makes MkResources fail, however the others fare |
| Guarantees.MkResourcesOnePerTemplate | internal/template/resources.go:144-186 | with a disjoint table, success gives one resource per input |
| Guarantees.MkResourcesWellFormed | internal/template/resources.go:144-186 | every output is in the namespace, has an input's GVK and valid names in its handler's name fields |
| Guarantees.MkResourcesGuarantees | internal/template/resources.go:129-187 | for supportedResourceTypes: one output per input, each in the namespace, with an input's GVK and valid names |
| Controller.ReadyUpserted | internal/controller/projectdevelopmentstream_controller.go:238-257 | the conditions after setReadyCondition: the first Ready condition overwritten, keeping its transition time when the status is unchanged, or a new one appended |
| Controller.FirstReady | internal/controller/projectdevelopmentstream_controller.go:251-252 | the index of the first Ready condition, -1 iff there is none |
| Controller.ReadyUpsertedSpec | internal/controller/projectdevelopmentstream_controller.go:238-275 | the first Ready condition is overwritten in place, with length and all other conditions unchanged, or a new one is appended; the transition time is kept iff the status is unchanged; the Ready condition reads back with the given status, reason, message and generation |
| Controller.Stream.SetReadyCondition | internal/controller/projectdevelopmentstream_controller.go:238-275 | the conditions become ReadyUpserted of the old ones; the owner references are unchanged; the update's error is returned |
| Controller.CheckProductOwnerRef | internal/controller/projectdevelopmentstream_controller.go:187-200 | the search loop returns HasProductRef |
| Controller.OwnedSpec | internal/controller/projectdevelopmentstream_controller.go:148-152 | an unowned resource gets the stream as its only owner; existing owners are kept; the document is kept; owning twice is owning once |
| Controller.PatchRun | internal/controller/projectdevelopmentstream_controller.go:140-155 | the resources patched in order by `requeue \|\| createOrUpdateResource(...)`, which stops patching once a conflict has set requeue |
| Controller.PatchRunSpec | internal/controller/projectdevelopmentstream_controller.go:140-155 | resources are patched in order up to and including the first conflict and none after; requeue iff some patch conflicted; without a conflict every resource is patched |
| Controller.OwnIfUnowned | internal/controller/projectdevelopmentstream_controller.go:148-152 | the resource becomes Owned of its old state |
| Controller.ApplyStep | internal/controller/projectdevelopmentstream_controller.go:140-155 | one turn of the loop keeps the loop's invariant |
| Controller.ApplyResources | internal/controller/projectdevelopmentstream_controller.go:140-155 | every resource becomes Owned of its old state, and the patched list and requeue flag are PatchRun of the owned resources |
| Controller.Reconcile | internal/controller/projectdevelopmentstream_controller.go:73-164 | result, error and patched resources are those of Expected; the conditions get "Reconciling" and then the final Ready condition, except when the stream could not be fetched |
| Controller.ReconcileTemplate | internal/controller/projectdevelopmentstream_controller.go:119-164 | the template part of Reconcile matches ExpectedFromTemplate |
| Controller.IgnoreNotFound | internal/controller/projectdevelopmentstream_controller.go:80-86 | a failed fetch that is a not-found error gives no error; any other failure gives its error |
| Controller.Expected | internal/controller/projectdevelopmentstream_controller.go:73-164 | the outcome of a reconciliation: a failed stream fetch returns the error unless not-found, with no condition; a stream that lacked its product owner reference and had it set successfully ends as Unknown/UpdatingOwnerRef; no template is True/NoTemplate; otherwise ExpectedFromTemplate |
| Controller.ExpectedFromTemplate | internal/controller/projectdevelopmentstream_controller.go:119-164 | a failed template fetch gives False/TemplateFetchFailed and the error unless not-found; a generation error gives False/TemplateGenerationFailed; otherwise the made resources are owned and patched in order, requeueing on a conflict; the stream becomes Unknown/ApplyingResources after a conflict and True/ResourcesApplied otherwise |
| Controller.StreamOwnerRef | internal/controller/projectdevelopmentstream_controller.go:151 | the reference SetOwnerReference adds: the stream's apiVersion, kind, name and UID, neither controller nor blocking owner deletion |
| Controller.Owned | internal/controller/projectdevelopmentstream_controller.go:148-152 | a resource with no owner references gets the stream as its only owner; one with owner references keeps them; the document is unchanged |
| Controller.ExpectedRequeue | internal/controller/projectdevelopmentstream_controller.go:140-163 | a requeue happens iff the template was fetched, its resources were made and patching one of them conflicted |
| Controller.AppliedVerdictRequeue | internal/controller/projectdevelopmentstream_controller.go:154 | the resource loop asks for a requeue iff some owned resource conflicts |
| Controller.ExpectedErrors | internal/controller/projectdevelopmentstream_controller.go:80-86 | an error is returned only for a failed fetch of the stream or template that is not a not-found error, never with a requeue; the Ready condition is written iff the stream was fetched |
| Controller.ExpectedAllApplied | internal/controller/projectdevelopmentstream_controller.go:157-163 | with no conflict every made resource is patched, owned, and the stream is True/ResourcesApplied without requeue |
| Eventr.NewEventr | pkg/logr/eventr/eventr.go:24-26 | a sink on the recorder and subject with no values |
| Eventr.Index | pkg/logr/eventr/eventr.go:58 | the first position holding the key, -1 iff none |
| Eventr.GetValueForKey | pkg/logr/eventr/eventr.go:56-67 | the default when the key is absent or is the last element |
| Eventr.GetValueForKeySpec | pkg/logr/eventr/eventr.go:56-67 | the element after the first occurrence decides: a string as it is, a Stringer's text, the default otherwise |
| Eventr.Reason | pkg/logr/eventr/eventr.go:35-41 | the call's eventReason, with the sink's as the default, and "Info" as the sink's default |
| Eventr.ReasonPrecedence | pkg/logr/eventr/eventr.go:35 | the call's eventReason, else the sink's, else "Info" |
| Eventr.Enabled | pkg/logr/eventr/eventr.go:30-32 | enabled iff the level is at most 0 |
| Eventr.Info | pkg/logr/eventr/eventr.go:34-37 | appends InfoEvent to the recorder's events |
| Eventr.InfoEvent | pkg/logr/eventr/eventr.go:34-37 | a "Normal" event on the subject carrying the message and the chosen reason |
| Eventr.Error | pkg/logr/eventr/eventr.go:39-42 | appends ErrorEvent to the recorder's events |
| Eventr.ErrorEvent | pkg/logr/eventr/eventr.go:39-42 | a "Warning" event carrying "msg: err" and the chosen reason |
| Eventr.WithValues | pkg/logr/eventr/eventr.go:44-50 | same recorder and subject; the new pairs come before the old ones |
| Eventr.WithName | pkg/logr/eventr/eventr.go:52-54 | the sink itself |
| Eventr.Examples | pkg/logr/eventr/eventr_test.go:48-81 | on a fresh logger for ConfigMap cm1: Info gives a Normal/Info event, Error a Warning event with "msg: err", an eventReason given at the call or with WithValues becomes the reason, and a level-1 Info records nothing |
| Eventr.WithValuesReason | pkg/logr/eventr/eventr.go:44-50 | without a new reason the old one holds; a new complete reason pair wins over the old pairs |
| Eventr.WithValuesDanglingKey | pkg/logr/eventr/eventr.go:44-67 | for every sink and every call without a reason: a reason key given alone to WithValues takes the sink's first earlier element as its value when that is a string or a Stringer, and "Info" otherwise or when the sink has no earlier pairs |
| Eventr.DanglingKeyExample | pkg/logr/eventr/eventr.go:44-67 | on a sink holding the pair ("earlier", "pair"), the dangling reason key gives the reason "earlier" |
| Eventr.LoggerInfo | pkg/logr/eventr/eventr_test.go:77-81 | an event is recorded iff the level is enabled |

## Left out

- Cluster I/O is not modelled. Fetching the stream, the template and the project, updating the stream and its status, and patching resources each become a given outcome. `createOrUpdateResource` is the `patch` parameter, and it asks for a requeue only on a conflict. The effect of `setProductOwnerRef` on the stream in memory is not modelled.
- `Controller.Reconcile`: the messages built with `fmt.Sprintf` ("Failed to fetch template: …", "Failed to generate resources from template: …") keep only their fixed prefix. The text of error values is not modelled; errors are a datatype.
- `Controller.ExpectedFromTemplate`: it writes those two messages, with only their fixed prefix, into the TemplateFetchFailed and TemplateGenerationFailed conditions.
- The current time is one parameter `now`, used for both setReadyCondition calls of a reconciliation.
- `ownership.AddMissingUIDs` (internal/ownership/add_missing_uids.go) is not part of this model. Before each patch (internal/controller/projectdevelopmentstream_controller.go:148) it looks up, in the cluster, every owner named by a reference without a UID and writes the UID it finds into that reference. The resources the model patches (`Controller.ApplyResources`, the `patched` list of `Controller.Expected`) therefore carry the UID-less references `Ownership.NewOwnerRef` builds, where Go's carry the UIDs found.
- pkg/logr/muxr/muxr.go is not part of this model either; it only fans out to other sinks. The logging calls are left out too, as they have no effect on results.
- `executeTemplate` is the abstract parameter `execute`. Go's text/template is not modelled; the small engine in `Execute` covers only the forms the tests use. Other actions, number constants such as `{{.9}}` among them, are refused with an error. The name regexes are character predicates.
- `Resources.NameFieldsListPathSkipped`: the code and internal/template/resources_internal_test.go:138-140 disagree. That test entry expects a bad name inside a list to be rejected, but the code only reads strings and skips a path that runs into a list. The model follows the code.
- `Resources.MkResources`: the objects returned are fresh, but their being pairwise distinct is not stated. The controller's resource loop is proved whatever aliasing there is.
- The loops of `MkResources` and the controller's resource loop are split into one method per turn (`MkEntryStep`, `MkTableStep`, `ApplyStep`). The loop methods call these.
- Eventr.Info: the note is `msg` itself. Go passes `msg` to `Eventf` as the format string, so the two agree only when `msg` holds no '%' verb; the controller's own messages hold none.
- Eventr.InfoEvent: the same assumption, that `msg` holds no '%' verb.
- `Eventr.LoggerInfo` models logr's own level check before calling the sink. logr itself is not part of this model. The note of `Error` is the formatted "msg: err".
- Owner references are kept beside the document, not inside metadata.ownerReferences. No template-able path touches them.
- FieldFuncs.FieldApplied: Go indexes the last key of the path, so an empty path panics (internal/template/unstructured.go:26). The panic is not modelled; the requires `|path| > 0` excludes it. No caller in the core passes an empty path: every template-able path is a non-empty constant.
- FieldFuncs.ApplyFieldFunc: the same empty-path panic, excluded by the same requires.
- FieldFuncs.ApplyFieldTemplate: the same empty-path panic, excluded by the same requires.
- Kubernetes types are records of the fields the core reads; scheme registration and the API types' markers are left out.
