/** The document `generate_open_api_spec` assembles from the two halves: every schema
    `$ref` a documented operation of the `paths` component makes names a schema of the
    `schemas` component. */
module OpenApiDocument {
  import opened PyText
  import opened PyValues
  import opened Convention
  import opened Resources
  import opened OpenApiNames
  import opened OpenApiPaths
  import OpenApiSchemaTable

  /** The `$ref`s of a list of responses, in order. */
  function ResponseRefs(responses: seq<Response>): (rs: seq<string>)
    ensures |rs| == |responses| && forall i :: 0 <= i < |rs| ==> rs[i] == responses[i].ref
  {
    if responses == [] then [] else [responses[0].ref] + ResponseRefs(responses[1..])
  }

  /** The schema `$ref`s of a request body and a list of responses. */
  function BodyAndResponseRefs(requestBody: Option<string>, responses: seq<Response>): seq<string> {
    (if requestBody.Some? then [requestBody.value] else []) + ResponseRefs(responses)
  }

  /** The schema `$ref`s an operation makes: those of its request body and responses.
      A custom endpoint's operation is copied from user data and is not inspected. */
  function OpRefs(op: Operation): seq<string> {
    match op
    case Documented(_, _, _, _, requestBody, responses, _) => BodyAndResponseRefs(requestBody, responses)
    case Custom(_, _, _, _) => []
  }

  /** The schemata of its own resource an action's operation refers to, besides the
      error schema. */
  function ActionKinds(a: Action): seq<SchemaKind> {
    match a
    case Create => [CreateSchema, ReadSchema]
    case Delete => [ReadSchema]
    case Edit => [EditSchema]
    case Index => [PaginatedSchema]
    case New => [NewSchema]
    case Show => [ReadSchema]
    case Update => [UpdateSchema, EditSchema]
    case Search => [SearchSchema, PaginatedSchema]
    case SearchPost => [SearchSchema, PaginatedSchema]
    case NewSearch => [NewSearchSchema]
  }

  /** The request body and the responses of an action name the error schema and exactly
      the schemata `ActionKinds` lists. */
  lemma ActionTargets(a: Action)
    ensures RequestBodyKind(a).Some? ==> RequestBodyKind(a).value in ActionKinds(a)
    ensures forall i :: 0 <= i < |ResponseTargets(a)| ==>
              ResponseTargets(a)[i].1 == ErrorRef || ResponseTargets(a)[i].1.kind in ActionKinds(a)
    ensures forall k :: k in ActionKinds(a) ==>
              RequestBodyKind(a) == Some(k) || ResponseTargets(a)[0].1 == KindRef(k)
  {
  }

  /** The `$ref`s of an action's operation: its request body's, then its responses'. */
  lemma OpRefsOfAction(a: Action, resource: string, plural: string -> string)
    ensures OpRefs(OperationOf(a, resource, plural)) ==
            BodyAndResponseRefs(RequestBody(a, resource, plural), Responses(a, resource, plural))
  {
  }

  /** The `$ref` of an action's `i`-th response is the path of its `i`-th target. */
  lemma ResponseRefAt(a: Action, resource: string, plural: string -> string, i: nat)
    requires i < |ResponseTargets(a)|
    ensures i < |ResponseRefs(Responses(a, resource, plural))|
    ensures ResponseRefs(Responses(a, resource, plural))[i] == RefPath(ResponseTargets(a)[i].1, resource, plural)
  {
    ResponsesOf(a, resource, plural);
  }

  lemma ResponseRefsLength(a: Action, resource: string, plural: string -> string)
    ensures |ResponseRefs(Responses(a, resource, plural))| == |ResponseTargets(a)|
  {
    ResponsesOf(a, resource, plural);
  }

  lemma ResponseRefOk(a: Action, resource: string, plural: string -> string, i: nat)
    requires i < |ResponseTargets(a)|
    ensures i < |ResponseRefs(Responses(a, resource, plural))|
    ensures var r := ResponseRefs(Responses(a, resource, plural))[i];
            r == ErrorSchemaPath() || exists k :: k in ActionKinds(a) && r == SchemaPath(k, resource, plural)
  {
    ResponseRefAt(a, resource, plural, i);
    ActionTargets(a);
    if ResponseTargets(a)[i].1 != ErrorRef {
      assert ResponseRefs(Responses(a, resource, plural))[i] == SchemaPath(ResponseTargets(a)[i].1.kind, resource, plural);
    }
  }

  /** Every `$ref` of an action's operation is the error schema's path or the path of a
      schema `ActionKinds` lists. */
  lemma ActionRefs(a: Action, resource: string, plural: string -> string)
    ensures forall r :: r in OpRefs(OperationOf(a, resource, plural)) ==>
              r == ErrorSchemaPath() || exists k :: k in ActionKinds(a) && r == SchemaPath(k, resource, plural)
  {
    OpRefsOfAction(a, resource, plural);
    BodyAndResponseRefsOf(a, resource, plural);
  }

  lemma BodyAndResponseRefsOf(a: Action, resource: string, plural: string -> string)
    ensures forall r :: r in BodyAndResponseRefs(RequestBody(a, resource, plural), Responses(a, resource, plural)) ==>
              r == ErrorSchemaPath() || exists k :: k in ActionKinds(a) && r == SchemaPath(k, resource, plural)
  {
    var body := RequestBody(a, resource, plural);
    var back := ResponseRefs(Responses(a, resource, plural));
    ResponseRefsLength(a, resource, plural);
    forall i | 0 <= i < |back|
      ensures back[i] == ErrorSchemaPath() || exists k :: k in ActionKinds(a) && back[i] == SchemaPath(k, resource, plural)
    {
      ResponseRefOk(a, resource, plural, i);
    }
    if body.Some? {
      BodyRefOk(a, resource, plural);
    }
  }

  lemma BodyRefOk(a: Action, resource: string, plural: string -> string)
    requires RequestBody(a, resource, plural).Some?
    ensures exists k :: k in ActionKinds(a) && RequestBody(a, resource, plural).value == SchemaPath(k, resource, plural)
  {
    ActionTargets(a);
    assert RequestBody(a, resource, plural).value == SchemaPath(RequestBodyKind(a).value, resource, plural);
  }

  /** Each schema `ActionKinds` lists is referred to by the action's operation. */
  lemma ActionRefsCover(a: Action, resource: string, plural: string -> string)
    ensures forall k :: k in ActionKinds(a) ==> SchemaPath(k, resource, plural) in OpRefs(OperationOf(a, resource, plural))
  {
    OpRefsOfAction(a, resource, plural);
    BodyAndResponseRefsCover(a, resource, plural);
  }

  lemma BodyAndResponseRefsCover(a: Action, resource: string, plural: string -> string)
    ensures forall k :: k in ActionKinds(a) ==>
              SchemaPath(k, resource, plural) in BodyAndResponseRefs(RequestBody(a, resource, plural), Responses(a, resource, plural))
  {
    var body := RequestBody(a, resource, plural);
    var front := if body.Some? then [body.value] else [];
    var back := ResponseRefs(Responses(a, resource, plural));
    var rs := front + back;
    forall k | k in ActionKinds(a) ensures SchemaPath(k, resource, plural) in rs {
      ActionTargets(a);
      if RequestBodyKind(a) == Some(k) {
        assert rs[0] == SchemaPath(k, resource, plural);
      } else {
        ResponseRefAt(a, resource, plural, 0);
        assert rs[|front|] == back[0];
      }
    }
  }

  /** The schemata a documented action refers to are generated for its resource: the
      mutating operations exist only for a mutable resource and the search operations
      only for a searchable one, just as their schemata. */
  lemma ActionKindsGenerated(a: Action, cfg: ResourceConfig)
    requires a in DocumentedActions(cfg)
    ensures forall k :: k in ActionKinds(a) ==> k in OpenApiSchemaTable.GeneratedKinds(cfg)
  {
    assert (a in ResourceActions && !SkipsAction(cfg.resourceCls, a)) || (a in SearchActions && IsSearchable(cfg)) by {
      DocumentedActionsDistinct(cfg);
    }
    forall k | k in ActionKinds(a) ensures k in OpenApiSchemaTable.GeneratedKinds(cfg) {
      OpenApiSchemaTable.GeneratedKindsSelection(cfg, k);
    }
  }

  /** Every `$ref` of every operation of `paths` resolves into `names`. */
  ghost predicate RefsResolve(paths: PathsDict, names: seq<string>) {
    forall p, m, r :: OpAt(paths, p, m).Some? && r in OpRefs(OpAt(paths, p, m).value) ==>
      OpenApiSchemaTable.Resolves(r, names)
  }

  /** The operations an edit writes make only `$ref`s into `names`. */
  predicate EditResolves(e: PathEdit, names: seq<string>) {
    match e
    case Put(_, _, _, op) => forall r :: r in OpRefs(op) ==> OpenApiSchemaTable.Resolves(r, names)
    case Assign(_, item) =>
      forall m, r :: m in item.operations && r in OpRefs(item.operations[m]) ==> OpenApiSchemaTable.Resolves(r, names)
  }

  lemma ApplyResolves(paths: PathsDict, e: PathEdit, names: seq<string>)
    requires RefsResolve(paths, names) && EditResolves(e, names)
    ensures RefsResolve(Apply(paths, e), names)
  {
    var r := Apply(paths, e);
    forall p, m, x | OpAt(r, p, m).Some? && x in OpRefs(OpAt(r, p, m).value)
      ensures OpenApiSchemaTable.Resolves(x, names)
    {
      if p != e.path || (e.Put? && m != e.verb) {
        assert OpAt(r, p, m) == OpAt(paths, p, m);
      }
    }
  }

  /** Edits whose operations make only resolving `$ref`s keep every `$ref` resolving. */
  lemma {:induction false} ApplyAllResolves(paths: PathsDict, es: seq<PathEdit>, names: seq<string>)
    requires RefsResolve(paths, names)
    requires forall e :: e in es ==> EditResolves(e, names)
    ensures RefsResolve(ApplyAll(paths, es), names)
    decreases |es|
  {
    if es != [] {
      var front := es[..|es| - 1];
      assert forall e :: e in front ==> e in es;
      ApplyAllResolves(paths, front, names);
      ApplyResolves(ApplyAll(paths, front), es[|es| - 1], names);
    }
  }

  /** `names` holds the error schema and every schema generated for the resource. */
  predicate Defines(names: seq<string>, resource: string, cfg: ResourceConfig, plural: string -> string) {
    ErrorSchemaName in names &&
    forall k :: k in OpenApiSchemaTable.GeneratedKinds(cfg) ==> SchemaName(k, resource, plural) in names
  }

  /** The operation of a documented action refers only to defined schemata. */
  lemma DocumentedRefsResolve(a: Action, resource: string, cfg: ResourceConfig, plural: string -> string,
                              names: seq<string>)
    requires a in DocumentedActions(cfg) && Defines(names, resource, cfg, plural)
    ensures forall r :: r in OpRefs(OperationOf(a, resource, plural)) ==> OpenApiSchemaTable.Resolves(r, names)
  {
    ActionRefs(a, resource, plural);
    ActionKindsGenerated(a, cfg);
    SchemaPathRoundTrip(ErrorSchemaName);
    forall k | k in ActionKinds(a) ensures OpenApiSchemaTable.Resolves(SchemaPath(k, resource, plural), names) {
      SchemaPathRoundTrip(SchemaName(k, resource, plural));
    }
  }

  /** Every edit one resource makes refers only to schemata defined for it. */
  lemma ResourceEditsResolve(resource: string, cfg: ResourceConfig, plural: string -> string, names: seq<string>)
    requires Defines(names, resource, cfg, plural)
    ensures forall e :: e in ResourceEdits(resource, cfg, plural) ==> EditResolves(e, names)
  {
    var cls := cfg.resourceCls;
    var docs := Puts(DocumentedActions(cfg), resource, cls, plural);
    var custom := CustomEdits(resource, plural, CustomEndpoints(cls.attributes));
    assert ResourceEdits(resource, cfg, plural) == docs + custom;
    DocumentedEditsResolve(resource, cfg, plural, names);
    CustomEditsResolve(resource, cfg, plural, names);
  }

  lemma DocumentedEditsResolve(resource: string, cfg: ResourceConfig, plural: string -> string, names: seq<string>)
    requires Defines(names, resource, cfg, plural)
    ensures forall e :: e in Puts(DocumentedActions(cfg), resource, cfg.resourceCls, plural) ==> EditResolves(e, names)
  {
    var cls := cfg.resourceCls;
    var acts := DocumentedActions(cfg);
    var docs := Puts(acts, resource, cls, plural);
    forall e | e in docs ensures EditResolves(e, names) {
      var i :| 0 <= i < |docs| && docs[i] == e;
      DocPutParts(acts[i], resource, cls, plural);
      DocumentedRefsResolve(acts[i], resource, cfg, plural, names);
    }
  }

  lemma CustomEditsResolve(resource: string, cfg: ResourceConfig, plural: string -> string, names: seq<string>)
    ensures forall e :: e in CustomEdits(resource, plural, CustomEndpoints(cfg.resourceCls.attributes)) ==>
              EditResolves(e, names)
  {
    var endpoints := CustomEndpoints(cfg.resourceCls.attributes);
    var custom := CustomEdits(resource, plural, endpoints);
    CustomEditsLength(resource, plural, endpoints);
    forall e | e in custom ensures EditResolves(e, names) {
      var i :| 0 <= i < |custom| && custom[i] == e;
      CustomEditAt(resource, plural, endpoints, i);
    }
  }

  lemma {:induction false} AllEditsResolve(rs: seq<(string, ResourceConfig)>, plural: string -> string,
                                           names: seq<string>)
    requires forall item :: item in rs ==> Defines(names, item.0, item.1, plural)
    ensures forall e :: e in AllEdits(rs, plural) ==> EditResolves(e, names)
    decreases |rs|
  {
    if rs != [] {
      var front := rs[..|rs| - 1];
      var last := rs[|rs| - 1];
      assert forall item :: item in front ==> item in rs;
      AllEditsResolve(front, plural, names);
      ResourceEditsResolve(last.0, last.1, plural, names);
    }
  }

  /** The schema table defines the error schema and every schema generated for each
      registered resource. */
  lemma SchemasDefine(resources: seq<(string, ResourceConfig)>, plural: string -> string)
    requires OpenApiSchemaTable.Schemas(resources, plural).Some?
    ensures var names := Keys(OpenApiSchemaTable.Schemas(resources, plural).value);
            forall item :: item in resources ==> Defines(names, item.0, item.1, plural)
  {
    var names := Keys(OpenApiSchemaTable.Schemas(resources, plural).value);
    assert ErrorSchemaName in names by {
      OpenApiSchemaTable.SchemasLayout(resources, plural);
      assert names[..2][0] == names[0];
    }
    forall item | item in resources ensures Defines(names, item.0, item.1, plural) {
      forall k | k in OpenApiSchemaTable.GeneratedKinds(item.1) ensures SchemaName(k, item.0, plural) in names {
        OpenApiSchemaTable.SchemasDefineGenerated(resources, plural, item, k);
      }
    }
  }

  /** In the generated document every schema `$ref` of a documented operation points at
      an entry of `components/schemas`. */
  lemma GeneratedRefsResolve(resources: seq<(string, ResourceConfig)>, plural: string -> string)
    requires OpenApiSchemaTable.Schemas(resources, plural).Some?
    ensures RefsResolve(GeneratedPaths(resources, plural),
                        Keys(OpenApiSchemaTable.Schemas(resources, plural).value))
  {
    var names := Keys(OpenApiSchemaTable.Schemas(resources, plural).value);
    var sorted := SortedItems(resources);
    SchemasDefine(resources, plural);
    forall item | item in sorted ensures Defines(names, item.0, item.1, plural) {
      assert item in multiset(sorted);
    }
    AllEditsResolve(sorted, plural, names);
    ApplyAllResolves(map[], AllEdits(sorted, plural), names);
  }
}
