/** The `paths` component of the document (`_get_paths`): resource by resource in name
    order, the documented CRUD operations, the two search operations of a searchable
    resource, and the path items of its custom endpoints, all written into one shared
    dict of path items. */
module OpenApiPaths {
  import opened PyText
  import opened PyValues
  import opened Convention
  import opened Resources
  import opened OpenApiNames

  /** A `get_ref_response` entry of a `responses` object: the status code and the `$ref`
      of the JSON content (the description is not kept). */
  datatype Response = Response(code: string, ref: string)

  /** An operation object. A documented operation keeps its `parameters` (the `$ref`s of
      the shared parameters; empty when the key is absent), the `$ref` of the schema of
      its `requestBody` (if it has one), its responses and tags. A custom endpoint's
      operation keeps the truthy optional attributes it copied, under the names it
      copied them as. */
  datatype Operation =
    | Documented(summary: string, description: string, operationId: string,
                 parameters: seq<string>, requestBody: Option<string>,
                 responses: seq<Response>, tags: seq<string>)
    | Custom(operationId: string, summary: string, description: string,
             extras: seq<(string, Json)>)

  /** A path item: its `parameters` (empty when the key is absent) and its operations by
      method key. */
  datatype PathItem = PathItem(parameters: seq<PathParam>, operations: map<string, Operation>)

  /** The `paths` dict (a plain dict, so its order is not modelled). */
  type PathsDict = map<string, PathItem>

  /** The operation stored under `verb` at `path`, if any. */
  function OpAt(paths: PathsDict, path: string, verb: string): Option<Operation> {
    if path in paths && verb in paths[path].operations then Some(paths[path].operations[verb])
    else None
  }

  // ---------------------------------------------------------------------------
  // The two ways the generator writes into the dict
  // ---------------------------------------------------------------------------

  /** `paths.setdefault(path, {...})[verb] = op` (the item created for a new path holds
      `params`), or `paths[path] = item`. */
  datatype PathEdit =
    | Put(path: string, params: seq<PathParam>, verb: string, op: Operation)
    | Assign(path: string, item: PathItem)

  function Apply(paths: PathsDict, e: PathEdit): PathsDict {
    match e
    case Put(path, params, verb, op) =>
      var item := if path in paths then paths[path] else PathItem(params, map[]);
      paths[path := item.(operations := item.operations[verb := op])]
    case Assign(path, item) => paths[path := item]
  }

  /** The edits carried out in order. */
  function ApplyAll(paths: PathsDict, es: seq<PathEdit>): PathsDict
    decreases |es|
  {
    if es == [] then paths else Apply(ApplyAll(paths, es[..|es| - 1]), es[|es| - 1])
  }

  lemma ApplyAllSnoc(paths: PathsDict, es: seq<PathEdit>, e: PathEdit)
    ensures ApplyAll(paths, es + [e]) == Apply(ApplyAll(paths, es), e)
  {
    assert (es + [e])[..|es|] == es;
  }

  lemma {:induction false} ApplyAllConcat(paths: PathsDict, a: seq<PathEdit>, b: seq<PathEdit>)
    ensures ApplyAll(paths, a + b) == ApplyAll(ApplyAll(paths, a), b)
    decreases |b|
  {
    if b != [] {
      var ab := a + b;
      var front := b[..|b| - 1];
      assert ab[..|ab| - 1] == a + front;
      assert ab[|ab| - 1] == b[|b| - 1];
      ApplyAllConcat(paths, a, front);
      assert ApplyAll(paths, ab) == Apply(ApplyAll(paths, a + front), b[|b| - 1]);
    } else {
      assert a + b == a;
    }
  }

  /** The paths the edits write. */
  function EditedPaths(es: seq<PathEdit>): set<string> {
    set i | 0 <= i < |es| :: es[i].path
  }

  /** The dict ends up with its old paths and the edited ones. */
  lemma {:induction false} ApplyAllKeys(paths: PathsDict, es: seq<PathEdit>)
    ensures ApplyAll(paths, es).Keys == paths.Keys + EditedPaths(es)
    decreases |es|
  {
    if es != [] {
      var front := es[..|es| - 1];
      ApplyAllKeys(paths, front);
      assert EditedPaths(es) == EditedPaths(front) + {es[|es| - 1].path} by {
        assert forall i :: 0 <= i < |front| ==> front[i] == es[i];
      }
    }
  }

  /** Whether an edit can change what is stored under `verb` at `path`. */
  predicate Touches(e: PathEdit, path: string, verb: string) {
    e.path == path && (e.Assign? || e.verb == verb)
  }

  /** Edits that do not touch a path and method key leave its operation as it was. */
  lemma {:induction false} Untouched(paths: PathsDict, es: seq<PathEdit>, path: string, verb: string)
    requires forall j :: 0 <= j < |es| ==> !Touches(es[j], path, verb)
    ensures OpAt(ApplyAll(paths, es), path, verb) == OpAt(paths, path, verb)
    decreases |es|
  {
    if es != [] {
      Untouched(paths, es[..|es| - 1], path, verb);
    }
  }

  /** Edits elsewhere leave a path item as it was. */
  lemma {:induction false} PathUntouched(paths: PathsDict, es: seq<PathEdit>, path: string)
    requires forall j :: 0 <= j < |es| ==> es[j].path != path
    ensures path in ApplyAll(paths, es) <==> path in paths
    ensures path in paths ==> ApplyAll(paths, es)[path] == paths[path]
    decreases |es|
  {
    if es != [] {
      PathUntouched(paths, es[..|es| - 1], path);
    }
  }

  /** The last `setdefault(...)[verb] = op` on a path and method key decides its operation. */
  lemma LastPutWins(paths: PathsDict, es: seq<PathEdit>, i: nat)
    requires i < |es| && es[i].Put?
    requires forall j :: i < j < |es| ==> !Touches(es[j], es[i].path, es[i].verb)
    ensures OpAt(ApplyAll(paths, es), es[i].path, es[i].verb) == Some(es[i].op)
  {
    var front := es[..i + 1];
    var back := es[i + 1..];
    var mid := ApplyAll(paths, front);
    assert ApplyAll(paths, es) == ApplyAll(mid, back) by {
      assert es == front + back;
      ApplyAllConcat(paths, front, back);
    }
    assert mid == Apply(ApplyAll(paths, es[..i]), es[i]) by {
      assert front[..i] == es[..i];
    }
    assert forall j :: 0 <= j < |back| ==> !Touches(back[j], es[i].path, es[i].verb) by {
      assert forall j :: 0 <= j < |back| ==> back[j] == es[i + 1 + j];
    }
    Untouched(mid, back, es[i].path, es[i].verb);
  }

  /** The last `paths[path] = item` on a path, with nothing after it on that path,
      decides the whole item. */
  lemma LastAssignWins(paths: PathsDict, es: seq<PathEdit>, i: nat)
    requires i < |es| && es[i].Assign?
    requires forall j :: i < j < |es| ==> es[j].path != es[i].path
    ensures es[i].path in ApplyAll(paths, es) && ApplyAll(paths, es)[es[i].path] == es[i].item
  {
    var front := es[..i + 1];
    var back := es[i + 1..];
    var mid := ApplyAll(paths, front);
    assert ApplyAll(paths, es) == ApplyAll(mid, back) by {
      assert es == front + back;
      ApplyAllConcat(paths, front, back);
    }
    assert mid == Apply(ApplyAll(paths, es[..i]), es[i]) by {
      assert front[..i] == es[..i];
    }
    assert forall j :: 0 <= j < |back| ==> back[j].path != es[i].path by {
      assert forall j :: 0 <= j < |back| ==> back[j] == es[i + 1 + j];
    }
    PathUntouched(mid, back, es[i].path);
  }

  /** A path that was absent and is only ever written by `setdefault` with the same
      parameters ends up holding those parameters. */
  lemma {:induction false} NewPathParameters(paths: PathsDict, es: seq<PathEdit>, path: string,
                                             params: seq<PathParam>)
    requires path !in paths
    requires forall j :: 0 <= j < |es| && es[j].path == path ==> es[j].Put? && es[j].params == params
    ensures path in ApplyAll(paths, es) ==> ApplyAll(paths, es)[path].parameters == params
    decreases |es|
  {
    if es != [] {
      NewPathParameters(paths, es[..|es| - 1], path, params);
    }
  }

  /** A path that is present and never reassigned keeps its parameters. */
  lemma {:induction false} OldPathParameters(paths: PathsDict, es: seq<PathEdit>, path: string)
    requires path in paths
    requires forall j :: 0 <= j < |es| && es[j].path == path ==> es[j].Put?
    ensures path in ApplyAll(paths, es) && ApplyAll(paths, es)[path].parameters == paths[path].parameters
    decreases |es|
  {
    if es != [] {
      OldPathParameters(paths, es[..|es| - 1], path);
    }
  }

  // ---------------------------------------------------------------------------
  // The operations of an action
  // ---------------------------------------------------------------------------

  /** The `$ref`s `_get_index_parameters` returns. */
  const IndexParameters: seq<string> := [
    "#/components/parameters/items_per_page",
    "#/components/parameters/page",
    "#/components/parameters/order_by_attribute",
    "#/components/parameters/order_by_subattribute",
    "#/components/parameters/order_by_direction"]

  /** `_get_<action>_parameters`: only `index` has such a getter, which refers to the
      five shared paging and ordering parameters. */
  function Parameters(a: Action): (ps: seq<string>)
    ensures ps != [] <==> a == Index
    ensures a == Index ==> |ps| == 5 && forall k :: 0 <= k < |ps| ==> "#/components/parameters/" <= ps[k]
  {
    if a == Index then IndexParameters else []
  }

  /** The schema that a request body or response refers to: the shared error schema or
      one of the resource's own. */
  datatype SchemaRef = ErrorRef | KindRef(kind: SchemaKind)

  function RefPath(t: SchemaRef, resource: string, plural: string -> string): string {
    match t
    case ErrorRef => ErrorSchemaPath()
    case KindRef(k) => SchemaPath(k, resource, plural)
  }

  /** The schema of `_get_<action>_request_body`: the create and update schemata, and the
      search schema for both search actions; the other actions have no getter. */
  function RequestBodyKind(a: Action): (k: Option<SchemaKind>)
    ensures k.Some? <==> a in [Create, Update, Search, SearchPost]
    ensures a == Create ==> k == Some(CreateSchema)
    ensures a == Update ==> k == Some(UpdateSchema)
    ensures a == Search || a == SearchPost ==> k == Some(SearchSchema)
  {
    match a
    case Create => Some(CreateSchema)
    case Update => Some(UpdateSchema)
    case Search => Some(SearchSchema)
    case SearchPost => Some(SearchSchema)
    case _ => None
  }

  function RequestBody(a: Action, resource: string, plural: string -> string): Option<string> {
    if RequestBodyKind(a).Some? then Some(SchemaPath(RequestBodyKind(a).value, resource, plural)) else None
  }

  /** `_get_<action>_responses`: the status codes and the schemata they return. The first
      is the success response (201 for create, 200 otherwise) with a schema of the
      resource; every other one is an error response with the error schema; no code is
      listed twice. */
  function ResponseTargets(a: Action): (ts: seq<(string, SchemaRef)>)
    ensures ts != [] && ts[0].0 == (if a == Create then "201" else "200") && ts[0].1.KindRef?
    ensures forall k :: 0 < k < |ts| ==> ts[k].1 == ErrorRef && ts[k].0 in ["400", "403", "404"]
    ensures forall i, j :: 0 <= i < j < |ts| ==> ts[i].0 != ts[j].0
  {
    match a
    case Create => [("201", KindRef(ReadSchema)), ("400", ErrorRef)]
    case Delete => [("200", KindRef(ReadSchema)), ("404", ErrorRef), ("403", ErrorRef)]
    case Edit => [("200", KindRef(EditSchema)), ("404", ErrorRef), ("403", ErrorRef)]
    case Index => [("200", KindRef(PaginatedSchema)), ("400", ErrorRef)]
    case New => [("200", KindRef(NewSchema))]
    case Show => [("200", KindRef(ReadSchema)), ("404", ErrorRef), ("403", ErrorRef)]
    case Update => [("200", KindRef(EditSchema)), ("404", ErrorRef), ("403", ErrorRef), ("400", ErrorRef)]
    case Search => [("200", KindRef(PaginatedSchema)), ("400", ErrorRef)]
    case SearchPost => [("200", KindRef(PaginatedSchema)), ("400", ErrorRef)]
    case NewSearch => [("200", KindRef(NewSearchSchema))]
  }

  /** The `get_ref_response(code, schema_path)` entries of those responses: one per
      target, with its code and the `$ref` path of its schema. */
  function Responses(a: Action, resource: string, plural: string -> string): seq<Response> {
    ResponseEntries(ResponseTargets(a), resource, plural)
  }

  function ResponseEntries(ts: seq<(string, SchemaRef)>, resource: string, plural: string -> string): seq<Response> {
    if ts == [] then []
    else [Response(ts[0].0, RefPath(ts[0].1, resource, plural))] + ResponseEntries(ts[1..], resource, plural)
  }

  lemma {:induction false} ResponseEntriesAt(ts: seq<(string, SchemaRef)>, resource: string, plural: string -> string)
    ensures var es := ResponseEntries(ts, resource, plural);
            |es| == |ts| && forall i :: 0 <= i < |ts| ==> es[i] == Response(ts[i].0, RefPath(ts[i].1, resource, plural))
    decreases |ts|
  {
    if ts != [] {
      var es := ResponseEntries(ts, resource, plural);
      var tail := ResponseEntries(ts[1..], resource, plural);
      ResponseEntriesAt(ts[1..], resource, plural);
      assert es == [Response(ts[0].0, RefPath(ts[0].1, resource, plural))] + tail;
      forall i | 0 < i < |ts| ensures es[i] == Response(ts[i].0, RefPath(ts[i].1, resource, plural)) {
        assert es[i] == tail[i - 1];
        assert ts[1..][i - 1] == ts[i];
      }
    }
  }

  /** An action's responses: one per target, with its status code and the `$ref` path of
      its schema. */
  lemma ResponsesOf(a: Action, resource: string, plural: string -> string)
    ensures var rs := Responses(a, resource, plural);
            |rs| == |ResponseTargets(a)| &&
            forall i :: 0 <= i < |rs| ==>
              rs[i] == Response(ResponseTargets(a)[i].0, RefPath(ResponseTargets(a)[i].1, resource, plural))
  {
    ResponseEntriesAt(ResponseTargets(a), resource, plural);
  }

  /** The operation object both loops build for an action. */
  function OperationOf(a: Action, resource: string, plural: string -> string): Operation {
    var collection := plural(resource);
    var (summary, description) := Summarize(a, resource, collection);
    Documented(summary, description, OperationId(ActionName(a), resource), Parameters(a),
               RequestBody(a, resource, plural), Responses(a, resource, plural), [collection])
  }

  /** The operation of an action is documented under the id `_get_operation_id` gives
      its action name, with the action's parameters, request body and responses, tagged
      with the collection name, and with a summary equal to its description that ends
      with the resource or the collection name. */
  lemma OperationParts(a: Action, resource: string, plural: string -> string)
    ensures var op := OperationOf(a, resource, plural);
            op.Documented? && op.operationId == OperationId(ActionName(a), resource) &&
            op.parameters == Parameters(a) && op.requestBody == RequestBody(a, resource, plural) &&
            op.responses == Responses(a, resource, plural) &&
            op.tags == [plural(resource)] && op.summary == op.description &&
            EndsWith(op.summary, (if SummarisesCollection(a) then plural(resource) else resource) + ".")
  {
  }

  /** `ACTIONS2METHODS.get(action, DEFAULT_METHOD).lower()` */
  function CrudMethod(a: Action): string {
    Lower(HttpMethodOf(a))
  }

  /** The path of a CRUD action and the parameters of a new item for it:
      collection-targeting actions on `/coll/`, member-targeting ones on `/coll/{pk}/`,
      `new` on `/coll/new/` and (the default case) `edit` on `/coll/{pk}/edit/`. */
  function CrudPath(a: Action, resource: string, cls: ResourceClass, plural: string -> string)
    : (string, seq<PathParam>)
  {
    var collection := plural(resource);
    if IsCollectionTargeting(a) then (CollectionOpenApiPath(collection, []), [])
    else if IsMemberTargeting(a) then MemberOpenApiPath(resource, collection, cls.primaryKey, [])
    else if a == New then (CollectionOpenApiPath(collection, ["new"]), [])
    else MemberOpenApiPath(resource, collection, cls.primaryKey, ["edit"])
  }

  /** The loop body of `_set_crud_paths` for one action. */
  function CrudPut(a: Action, resource: string, cls: ResourceClass, plural: string -> string): PathEdit {
    var (path, params) := CrudPath(a, resource, cls, plural);
    Put(path, params, CrudMethod(a), OperationOf(a, resource, plural))
  }

  /** A read-only resource skips the mutating actions. */
  predicate SkipsAction(cls: ResourceClass, a: Action) {
    !cls.mutable && IsMutating(a)
  }

  /** The actions `_set_crud_paths` documents, of the ones it visits. */
  function CrudActions(cls: ResourceClass, actions: seq<Action>): seq<Action>
    decreases |actions|
  {
    if actions == [] then []
    else
      var a := actions[|actions| - 1];
      CrudActions(cls, actions[..|actions| - 1]) + (if SkipsAction(cls, a) then [] else [a])
  }

  /** The actions `_set_search_paths` visits. */
  const SearchActions: seq<Action> := [SearchPost, NewSearch]

  /** The method key of a search action (the `'search'` default is never used). */
  function SearchMethod(a: Action): string {
    if a == SearchPost then "post" else if a == NewSearch then "get" else "search"
  }

  function SearchModifiers(a: Action): seq<string> {
    if a == SearchPost then ["search"] else if a == NewSearch then ["new_search"] else []
  }

  /** The loop body of `_set_search_paths` for one action. */
  function SearchPut(a: Action, resource: string, plural: string -> string): PathEdit {
    Put(CollectionOpenApiPath(plural(resource), SearchModifiers(a)), [], SearchMethod(a),
        OperationOf(a, resource, plural))
  }

  /** The edit either loop makes for a documented action. */
  function DocPut(a: Action, resource: string, cls: ResourceClass, plural: string -> string): PathEdit {
    if a in SearchActions then SearchPut(a, resource, plural) else CrudPut(a, resource, cls, plural)
  }

  /** The edits made for `acts`, in order. */
  function Puts(acts: seq<Action>, resource: string, cls: ResourceClass, plural: string -> string)
    : (es: seq<PathEdit>)
    ensures |es| == |acts|
  {
    seq(|acts|, i requires 0 <= i < |acts| => DocPut(acts[i], resource, cls, plural))
  }

  lemma PutsConcat(xs: seq<Action>, ys: seq<Action>, resource: string, cls: ResourceClass, plural: string -> string)
    ensures Puts(xs + ys, resource, cls, plural) == Puts(xs, resource, cls, plural) + Puts(ys, resource, cls, plural)
  {
    var l := Puts(xs + ys, resource, cls, plural);
    var r := Puts(xs, resource, cls, plural) + Puts(ys, resource, cls, plural);
    forall i | 0 <= i < |l| ensures l[i] == r[i] {
      if i < |xs| {
        assert (xs + ys)[i] == xs[i];
      } else {
        assert (xs + ys)[i] == ys[i - |xs|];
      }
    }
  }

  lemma PutsSnoc(xs: seq<Action>, a: Action, resource: string, cls: ResourceClass, plural: string -> string)
    ensures Puts(xs + [a], resource, cls, plural) == Puts(xs, resource, cls, plural) + [DocPut(a, resource, cls, plural)]
  {
    var l := Puts(xs + [a], resource, cls, plural);
    var r := Puts(xs, resource, cls, plural) + [DocPut(a, resource, cls, plural)];
    forall i | 0 <= i < |l| ensures l[i] == r[i] {
      if i < |xs| {
        assert (xs + [a])[i] == xs[i];
      }
    }
  }

  /** The actions the document describes for a resource: the CRUD actions it keeps, then
      the two search actions when the resource is searchable. */
  function DocumentedActions(cfg: ResourceConfig): seq<Action> {
    CrudActions(cfg.resourceCls, ResourceActions) + (if IsSearchable(cfg) then SearchActions else [])
  }

  /** The optional attributes `_set_custom_paths` copies, each only when truthy, in the
      order it visits them, under the attribute names. */
  function CustomExtras(e: CustomEndPoint): (extras: seq<(string, Json)>)
    ensures ("parameters", e.parameters) in extras <==> Truthy(e.parameters)
    ensures ("request_body", e.requestBody) in extras <==> Truthy(e.requestBody)
    ensures ("responses", e.responses) in extras <==> Truthy(e.responses)
    ensures ("tags", e.tags) in extras <==> Truthy(e.tags)
    ensures forall p :: p in extras ==> Truthy(p.1) && p.0 in ["parameters", "request_body", "responses", "tags"]
  {
    (if Truthy(e.parameters) then [("parameters", e.parameters)] else []) +
    (if Truthy(e.requestBody) then [("request_body", e.requestBody)] else []) +
    (if Truthy(e.responses) then [("responses", e.responses)] else []) +
    (if Truthy(e.tags) then [("tags", e.tags)] else [])
  }

  /** `'/{}/{}'.format(rsrc_collection_name, custom_endpoint.path)` */
  function CustomPath(collection: string, e: CustomEndPoint): string {
    "/" + collection + "/" + e.path
  }

  /** The path item a custom endpoint assigns: its one operation under its HTTP method,
      taken as given. */
  function CustomItem(e: CustomEndPoint, resource: string): PathItem {
    PathItem([], map[e.httpMethod := Custom(OperationId(e.action, resource), e.summary, e.description,
                                            CustomExtras(e))])
  }

  /** A custom endpoint's path item has no parameters and one operation, under the
      endpoint's method: its id, summary and description, and the user data copied as
      `CustomExtras` says. */
  lemma CustomItemOf(e: CustomEndPoint, resource: string)
    ensures var item := CustomItem(e, resource);
            item.parameters == [] && item.operations.Keys == {e.httpMethod}
    ensures var op := CustomItem(e, resource).operations[e.httpMethod];
            op.Custom? && op.operationId == OperationId(e.action, resource) &&
            op.summary == e.summary && op.description == e.description && op.extras == CustomExtras(e)
  {
  }

  /** The edits of `_set_custom_paths` over `endpoints`. */
  function CustomEdits(resource: string, plural: string -> string, endpoints: seq<CustomEndPoint>): seq<PathEdit>
    decreases |endpoints|
  {
    if endpoints == [] then []
    else
      var e := endpoints[|endpoints| - 1];
      CustomEdits(resource, plural, endpoints[..|endpoints| - 1]) +
      [Assign(CustomPath(plural(resource), e), CustomItem(e, resource))]
  }

  /** One iteration of `_get_paths`: the CRUD edits, the search edits when the resource
      is searchable, then the custom ones. */
  function ResourceEdits(resource: string, cfg: ResourceConfig, plural: string -> string): seq<PathEdit> {
    Puts(DocumentedActions(cfg), resource, cfg.resourceCls, plural) +
    CustomEdits(resource, plural, CustomEndpoints(cfg.resourceCls.attributes))
  }

  function AllEdits(rs: seq<(string, ResourceConfig)>, plural: string -> string): seq<PathEdit>
    decreases |rs|
  {
    if rs == [] then []
    else AllEdits(rs[..|rs| - 1], plural) + ResourceEdits(rs[|rs| - 1].0, rs[|rs| - 1].1, plural)
  }

  /** `_get_paths()` over the registry's items, visited in name order. */
  function GeneratedPaths(resources: seq<(string, ResourceConfig)>, plural: string -> string): PathsDict {
    ApplyAll(map[], AllEdits(SortedItems(resources), plural))
  }

  // ---------------------------------------------------------------------------
  // The loops
  // ---------------------------------------------------------------------------

  /** `paths.setdefault(path, {...})[verb] = op`: the item is created, holding `params`,
      only when the path is new. */
  method SetDefaultPut(paths: PathsDict, path: string, params: seq<PathParam>, verb: string, op: Operation)
    returns (r: PathsDict)
    ensures r == Apply(paths, Put(path, params, verb, op))
  {
    var item := if path in paths then paths[path] else PathItem(params, map[]);
    r := paths[path := item.(operations := item.operations[verb := op])];
  }

  lemma CrudActionsStep(cls: ResourceClass, actions: seq<Action>, i: nat)
    requires i < |actions|
    ensures SkipsAction(cls, actions[i]) ==> CrudActions(cls, actions[..i + 1]) == CrudActions(cls, actions[..i])
    ensures !SkipsAction(cls, actions[i]) ==> CrudActions(cls, actions[..i + 1]) == CrudActions(cls, actions[..i]) + [actions[i]]
  {
    assert actions[..i + 1][..i] == actions[..i];
    var front := CrudActions(cls, actions[..i]);
    assert front + [] == front;
  }

  lemma DocPutOfCrud(a: Action, resource: string, cls: ResourceClass, plural: string -> string)
    requires a in ResourceActions
    ensures DocPut(a, resource, cls, plural) ==
            Put(CrudPath(a, resource, cls, plural).0, CrudPath(a, resource, cls, plural).1, Lower(HttpMethodOf(a)),
                OperationOf(a, resource, plural))
  {
    assert a !in SearchActions;
  }

  lemma DocPutOfSearch(a: Action, resource: string, cls: ResourceClass, plural: string -> string)
    requires a in SearchActions
    ensures DocPut(a, resource, cls, plural) ==
            Put(CollectionOpenApiPath(plural(resource), SearchModifiers(a)), [], SearchMethod(a),
                OperationOf(a, resource, plural))
  {
  }

  /** Each action the crud loop visits adds its `setdefault(...)[verb] = op` after those
      of the earlier actions, unless the resource skips it. */
  lemma CrudPutsStep(paths: PathsDict, acts: seq<Action>, resource: string, cls: ResourceClass,
                     plural: string -> string, i: nat)
    requires i < |acts|
    ensures var before := ApplyAll(paths, Puts(CrudActions(cls, acts[..i]), resource, cls, plural));
            ApplyAll(paths, Puts(CrudActions(cls, acts[..i + 1]), resource, cls, plural)) ==
            if SkipsAction(cls, acts[i]) then before
            else Apply(before, DocPut(acts[i], resource, cls, plural))
  {
    var done := CrudActions(cls, acts[..i]);
    CrudActionsStep(cls, acts, i);
    if !SkipsAction(cls, acts[i]) {
      PutsSnoc(done, acts[i], resource, cls, plural);
      ApplyAllSnoc(paths, Puts(done, resource, cls, plural), DocPut(acts[i], resource, cls, plural));
    }
  }

  /** One turn of `_set_crud_paths`' loop, for an action the resource does not skip: the
      operation goes under the action's lowered method at its path. */
  method SetCrudPath(paths: PathsDict, a: Action, resource: string, cls: ResourceClass, plural: string -> string)
    returns (r: PathsDict)
    requires a in ResourceActions
    ensures r == Apply(paths, DocPut(a, resource, cls, plural))
  {
    var verb := Lower(HttpMethodOf(a));
    var (path, params) := CrudPath(a, resource, cls, plural);
    DocPutOfCrud(a, resource, cls, plural);
    r := SetDefaultPut(paths, path, params, verb, OperationOf(a, resource, plural));
  }

  /** `_set_crud_paths(paths, resource_name, resource_cls, ...)`, the dict given and
      returned as a value. */
  method SetCrudPaths(paths: PathsDict, resource: string, cls: ResourceClass, plural: string -> string)
    returns (r: PathsDict)
    ensures r == ApplyAll(paths, Puts(CrudActions(cls, ResourceActions), resource, cls, plural))
  {
    r := SetCrudPathsFor(paths, ResourceActions, resource, cls, plural);
  }

  /** The loop of `_set_crud_paths`, over the actions `acts` (there, `ACTIONS`). */
  method SetCrudPathsFor(paths: PathsDict, acts: seq<Action>, resource: string, cls: ResourceClass,
                         plural: string -> string)
    returns (r: PathsDict)
    requires forall k :: 0 <= k < |acts| ==> acts[k] in ResourceActions
    ensures r == ApplyAll(paths, Puts(CrudActions(cls, acts), resource, cls, plural))
  {
    r := paths;
    var i := 0;
    while i < |acts|
      invariant 0 <= i <= |acts|
      invariant r == ApplyAll(paths, Puts(CrudActions(cls, acts[..i]), resource, cls, plural))
    {
      var a := acts[i];
      CrudPutsStep(paths, acts, resource, cls, plural, i);
      // Read-only resources need no mutating paths.
      if !(!cls.mutable && IsMutating(a)) {
        r := SetCrudPath(r, a, resource, cls, plural);
      }
      i := i + 1;
    }
    assert acts[..|acts|] == acts;
  }

  /** Each action the search loop visits adds its `setdefault(...)[verb] = op` after those
      of the earlier actions. */
  lemma PutsStep(paths: PathsDict, acts: seq<Action>, resource: string, cls: ResourceClass,
                 plural: string -> string, i: nat)
    requires i < |acts|
    ensures ApplyAll(paths, Puts(acts[..i + 1], resource, cls, plural)) ==
            Apply(ApplyAll(paths, Puts(acts[..i], resource, cls, plural)), DocPut(acts[i], resource, cls, plural))
  {
    assert acts[..i + 1] == acts[..i] + [acts[i]];
    PutsSnoc(acts[..i], acts[i], resource, cls, plural);
    ApplyAllSnoc(paths, Puts(acts[..i], resource, cls, plural), DocPut(acts[i], resource, cls, plural));
  }

  /** One turn of `_set_search_paths`' loop: the operation goes under the action's method
      at the collection path with the action's modifiers. */
  method SetSearchPath(paths: PathsDict, a: Action, resource: string, cls: ResourceClass, plural: string -> string)
    returns (r: PathsDict)
    requires a in SearchActions
    ensures r == Apply(paths, DocPut(a, resource, cls, plural))
  {
    var path := CollectionOpenApiPath(plural(resource), SearchModifiers(a));
    DocPutOfSearch(a, resource, cls, plural);
    r := SetDefaultPut(paths, path, [], SearchMethod(a), OperationOf(a, resource, plural));
  }

  /** `_set_search_paths(paths, resource_name, ...)` */
  method SetSearchPaths(paths: PathsDict, resource: string, cls: ResourceClass, plural: string -> string)
    returns (r: PathsDict)
    ensures r == ApplyAll(paths, Puts(SearchActions, resource, cls, plural))
  {
    r := SetSearchPathsFor(paths, SearchActions, resource, cls, plural);
  }

  /** The loop of `_set_search_paths`, over the actions `acts` (there, the search and the
      new-search action). */
  method SetSearchPathsFor(paths: PathsDict, acts: seq<Action>, resource: string, cls: ResourceClass,
                           plural: string -> string)
    returns (r: PathsDict)
    requires forall k :: 0 <= k < |acts| ==> acts[k] in SearchActions
    ensures r == ApplyAll(paths, Puts(acts, resource, cls, plural))
  {
    r := paths;
    var i := 0;
    while i < |acts|
      invariant 0 <= i <= |acts|
      invariant r == ApplyAll(paths, Puts(acts[..i], resource, cls, plural))
    {
      PutsStep(paths, acts, resource, cls, plural, i);
      r := SetSearchPath(r, acts[i], resource, cls, plural);
      i := i + 1;
    }
    assert acts[..|acts|] == acts;
  }

  lemma CustomEditsStep(resource: string, plural: string -> string, endpoints: seq<CustomEndPoint>, i: nat)
    requires i < |endpoints|
    ensures CustomEdits(resource, plural, endpoints[..i + 1]) ==
            CustomEdits(resource, plural, endpoints[..i]) +
            [Assign(CustomPath(plural(resource), endpoints[i]), CustomItem(endpoints[i], resource))]
  {
    assert endpoints[..i + 1][..i] == endpoints[..i];
  }

  /** `_set_custom_paths(paths, resource_name, resource_cls, ...)` */
  method SetCustomPaths(paths: PathsDict, resource: string, cls: ResourceClass, plural: string -> string)
    returns (r: PathsDict)
    ensures r == ApplyAll(paths, CustomEdits(resource, plural, CustomEndpoints(cls.attributes)))
  {
    var endpoints := GetCustomEndpoints(cls);
    r := paths;
    var i := 0;
    while i < |endpoints|
      invariant 0 <= i <= |endpoints|
      invariant r == ApplyAll(paths, CustomEdits(resource, plural, endpoints[..i]))
    {
      var e := endpoints[i];
      var path := CustomPath(plural(resource), e);
      var item := CustomItem(e, resource);
      ghost var done := CustomEdits(resource, plural, endpoints[..i]);
      CustomEditsStep(resource, plural, endpoints, i);
      ApplyAllSnoc(paths, done, Assign(path, item));
      assert Apply(r, Assign(path, item)) == r[path := item];
      r := r[path := item];
      i := i + 1;
    }
    assert endpoints[..|endpoints|] == endpoints;
  }

  lemma AllEditsStep(rs: seq<(string, ResourceConfig)>, plural: string -> string, i: nat)
    requires i < |rs|
    ensures ApplyAll(map[], AllEdits(rs[..i + 1], plural)) ==
            ApplyAll(ApplyAll(map[], AllEdits(rs[..i], plural)), ResourceEdits(rs[i].0, rs[i].1, plural))
  {
    assert rs[..i + 1][..i] == rs[..i];
    ApplyAllConcat(map[], AllEdits(rs[..i], plural), ResourceEdits(rs[i].0, rs[i].1, plural));
  }

  /** One resource's edits are its CRUD edits, then its search edits, then its custom ones. */
  lemma ResourceEditsInTurn(paths: PathsDict, resource: string, cfg: ResourceConfig, plural: string -> string)
    ensures var cls := cfg.resourceCls;
            var crud := ApplyAll(paths, Puts(CrudActions(cls, ResourceActions), resource, cls, plural));
            var search := if IsSearchable(cfg) then ApplyAll(crud, Puts(SearchActions, resource, cls, plural)) else crud;
            ApplyAll(paths, ResourceEdits(resource, cfg, plural)) ==
            ApplyAll(search, CustomEdits(resource, plural, CustomEndpoints(cls.attributes)))
  {
    var cls := cfg.resourceCls;
    var crudActs := CrudActions(cls, ResourceActions);
    var searchActs := if IsSearchable(cfg) then SearchActions else [];
    var crud := Puts(crudActs, resource, cls, plural);
    var search := Puts(searchActs, resource, cls, plural);
    var custom := CustomEdits(resource, plural, CustomEndpoints(cls.attributes));
    PutsConcat(crudActs, searchActs, resource, cls, plural);
    assert ResourceEdits(resource, cfg, plural) == (crud + search) + custom;
    ApplyAllConcat(paths, crud + search, custom);
    ApplyAllConcat(paths, crud, search);
    if !IsSearchable(cfg) {
      assert search == [];
      assert crud + search == crud;
    }
  }

  /** The body of the loop of `_get_paths` for one resource. */
  method SetResourcePaths(paths: PathsDict, resource: string, cfg: ResourceConfig, plural: string -> string)
    returns (r: PathsDict)
    ensures r == ApplyAll(paths, ResourceEdits(resource, cfg, plural))
  {
    ResourceEditsInTurn(paths, resource, cfg, plural);
    r := SetCrudPaths(paths, resource, cfg.resourceCls, plural);
    if IsSearchable(cfg) {
      r := SetSearchPaths(r, resource, cfg.resourceCls, plural);
    }
    r := SetCustomPaths(r, resource, cfg.resourceCls, plural);
  }

  /** `_get_paths()` */
  method GetPaths(resources: seq<(string, ResourceConfig)>, plural: string -> string)
    returns (paths: PathsDict)
    ensures paths == GeneratedPaths(resources, plural)
  {
    var items := SortedItems(resources);
    paths := map[];
    var i := 0;
    while i < |items|
      invariant 0 <= i <= |items|
      invariant paths == ApplyAll(map[], AllEdits(items[..i], plural))
    {
      AllEditsStep(items, plural, i);
      paths := SetResourcePaths(paths, items[i].0, items[i].1, plural);
      i := i + 1;
    }
    assert items[..|items|] == items;
  }

  // ---------------------------------------------------------------------------
  // What the documented operations are
  // ---------------------------------------------------------------------------

  /** The path, parameters and method key of that edit. */
  function DocPathOf(a: Action, resource: string, cls: ResourceClass, plural: string -> string): string {
    if a in SearchActions then CollectionOpenApiPath(plural(resource), SearchModifiers(a))
    else CrudPath(a, resource, cls, plural).0
  }

  function DocParamsOf(a: Action, resource: string, cls: ResourceClass, plural: string -> string): seq<PathParam> {
    if a in SearchActions then [] else CrudPath(a, resource, cls, plural).1
  }

  function DocVerbOf(a: Action): string {
    if a in SearchActions then SearchMethod(a) else CrudMethod(a)
  }

  lemma DocPutParts(a: Action, resource: string, cls: ResourceClass, plural: string -> string)
    ensures DocPut(a, resource, cls, plural) ==
            Put(DocPathOf(a, resource, cls, plural), DocParamsOf(a, resource, cls, plural), DocVerbOf(a),
                OperationOf(a, resource, plural))
  {
  }

  /** What follows `/<collection>/` in the path of a documented action. */
  function PathTail(a: Action): string {
    match a
    case Create => ""
    case Index => ""
    case Delete => "{pk}/"
    case Show => "{pk}/"
    case Update => "{pk}/"
    case New => "new/"
    case Edit => "{pk}/edit/"
    case SearchPost => "search/"
    case NewSearch => "new_search/"
    case Search => ""
  }

  /** `ACTIONS2METHODS` lower-cased: `post` for create, `delete`, `put` for update and
      `get` otherwise. */
  lemma CrudMethodLowered(a: Action)
    ensures CrudMethod(a) == if a == Create then "post" else if a == Delete then "delete"
                             else if a == Update then "put" else "get"
  {
    var m := HttpMethodOf(a);
    if a == Create {
      assert Lower(m) == "post" by { assert m == "POST"; }
    } else if a == Delete {
      assert Lower(m) == "delete" by { assert m == "DELETE"; }
    } else if a == Update {
      assert Lower(m) == "put" by { assert m == "PUT"; }
    } else {
      assert Lower(m) == "get" by { assert m == "GET"; }
    }
  }

  lemma CollectionPathOfOne(c: string, m: string)
    ensures CollectionOpenApiPath(c, [m]) == "/" + c + "/" + (m + "/")
  {
    assert Join([m], "/") == m;
  }

  lemma MemberPathOfOne(resource: string, c: string, pk: string, m: string)
    ensures MemberOpenApiPath(resource, c, pk, [m]).0 == "/" + c + "/" + ("{pk}/" + m + "/")
  {
    assert Join([m], "/") == m;
  }

  /** The path of every documented action: `/coll/`, `/coll/{pk}/`, `/coll/new/`,
      `/coll/{pk}/edit/`, `/coll/search/` or `/coll/new_search/`. */
  lemma DocPath(a: Action, resource: string, cls: ResourceClass, plural: string -> string)
    requires a in ResourceActions + SearchActions
    ensures DocPathOf(a, resource, cls, plural) == "/" + plural(resource) + "/" + PathTail(a)
  {
    if a in SearchActions {
      DocPathSearch(a, resource, cls, plural);
    } else if a == Create || a == Index {
      DocPathCollection(a, resource, cls, plural);
    } else if a == Delete || a == Show || a == Update {
      DocPathMember(a, resource, cls, plural);
    } else {
      DocPathForm(a, resource, cls, plural);
    }
  }

  lemma DocPathForm(a: Action, resource: string, cls: ResourceClass, plural: string -> string)
    requires a == New || a == Edit
    ensures DocPathOf(a, resource, cls, plural) == "/" + plural(resource) + "/" + PathTail(a)
  {
    assert a !in SearchActions;
    if a == New {
      assert DocPathOf(a, resource, cls, plural) == CollectionOpenApiPath(plural(resource), ["new"]);
      CollectionPathOfOne(plural(resource), "new");
    } else {
      assert DocPathOf(a, resource, cls, plural) == MemberOpenApiPath(resource, plural(resource), cls.primaryKey, ["edit"]).0;
      MemberPathOfOne(resource, plural(resource), cls.primaryKey, "edit");
    }
  }

  lemma DocPathSearch(a: Action, resource: string, cls: ResourceClass, plural: string -> string)
    requires a in SearchActions
    ensures DocPathOf(a, resource, cls, plural) == "/" + plural(resource) + "/" + PathTail(a)
  {
    if a == SearchPost {
      CollectionPathOfOne(plural(resource), "search");
    } else {
      CollectionPathOfOne(plural(resource), "new_search");
    }
  }

  lemma DocPathCollection(a: Action, resource: string, cls: ResourceClass, plural: string -> string)
    requires a == Create || a == Index
    ensures DocPathOf(a, resource, cls, plural) == "/" + plural(resource) + "/" + PathTail(a)
  {
    var c := "/" + plural(resource) + "/";
    assert a !in SearchActions;
    assert DocPathOf(a, resource, cls, plural) == c;
    assert c + "" == c;
  }

  lemma DocPathMember(a: Action, resource: string, cls: ResourceClass, plural: string -> string)
    requires a == Delete || a == Show || a == Update
    ensures DocPathOf(a, resource, cls, plural) == "/" + plural(resource) + "/" + PathTail(a)
  {
    assert a !in SearchActions;
    assert DocPathOf(a, resource, cls, plural) == MemberOpenApiPath(resource, plural(resource), cls.primaryKey, []).0;
  }

  /** Member paths carry the one `pk` parameter; the others none. */
  lemma DocParams(a: Action, resource: string, cls: ResourceClass, plural: string -> string)
    requires a in ResourceActions + SearchActions
    ensures DocParamsOf(a, resource, cls, plural) ==
            if a in [Delete, Show, Update, Edit] then [PkParam(resource, cls.primaryKey)] else []
  {
  }

  /** Every documented operation sits under a lower-case method key: `get`, `post`, `put`
      or `delete`, `post` for `search_post`; never `search`. */
  lemma DocVerb(a: Action)
    requires a in ResourceActions + SearchActions
    ensures DocVerbOf(a) == VerbKey(a)
  {
    CrudMethodLowered(a);
  }

  function VerbKey(a: Action): string {
    if a == Create || a == SearchPost then "post" else if a == Delete then "delete"
    else if a == Update then "put" else "get"
  }

  lemma TailsAndVerbsDistinct(a: Action, b: Action)
    requires a in ResourceActions + SearchActions && b in ResourceActions + SearchActions && a != b
    ensures PathTail(a) != PathTail(b) || VerbKey(a) != VerbKey(b)
  {
  }

  /** No two documented actions of a resource share a path and method key. */
  lemma DocKeysDistinct(a: Action, b: Action, resource: string, cls: ResourceClass, plural: string -> string)
    requires a in ResourceActions + SearchActions && b in ResourceActions + SearchActions && a != b
    ensures DocPathOf(a, resource, cls, plural) != DocPathOf(b, resource, cls, plural) || DocVerbOf(a) != DocVerbOf(b)
  {
    DocPath(a, resource, cls, plural);
    DocPath(b, resource, cls, plural);
    DocVerb(a);
    DocVerb(b);
    TailsAndVerbsDistinct(a, b);
    var p := "/" + plural(resource) + "/";
    assert (p + PathTail(a))[|p|..] == PathTail(a);
    assert (p + PathTail(b))[|p|..] == PathTail(b);
  }

  /** A mutable resource keeps every action visited. */
  lemma {:induction false} CrudActionsMutable(cls: ResourceClass, actions: seq<Action>)
    requires cls.mutable
    ensures CrudActions(cls, actions) == actions
    decreases |actions|
  {
    if actions != [] {
      var front := actions[..|actions| - 1];
      CrudActionsMutable(cls, front);
      assert front + [actions[|actions| - 1]] == actions;
    }
  }

  /** The actions a read-only resource keeps of the first `i` it visits. */
  function ReadOnlyKept(i: nat): seq<Action> {
    if i <= 3 then [] else if i <= 5 then [Index] else [Index, Show]
  }

  lemma {:induction false} CrudActionsReadOnlyPrefix(cls: ResourceClass, i: nat)
    requires !cls.mutable && i <= |ResourceActions|
    ensures CrudActions(cls, ResourceActions[..i]) == ReadOnlyKept(i)
  {
    if i == 0 {
      assert ResourceActions[..0] == [];
    } else {
      CrudActionsReadOnlyPrefix(cls, i - 1);
      CrudActionsStep(cls, ResourceActions, i - 1);
      ReadOnlyKeptStep(cls, i);
    }
  }

  lemma ReadOnlyKeptStep(cls: ResourceClass, i: nat)
    requires !cls.mutable && 0 < i <= |ResourceActions|
    ensures var a := ResourceActions[i - 1];
            ReadOnlyKept(i) == ReadOnlyKept(i - 1) + (if SkipsAction(cls, a) then [] else [a])
  {
  }

  /** A read-only resource keeps `index` and `show` only. */
  lemma CrudActionsReadOnly(cls: ResourceClass)
    requires !cls.mutable
    ensures CrudActions(cls, ResourceActions) == [Index, Show]
  {
    CrudActionsReadOnlyPrefix(cls, |ResourceActions|);
    assert ResourceActions[..|ResourceActions|] == ResourceActions;
  }

  /** A read-only resource documents neither the mutating actions nor the edit and new
      forms; a mutable one documents all seven CRUD actions. */
  lemma CrudActionsKept(cls: ResourceClass)
    ensures CrudActions(cls, ResourceActions) == if cls.mutable then ResourceActions else [Index, Show]
  {
    if cls.mutable {
      CrudActionsMutable(cls, ResourceActions);
    } else {
      CrudActionsReadOnly(cls);
    }
  }

  /** The documented actions: all seven CRUD actions of a mutable resource or `index` and
      `show` of a read-only one, then `search_post` and `new_search` when searchable. */
  lemma DocumentedActionsAre(cfg: ResourceConfig)
    ensures DocumentedActions(cfg) ==
            (if cfg.resourceCls.mutable then ResourceActions else [Index, Show]) +
            (if IsSearchable(cfg) then SearchActions else [])
  {
    CrudActionsKept(cfg.resourceCls);
  }

  /** An action is documented exactly when the resource's flags call for it, and none is
      documented twice. */
  lemma DocumentedActionsDistinct(cfg: ResourceConfig)
    ensures forall a :: a in DocumentedActions(cfg) <==>
              (a in ResourceActions && !SkipsAction(cfg.resourceCls, a)) ||
              (a in SearchActions && IsSearchable(cfg))
    ensures forall i, j :: 0 <= i < j < |DocumentedActions(cfg)| ==>
              DocumentedActions(cfg)[i] != DocumentedActions(cfg)[j]
  {
    DocumentedActionsAre(cfg);
  }

  /** The path and method key of every documented action hold its operation once both
      loops have run, whatever the dict held before. */
  lemma DocumentedOperationPresent(paths: PathsDict, resource: string, cfg: ResourceConfig,
                                   plural: string -> string, a: Action)
    requires a in DocumentedActions(cfg)
    ensures var cls := cfg.resourceCls;
            var r := ApplyAll(paths, Puts(DocumentedActions(cfg), resource, cls, plural));
            OpAt(r, DocPathOf(a, resource, cls, plural), DocVerbOf(a)) == Some(OperationOf(a, resource, plural))
  {
    var cls := cfg.resourceCls;
    var acts := DocumentedActions(cfg);
    var es := Puts(acts, resource, cls, plural);
    DocumentedActionsDistinct(cfg);
    var i :| 0 <= i < |acts| && acts[i] == a;
    DocPutParts(a, resource, cls, plural);
    forall j | i < j < |es| ensures !Touches(es[j], es[i].path, es[i].verb) {
      DocPutParts(acts[j], resource, cls, plural);
      DocKeysDistinct(acts[j], a, resource, cls, plural);
    }
    LastPutWins(paths, es, i);
  }

  /** A path and method key no documented action uses keeps what it held. */
  lemma DocumentedOthersUntouched(paths: PathsDict, resource: string, cfg: ResourceConfig,
                                  plural: string -> string, path: string, verb: string)
    requires forall a :: a in DocumentedActions(cfg) ==>
               DocPathOf(a, resource, cfg.resourceCls, plural) != path || DocVerbOf(a) != verb
    ensures var r := ApplyAll(paths, Puts(DocumentedActions(cfg), resource, cfg.resourceCls, plural));
            OpAt(r, path, verb) == OpAt(paths, path, verb)
  {
    var cls := cfg.resourceCls;
    var acts := DocumentedActions(cfg);
    var es := Puts(acts, resource, cls, plural);
    forall j | 0 <= j < |es| ensures !Touches(es[j], path, verb) {
      assert acts[j] in acts;
      DocPutParts(acts[j], resource, cls, plural);
    }
    Untouched(paths, es, path, verb);
  }

  /** Two documented actions on the same path are both member- or both collection-
      targeting, so they agree on the parameters of a new item. */
  lemma SamePathSameParams(a: Action, b: Action, resource: string, cls: ResourceClass, plural: string -> string)
    requires a in ResourceActions + SearchActions && b in ResourceActions + SearchActions
    requires DocPathOf(a, resource, cls, plural) == DocPathOf(b, resource, cls, plural)
    ensures DocParamsOf(a, resource, cls, plural) == DocParamsOf(b, resource, cls, plural)
  {
    assert PathTail(a) == PathTail(b) by {
      DocPath(a, resource, cls, plural);
      DocPath(b, resource, cls, plural);
      var p := "/" + plural(resource) + "/";
      assert (p + PathTail(a))[|p|..] == PathTail(a);
      assert (p + PathTail(b))[|p|..] == PathTail(b);
    }
    TailDecidesParams(a, b);
    DocParams(a, resource, cls, plural);
    DocParams(b, resource, cls, plural);
  }

  lemma TailDecidesParams(a: Action, b: Action)
    requires PathTail(a) == PathTail(b)
    ensures (a in [Delete, Show, Update, Edit]) == (b in [Delete, Show, Update, Edit])
  {
  }

  /** `setdefault` creates the item of a new path with the action's path parameters and
      leaves those of a path already present alone. */
  lemma DocumentedPathParameters(paths: PathsDict, resource: string, cfg: ResourceConfig,
                                 plural: string -> string, a: Action)
    requires a in DocumentedActions(cfg)
    ensures var cls := cfg.resourceCls;
            var path := DocPathOf(a, resource, cls, plural);
            var r := ApplyAll(paths, Puts(DocumentedActions(cfg), resource, cls, plural));
            path in r &&
            r[path].parameters == if path in paths then paths[path].parameters
                                  else DocParamsOf(a, resource, cls, plural)
  {
    var cls := cfg.resourceCls;
    var acts := DocumentedActions(cfg);
    var es := Puts(acts, resource, cls, plural);
    var path := DocPathOf(a, resource, cls, plural);
    DocumentedOperationPresent(paths, resource, cfg, plural, a);
    DocumentedActionsDistinct(cfg);
    forall j | 0 <= j < |es| ensures es[j].Put? && es[j].path == DocPathOf(acts[j], resource, cls, plural) &&
                                     es[j].params == DocParamsOf(acts[j], resource, cls, plural) {
      DocPutParts(acts[j], resource, cls, plural);
    }
    if path in paths {
      OldPathParameters(paths, es, path);
    } else {
      forall j | 0 <= j < |es| && es[j].path == path
        ensures es[j].Put? && es[j].params == DocParamsOf(a, resource, cls, plural)
      {
        assert acts[j] in acts;
        SamePathSameParams(acts[j], a, resource, cls, plural);
      }
      NewPathParameters(paths, es, path, DocParamsOf(a, resource, cls, plural));
    }
  }

  lemma {:induction false} CustomEditsLength(resource: string, plural: string -> string,
                                             endpoints: seq<CustomEndPoint>)
    ensures |CustomEdits(resource, plural, endpoints)| == |endpoints|
    decreases |endpoints|
  {
    if endpoints != [] {
      CustomEditsLength(resource, plural, endpoints[..|endpoints| - 1]);
    }
  }

  /** Each custom endpoint becomes one `paths[path] = item`, in order. */
  lemma {:induction false} CustomEditAt(resource: string, plural: string -> string,
                                        endpoints: seq<CustomEndPoint>, i: nat)
    requires i < |endpoints|
    ensures |CustomEdits(resource, plural, endpoints)| == |endpoints|
    ensures CustomEdits(resource, plural, endpoints)[i] ==
            Assign(CustomPath(plural(resource), endpoints[i]), CustomItem(endpoints[i], resource))
    decreases |endpoints|
  {
    var front := endpoints[..|endpoints| - 1];
    var last := endpoints[|endpoints| - 1];
    var es := CustomEdits(resource, plural, endpoints);
    var fes := CustomEdits(resource, plural, front);
    CustomEditsLength(resource, plural, endpoints);
    CustomEditsLength(resource, plural, front);
    assert es == fes + [Assign(CustomPath(plural(resource), last), CustomItem(last, resource))];
    if i < |front| {
      CustomEditAt(resource, plural, front, i);
      assert es[i] == fes[i];
      assert endpoints[i] == front[i];
    } else {
      assert i == |endpoints| - 1;
    }
  }


  /** A custom endpoint replaces the whole item at its path, dropping whatever was
      documented there, unless a later endpoint of the resource takes the same path. */
  lemma CustomEndpointReplaces(paths: PathsDict, resource: string, plural: string -> string,
                               endpoints: seq<CustomEndPoint>, i: nat)
    requires i < |endpoints|
    requires forall j :: i < j < |endpoints| ==> endpoints[j].path != endpoints[i].path
    ensures var r := ApplyAll(paths, CustomEdits(resource, plural, endpoints));
            var path := CustomPath(plural(resource), endpoints[i]);
            path in r && r[path] == CustomItem(endpoints[i], resource)
  {
    var es := CustomEdits(resource, plural, endpoints);
    CustomEditsLength(resource, plural, endpoints);
    var p := "/" + plural(resource) + "/";
    CustomEditAt(resource, plural, endpoints, i);
    forall j | i < j < |es| ensures es[j].path != es[i].path {
      CustomEditAt(resource, plural, endpoints, j);
      assert (p + endpoints[j].path)[|p|..] == endpoints[j].path;
      assert (p + endpoints[i].path)[|p|..] == endpoints[i].path;
    }
    LastAssignWins(paths, es, i);
  }

  /** Paths no custom endpoint names keep their items. */
  lemma CustomOthersUntouched(paths: PathsDict, resource: string, plural: string -> string,
                              endpoints: seq<CustomEndPoint>, path: string)
    requires forall e :: e in endpoints ==> CustomPath(plural(resource), e) != path
    ensures var r := ApplyAll(paths, CustomEdits(resource, plural, endpoints));
            (path in r <==> path in paths) && (path in paths ==> r[path] == paths[path])
  {
    var es := CustomEdits(resource, plural, endpoints);
    CustomEditsLength(resource, plural, endpoints);
    forall j | 0 <= j < |es| ensures es[j].path != path {
      CustomEditAt(resource, plural, endpoints, j);
      assert endpoints[j] in endpoints;
    }
    PathUntouched(paths, es, path);
  }

  /** After one resource's edits, each documented action whose path no custom endpoint of
      the resource takes holds its operation. */
  lemma ResourceDocumentedOperation(paths: PathsDict, resource: string, cfg: ResourceConfig,
                                    plural: string -> string, a: Action)
    requires a in DocumentedActions(cfg)
    requires forall e :: e in CustomEndpoints(cfg.resourceCls.attributes) ==>
               CustomPath(plural(resource), e) != DocPathOf(a, resource, cfg.resourceCls, plural)
    ensures var r := ApplyAll(paths, ResourceEdits(resource, cfg, plural));
            OpAt(r, DocPathOf(a, resource, cfg.resourceCls, plural), DocVerbOf(a)) ==
            Some(OperationOf(a, resource, plural))
  {
    var cls := cfg.resourceCls;
    var docs := Puts(DocumentedActions(cfg), resource, cls, plural);
    var custom := CustomEndpoints(cls.attributes);
    ApplyAllConcat(paths, docs, CustomEdits(resource, plural, custom));
    DocumentedOperationPresent(paths, resource, cfg, plural, a);
    CustomOthersUntouched(ApplyAll(paths, docs), resource, plural, custom, DocPathOf(a, resource, cls, plural));
  }

  /** After one resource's edits, each custom endpoint with no later one on its path holds
      its own item. */
  lemma ResourceCustomEndpoint(paths: PathsDict, resource: string, cfg: ResourceConfig,
                               plural: string -> string, i: nat)
    requires i < |CustomEndpoints(cfg.resourceCls.attributes)|
    requires var custom := CustomEndpoints(cfg.resourceCls.attributes);
             forall j :: i < j < |custom| ==> custom[j].path != custom[i].path
    ensures var custom := CustomEndpoints(cfg.resourceCls.attributes);
            var r := ApplyAll(paths, ResourceEdits(resource, cfg, plural));
            var path := CustomPath(plural(resource), custom[i]);
            path in r && r[path] == CustomItem(custom[i], resource)
  {
    var cls := cfg.resourceCls;
    var docs := Puts(DocumentedActions(cfg), resource, cls, plural);
    var custom := CustomEndpoints(cls.attributes);
    ApplyAllConcat(paths, docs, CustomEdits(resource, plural, custom));
    CustomEndpointReplaces(ApplyAll(paths, docs), resource, plural, custom, i);
  }

  /** The operation ids of a resource's documented operations are pairwise distinct, its
      tags are `[collection]` and its summary is its description. */
  lemma DocumentedOperationsNamed(resource: string, cfg: ResourceConfig, plural: string -> string)
    ensures forall a, b :: a in DocumentedActions(cfg) && b in DocumentedActions(cfg) && a != b ==>
              OperationOf(a, resource, plural).operationId != OperationOf(b, resource, plural).operationId
    ensures forall a :: a in DocumentedActions(cfg) ==>
              OperationOf(a, resource, plural).tags == [plural(resource)] &&
              OperationOf(a, resource, plural).summary == OperationOf(a, resource, plural).description
  {
    DocumentedActionsDistinct(cfg);
    forall a, b | a in DocumentedActions(cfg) && b in DocumentedActions(cfg) && a != b
      ensures OperationOf(a, resource, plural).operationId != OperationOf(b, resource, plural).operationId
    {
      DocumentedOperationIdsDistinct(a, b, resource);
    }
    forall a | a in DocumentedActions(cfg)
      ensures OperationOf(a, resource, plural).tags == [plural(resource)] &&
              OperationOf(a, resource, plural).summary == OperationOf(a, resource, plural).description
    {
      OperationParts(a, resource, plural);
    }
  }

}
