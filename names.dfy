/** The naming helpers of the OpenAPI generator: the API version slug and server path,
    schema names and their `$ref` paths, operation ids, summaries, and the OpenAPI paths
    and path parameters of collections and members. */
module OpenApiNames {
  import opened PyText
  import opened Convention

  // ---------------------------------------------------------------------------
  // API version slug
  // ---------------------------------------------------------------------------

  /** `int(part)` for every part; None for a part that raises ValueError. */
  function PartValues(parts: seq<string>): (vals: seq<Option<int>>)
    ensures |vals| == |parts| && forall k :: 0 <= k < |parts| ==> vals[k] == PyInt(parts[k])
  {
    if parts == [] then [] else [PyInt(parts[0])] + PartValues(parts[1..])
  }

  /** A part that `int()` reads as a nonzero integer. */
  predicate Nonzero(v: Option<int>) {
    v.Some? && v.value != 0
  }

  /** Some part strictly after index `i` is nonzero. */
  predicate NonzeroAfter(vals: seq<Option<int>>, i: nat) {
    exists k :: i < k < |vals| && Nonzero(vals[k])
  }

  /** The rule for keeping part `i`: it is nonzero, or some later part is. */
  predicate KeepPart(vals: seq<Option<int>>, i: nat)
    requires i < |vals|
  {
    Nonzero(vals[i]) || NonzeroAfter(vals, i)
  }

  /** The kept parts among the first `n`, in order. */
  function KeptUpTo(parts: seq<string>, vals: seq<Option<int>>, n: nat): (r: seq<string>)
    requires n <= |parts| == |vals|
    ensures |r| <= n
  {
    if n == 0 then []
    else KeptUpTo(parts, vals, n - 1) + (if KeepPart(vals, n - 1) then [parts[n - 1]] else [])
  }

  predicate AllParse(vals: seq<Option<int>>) {
    forall k :: 0 <= k < |vals| ==> vals[k].Some?
  }

  /** The dot-parts of a version string. */
  function VersionParts(version: string): seq<string> {
    Split(Strip(version), '.')
  }

  /** `_get_api_version_slug(version)`: `'v'` followed by the kept parts joined with `_`,
      or None for the ValueError of a part that is not an integer. */
  function VersionSlug(version: string): Option<string> {
    var parts := VersionParts(version);
    var vals := PartValues(parts);
    if AllParse(vals) then Some("v" + Join(KeptUpTo(parts, vals, |parts|), "_")) else None
  }

  /** Some part strictly after index `i` is not an integer. */
  predicate FailsAfter(vals: seq<Option<int>>, i: nat) {
    exists k :: i < k < |vals| && vals[k].None?
  }

  /** The comprehension `[p for p in parts[i + 1:] if int(p)]` of `_get_api_version_slug`,
      reduced to whether it is non-empty; None for the ValueError of a part to the right
      that is not an integer. */
  method NonzeroToRight(vals: seq<Option<int>>, i: nat) returns (r: Option<bool>)
    requires i < |vals|
    ensures r.None? <==> FailsAfter(vals, i)
    ensures r.Some? ==> r.value == NonzeroAfter(vals, i)
  {
    var nonEmpty := false;
    var j := i + 1;
    while j < |vals|
      invariant i + 1 <= j <= |vals|
      invariant forall k :: i < k < j ==> vals[k].Some?
      invariant nonEmpty <==> exists k :: i < k < j && Nonzero(vals[k])
    {
      var p := vals[j];
      if p.None? {
        return None;
      }
      if p.value != 0 {
        nonEmpty := true;
      }
      j := j + 1;
    }
    r := Some(nonEmpty);
  }

  /** The loop of `_get_api_version_slug`: one pass over the parts, and for a zero part
      a scan of the parts to its right; None for the ValueError. `vals` holds `int()` of
      every part, evaluated once: being pure it gives what the source's calls inside the
      two loops give, and a part that is not an integer raises in both. */
  method KeepParts(parts: seq<string>, vals: seq<Option<int>>) returns (r: Option<seq<string>>)
    requires |vals| == |parts|
    ensures r.None? <==> !AllParse(vals)
    ensures r.Some? ==> r.value == KeptUpTo(parts, vals, |parts|)
  {
    var newParts: seq<string> := [];
    var i := 0;
    while i < |parts|
      invariant 0 <= i <= |parts|
      invariant forall k :: 0 <= k < i ==> vals[k].Some?
      invariant newParts == KeptUpTo(parts, vals, i)
    {
      var partInt := vals[i];
      if partInt.None? {
        return None;
      }
      if partInt.value != 0 {
        newParts := newParts + [parts[i]];
      } else {
        var right := NonzeroToRight(vals, i);
        if right.None? {
          return None;
        }
        if right.value {
          newParts := newParts + [parts[i]];
        }
      }
      i := i + 1;
    }
    r := Some(newParts);
  }

  /** `_get_api_version_slug(version)` */
  method ApiVersionSlug(version: string) returns (r: Option<string>)
    ensures r == VersionSlug(version)
  {
    var parts := VersionParts(version);
    var kept := KeepParts(parts, PartValues(parts));
    if kept.None? {
      return None;
    }
    r := Some("v" + Join(kept.value, "_"));
  }

  /** The number of parts up to and including the last nonzero one. */
  function SignificantLength(vals: seq<Option<int>>): (n: nat)
    ensures n <= |vals|
    ensures forall k :: n <= k < |vals| ==> !Nonzero(vals[k])
    ensures n > 0 ==> Nonzero(vals[n - 1])
  {
    if vals == [] then 0
    else if Nonzero(vals[|vals| - 1]) then |vals|
    else SignificantLength(vals[..|vals| - 1])
  }

  /** The slug keeps every part up to the last nonzero one and drops exactly the trailing
      zero parts. */
  lemma {:induction false} KeptPartsArePrefix(parts: seq<string>, vals: seq<Option<int>>, n: nat)
    requires n <= |parts| == |vals|
    ensures var s := SignificantLength(vals);
            KeptUpTo(parts, vals, n) == parts[..if n < s then n else s]
  {
    var s := SignificantLength(vals);
    if n > 0 {
      KeptPartsArePrefix(parts, vals, n - 1);
      if n < s {
        assert NonzeroAfter(vals, n - 1) by {
          assert Nonzero(vals[s - 1]);
        }
      } else if n - 1 >= s {
        assert !KeepPart(vals, n - 1);
      }
      assert n <= s ==> parts[..n] == parts[..n - 1] + [parts[n - 1]];
    }
  }

  /** The slug as a whole: `'v'` followed by the significant parts joined with `_`. */
  lemma VersionSlugIsSignificantPrefix(version: string)
    requires AllParse(PartValues(VersionParts(version)))
    ensures var parts := VersionParts(version);
            VersionSlug(version) == Some("v" + Join(parts[..SignificantLength(PartValues(parts))], "_"))
  {
    var parts := VersionParts(version);
    KeptPartsArePrefix(parts, PartValues(parts), |parts|);
  }

  /** A run of digits that `int()` reads as zero. */
  predicate AllZeros(d: string) {
    forall k :: 0 <= k < |d| ==> d[k] == '0'
  }

  /** Digit strings joined with `.` need no stripping. */
  lemma DigitsJoinStripped(parts: seq<string>)
    requires parts != [] && forall k :: 0 <= k < |parts| ==> AllDigits(parts[k])
    ensures Strip(Join(parts, ".")) == Join(parts, ".")
  {
    JoinEnds(parts, ".");
    var last := parts[|parts| - 1];
    assert IsDigit(parts[0][0]) && IsDigit(last[|last| - 1]);
    StripUnspaced(Join(parts, "."));
  }

  /** Digit strings hold no `.`. */
  lemma DigitsHoldNoDot(parts: seq<string>)
    requires forall k :: 0 <= k < |parts| ==> AllDigits(parts[k])
    ensures forall k :: 0 <= k < |parts| ==> '.' !in parts[k]
  {
    forall k | 0 <= k < |parts| ensures '.' !in parts[k] {
      assert forall j :: 0 <= j < |parts[k]| ==> IsDigit(parts[k][j]);
    }
  }

  /** Digit strings joined with `.` are the dot-parts of the version they make. */
  lemma DigitsVersionParts(parts: seq<string>)
    requires parts != [] && forall k :: 0 <= k < |parts| ==> AllDigits(parts[k])
    ensures VersionParts(Join(parts, ".")) == parts
  {
    DigitsJoinStripped(parts);
    DigitsHoldNoDot(parts);
    SplitJoin(parts, '.');
  }

  /** `int()` reads every digit string, as zero exactly when all its digits are `0`. */
  lemma DigitsParse(parts: seq<string>)
    requires forall k :: 0 <= k < |parts| ==> AllDigits(parts[k])
    ensures AllParse(PartValues(parts))
    ensures forall k :: 0 <= k < |parts| ==> (Nonzero(PartValues(parts)[k]) <==> !AllZeros(parts[k]))
  {
    forall k | 0 <= k < |parts|
      ensures PartValues(parts)[k].Some? && (Nonzero(PartValues(parts)[k]) <==> !AllZeros(parts[k]))
    {
      PyIntOfDigits(parts[k]);
    }
  }

  /** The versions of the docstring, `X.Y.Z` with digit parts: the slug is `v` and the
      parts up to the last one that is not all zeros, joined with `_` (`3.0.1` gives
      `v3_0_1`, `3.0.0` and `3.0` give `v3`, `3.9` gives `v3_9`). */
  lemma DigitsVersionSlug(parts: seq<string>)
    requires parts != [] && forall k :: 0 <= k < |parts| ==> AllDigits(parts[k])
    ensures VersionSlug(Join(parts, ".")) == Some("v" + Join(parts[..SignificantLength(PartValues(parts))], "_"))
    ensures forall k :: 0 <= k < |parts| ==> (Nonzero(PartValues(parts)[k]) <==> !AllZeros(parts[k]))
  {
    DigitsVersionParts(parts);
    DigitsParse(parts);
    VersionSlugIsSignificantPrefix(Join(parts, "."));
  }

  /** `get_api_version_slug()`: the slug, or the version itself when a part is not an
      integer. */
  function GetApiVersionSlug(version: string): (slug: string)
    ensures VersionSlug(version).None? ==> slug == version
    ensures VersionSlug(version).Some? ==> slug == VersionSlug(version).value && slug[0] == 'v'
  {
    match VersionSlug(version)
    case Some(s) => s
    case None => version
  }

  /** `get_dflt_server_path()` */
  function DefaultServerPath(pathPrefix: string, version: string): (p: string)
    ensures StartsWith(p, pathPrefix) && p[|pathPrefix|..] == GetApiVersionSlug(version)
  {
    pathPrefix + GetApiVersionSlug(version)
  }

  // ---------------------------------------------------------------------------
  // Schema names and paths
  // ---------------------------------------------------------------------------

  const SchemasAbsPath: string := "#/components/schemas/"
  const ErrorSchemaName: string := "ErrorSchema"
  const PaginatorSchemaName: string := "PaginatorSchema"

  /** The schemata the generator defines for each resource. */
  datatype SchemaKind =
    | ReadSchema | CreateSchema | UpdateSchema | EditSchema | NewSchema
    | PaginatedSchema | SearchSchema | QuerySchema | FilterSchema
    | ObjectFilterSchema | ArrayFilterSchema | NewSearchSchema
    | RelatedFilterSchema(attribute: string)
    | CoordinativeFilterSchema | NegativeFilterSchema | SimpleFilterSchema

  /** The `_get_*_schema_name` getters: the member name (capitalised) for the read,
      create, update, edit and new schemata; the plural (capitalised) for the others. */
  function SchemaName(kind: SchemaKind, resource: string, plural: string -> string): string {
    var member := Capitalize(resource);
    var collection := Capitalize(plural(resource));
    match kind
    case ReadSchema => member + "View"
    case CreateSchema => member + "Create"
    case UpdateSchema => member + "Update"
    case EditSchema => "EditA" + member
    case NewSchema => "New" + member
    case PaginatedSchema => "PaginatedSubsetOf" + collection
    case SearchSchema => "SearchOver" + collection
    case QuerySchema => "SearchQueryOver" + collection
    case FilterSchema => "FilterOver" + collection
    case ObjectFilterSchema => "ObjectFilterOver" + collection
    case ArrayFilterSchema => "ArrayFilterOver" + collection
    case NewSearchSchema => "DataForNewSearchOver" + collection
    case RelatedFilterSchema(attribute) => "FilterOver" + collection + Capitalize(Lower(attribute))
    case CoordinativeFilterSchema => "CoordinativeFilterOver" + collection
    case NegativeFilterSchema => "NegativeFilterOver" + collection
    case SimpleFilterSchema => "SimpleFilterOver" + collection
  }

  /** `schema_name2path` */
  function SchemaNameToPath(name: string): (p: string)
    ensures StartsWith(p, SchemasAbsPath) && |p| == |SchemasAbsPath| + |name|
  {
    SchemasAbsPath + name
  }

  /** The inverse direction: the schema a `$ref` path points to, if it points into
      `#/components/schemas/`. */
  function SchemaPathToName(p: string): (name: Option<string>)
    ensures name.Some? <==> StartsWith(p, SchemasAbsPath)
  {
    if StartsWith(p, SchemasAbsPath) then Some(p[|SchemasAbsPath|..]) else None
  }

  lemma SchemaPathRoundTrip(name: string)
    ensures SchemaPathToName(SchemaNameToPath(name)) == Some(name)
  {
    assert (SchemasAbsPath + name)[|SchemasAbsPath|..] == name;
  }

  lemma SchemaNameRoundTrip(p: string)
    requires SchemaPathToName(p).Some?
    ensures SchemaNameToPath(SchemaPathToName(p).value) == p
  {
    assert p == p[..|SchemasAbsPath|] + p[|SchemasAbsPath|..];
  }

  /** Distinct schema names have distinct `$ref` paths. */
  lemma SchemaNameToPathInjective(a: string, b: string)
    requires SchemaNameToPath(a) == SchemaNameToPath(b)
    ensures a == b
  {
    SchemaPathRoundTrip(a);
    SchemaPathRoundTrip(b);
  }

  /** `get_error_schema_path()` */
  function ErrorSchemaPath(): string {
    SchemaNameToPath(ErrorSchemaName)
  }

  /** `_get_paginator_schema_path()` */
  function PaginatorSchemaPath(): string {
    SchemaNameToPath(PaginatorSchemaName)
  }

  /** The `$ref` path of one of a resource's schemata. */
  function SchemaPath(kind: SchemaKind, resource: string, plural: string -> string): string {
    SchemaNameToPath(SchemaName(kind, resource, plural))
  }

  // ---------------------------------------------------------------------------
  // Operation ids and summaries
  // ---------------------------------------------------------------------------

  /** The operation part of `_get_operation_id`: five actions are renamed, any other
      action name is kept. */
  function OperationName(action: string): (op: string)
    ensures action == "index" ==> op == "get_many"
    ensures action == "show" ==> op == "get"
    ensures action == "new" ==> op == "data_for_new"
    ensures action == "edit" ==> op == "data_for_edit"
    ensures action == "search_post" ==> op == "search"
    ensures action !in {"index", "show", "new", "edit", "search_post"} ==> op == action
  {
    if action == "index" then "get_many"
    else if action == "show" then "get"
    else if action == "new" then "data_for_new"
    else if action == "edit" then "data_for_edit"
    else if action == "search_post" then "search"
    else action
  }

  /** `_get_operation_id(action, resource_name)`: `'<operation>.<resource_name>'`. */
  function OperationId(action: string, resource: string): (id: string)
    ensures '.' !in action ==> SplitOnce(id, '.') == [OperationName(action), resource]
  {
    var op := OperationName(action);
    assert '.' !in action ==> '.' !in op;
    var id := op + "." + resource;
    assert '.' !in op ==> IndexOf(id, '.') == |op| by {
      if '.' !in op {
        assert id[|op|] == '.';
        assert forall k :: 0 <= k < |op| ==> id[k] == op[k];
      }
    }
    assert id[..|op|] == op && id[|op| + 1..] == resource;
    id
  }

  /** The actions the document describes for a resource get pairwise different operation
      ids (the `search` action, which shares its id with `search_post`, is not among them). */
  lemma DocumentedOperationIdsDistinct(a: Action, b: Action, resource: string)
    requires a != Search && b != Search && a != b
    ensures OperationId(ActionName(a), resource) != OperationId(ActionName(b), resource)
  {
    assert OperationName(ActionName(a)) != OperationName(ActionName(b));
  }

  /** The actions whose summary names the collection rather than the member. */
  predicate SummarisesCollection(a: Action) {
    a == Index || a == Search || a == SearchPost || a == NewSearch
  }

  predicate EndsWith(s: string, suffix: string) {
    |suffix| <= |s| && s[|s| - |suffix|..] == suffix
  }

  /** The sentence of a summary up to the name it ends with. */
  function SummaryLead(a: Action): string {
    match a
    case Create => "Create a new "
    case Delete => "Delete an existing "
    case Edit => "Get the data needed to update an existing "
    case Index => "View all "
    case New => "Get the data needed to create a new "
    case Show => "View an existing "
    case Update => "Update an existing "
    case Search => "Search over all "
    case SearchPost => "Search over all "
    case NewSearch => "Get the data needed to search over all "
  }

  /** `_summarize(action, resource_name, rsrc_collection_name)`: the summary and the
      description, which are the same sentence, ending in the member or collection name;
      `search` and `search_post` share theirs. */
  function Summarize(a: Action, resource: string, collection: string): (r: (string, string))
    ensures r.0 == r.1
    ensures EndsWith(r.0, (if SummarisesCollection(a) then collection else resource) + ".")
  {
    var subject := if SummarisesCollection(a) then collection else resource;
    var s := SummaryLead(a) + subject + ".";
    assert s[|s| - |subject + "."|..] == subject + ".";
    (s, s)
  }

  // ---------------------------------------------------------------------------
  // OpenAPI paths and path parameters
  // ---------------------------------------------------------------------------

  /** `get_collection_targeting_openapi_path(rsrc_collection_name, modifiers)` */
  function CollectionOpenApiPath(collection: string, modifiers: seq<string>): string {
    if modifiers != [] then "/" + collection + "/" + Join(modifiers, "/") + "/"
    else "/" + collection + "/"
  }

  /** A parameter object of an OpenAPI path item. */
  datatype PathParam = PathParam(
    location: string, name: string, required: bool, typ: string, format: string,
    description: string)

  /** The `pk` parameter of `get_member_targeting_openapi_path`. */
  function PkParam(resource: string, primaryKey: string): (p: PathParam)
    ensures p.location == "path" && p.name == "pk" && p.required
    ensures primaryKey == "id" ==> p.typ == "integer" && p.format == "database id"
    ensures primaryKey != "id" ==> p.typ == "string" && p.format == "uuid"
    ensures p.description == "The primary key of the " + resource + "."
  {
    var isId := primaryKey == "id";
    PathParam("path", "pk", true, if isId then "integer" else "string",
              if isId then "database id" else "uuid",
              "The primary key of the " + resource + ".")
  }

  /** `get_member_targeting_openapi_path(...)`: the path, with the literal `{pk}` segment,
      and its one parameter. */
  function MemberOpenApiPath(resource: string, collection: string, primaryKey: string,
                             modifiers: seq<string>): (r: (string, seq<PathParam>))
    ensures r.1 == [PkParam(resource, primaryKey)]
  {
    var path := if modifiers != [] then "/" + collection + "/{pk}/" + Join(modifiers, "/") + "/"
                else "/" + collection + "/{pk}/";
    (path, [PkParam(resource, primaryKey)])
  }

  /** A member path is the collection path with `{pk}` as its first modifier. */
  lemma MemberPathExtendsCollection(resource: string, collection: string, primaryKey: string,
                                    modifiers: seq<string>)
    ensures MemberOpenApiPath(resource, collection, primaryKey, modifiers).0 ==
            CollectionOpenApiPath(collection, ["{pk}"] + modifiers)
  {
    var segs := ["{pk}"] + modifiers;
    assert segs[1..] == modifiers;
    if modifiers == [] {
      assert Join(segs, "/") == "{pk}";
      AppendSlash("/" + collection + "/", "{pk}");
    } else {
      var j := Join(modifiers, "/");
      assert Join(segs, "/") == "{pk}" + "/" + j;
      PkSegmentFirst("/" + collection + "/", j);
    }
  }

  lemma AppendSlash(c: string, s: string)
    ensures c + s + "/" == c + (s + "/")
  {
  }

  lemma PkSegmentFirst(c: string, j: string)
    ensures c + ("{pk}" + "/" + j) + "/" == c + "{pk}/" + j + "/"
  {
    assert "{pk}" + "/" == "{pk}/";
  }


}
