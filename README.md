# remple: routes and OpenAPI document, modelled in Dafny

remple turns a set of resource classes into a REST API on Django. The resources are
configured in a dict: a member name such as `user` maps to a resource class and options.

- `RouteBuilder` (`remple/routebuilder.py`) registers the routes of every resource.
  - Each resource gets three search routes (unless `searchable` is false), seven standard
    CRUD routes, and one route per custom endpoint of its class.
  - The routes are kept in a table keyed by URL regex, then by HTTP method.
  - From that table it builds the Django URL patterns.
  - Each pattern's view dispatches on the request method. It answers 405 for a method the
    regex does not accept and 403 for an unauthenticated request. Otherwise it calls the
    configured method of the resource class.
- `OpenAPI` (`remple/openapi.py`) describes the same API as an OpenAPI 3.0.0 document.
  - The `paths` object holds one operation per documented action and custom endpoint.
  - The `components.schemas` object holds the schemata introspected from the Django
    models and the Formencode validator classes, plus the schemata assembled from `$ref`s.
- `remple/constants.py` holds the error payloads and the maps from Django field classes,
  Python types and Formencode validators to OpenAPI types and formats.

## The modules

The project models these files as follows:

- `pytext.dfy` (`PyText`): the Python 2 `str` built-ins the code relies on. These are
  `split(c)`, `split(c, 1)`, `split()`, `strip()`, `join`, `int()`, `lower()`, `upper()`,
  `capitalize()` and string ordering.
- `pyvalues.dfy` (`PyValues`): JSON-like values, and insertion-ordered dicts with `d[k] = v`.
  It also has `sorted(d.items())` (an insertion sort), and `dict.keys()` as an enumeration
  of a key set.
- `constants.dfy` (`Constants`): `remple/constants.py`.
- `convention.dfy` (`Convention`): the action tables of `RouteBuilder`.
- `resources.dfy` (`Resources`): the resource class, the resource configuration,
  `CustomEndPoint` and the custom endpoint getters.
- `patterns.dfy` (`RoutePatterns`): the URL regex builders, and `openapi_path2regex`.
- `routebuilder.dfy` (`RouteBuilding`): the `RouteBuilder` class, the route table and the
  request dispatch.
- `names.dfy` (`OpenApiNames`): the version slug, the server path, schema names and
  `$ref` paths, operation ids, summaries and OpenAPI path templates.
- `fields.dfy` (`OpenApiFields`): the field-dict builders of the read and create/update
  schemata.
- `schemas.dfy` (`OpenApiSchemas`): `_get_read_schema` and `_get_create_update_schema`.
- `schematable.dfy` (`OpenApiSchemaTable`): `_get_schemas`.
- `paths.dfy` (`OpenApiPaths`): `_get_paths` and its helpers.
- `document.dfy` (`OpenApiDocument`): that every `$ref` the paths hold names a schema of
  the table.

### Modelling choices

- **Objects.** The route builder is a class whose `routes` and `resources` fields its
  methods reassign.
- **Dicts written in place.** The `paths` dict and the `schemas` ordered dict are values
  (a `map` and a `seq` of pairs). They are rebuilt by methods whose loops follow the
  source's loops, and each method's postcondition ties its result to a function of its
  inputs.
- **Dict order.** The order of Python dicts that the code iterates over plainly is taken
  as a parameter: the `resources` dict in `register_resources`, `routes.items()` and
  `http_methods_config.keys()`. `sorted(...)` is modelled as written.
- **Things the model cannot see.** These are parameters:
  - whether the request authenticates;
  - the handler a dispatched request reaches;
  - `inflect`'s `plural`, a function from string to string.
- **Regexes** are strings; the model does not say what they match.
- **Exceptions** that the code lets propagate are `None` (or an outcome datatype). This
  covers `int()` on a part that is not a number, an enum validator with an empty list, and
  a `ForEach` without validators.

## Model

| member | source | states |
|---|---|---|
| Constants.ErrorPayload | remple/constants.py:29-38 | an `{'error': message}` payload is an error payload that carries exactly that message |
| Constants.ErrorPayloadsAreErrors | remple/constants.py:29-38 | the JSON-decode, unauthorised and read-only payloads are error payloads, and no two of them are equal |
| Constants.DjangoFieldType | remple/constants.py:48-64 | integer fields map to `integer`, the boolean fields to `boolean`, JSONField to `object`; relation and unlisted classes have no type; every other listed class maps to `string` |
| Constants.DjangoFieldFormat | remple/constants.py:66-70 | exactly UUIDField, DateTimeField and URLField have a format: `uuid`, `date-time` and `uri` |
| Constants.FormattedDjangoFieldsAreStrings | remple/constants.py:48-70 | every field class with a format has type `string` |
| Constants.PythonTypeType | remple/constants.py:72-76 | `str` maps to `string`; `int` and `float` both map to `integer`; other types are absent |
| Constants.TypeOf | remple/openapi.py:1413 | `type(enum[0])` is `str`, `int` or `float` exactly for string, integer and float values |
| Constants.FormencodeType | remple/constants.py:78-87 | `Int` maps to `integer`, `Bool` to `boolean`, the six string validators to `string`; other validators have no type |
| Constants.FormencodeFormat | remple/constants.py:89-92 | exactly IPAddress and URL have a format: `ipv4` and `uri` |
| Convention.ParseAction | remple/routebuilder.py:103-109 | a name that parses is the name of the action it parses to |
| Convention.ParseActionName | remple/routebuilder.py:103-109 | every action's name parses back to that action |
| Convention.HttpMethodOf | remple/routebuilder.py:113-116 | create is POST, delete is DELETE, update is PUT, and every other action uses the default method GET |
| Convention.ResourceActionsPartition | remple/routebuilder.py:103-112 | the seven actions are distinct; index and show are exactly the non-mutating ones; new and edit are exactly those that target neither the collection nor a member; no action targets both |
| Resources.Or | remple/openapi.py:74-78 | `x or default`: x when truthy, the default otherwise |
| Resources.NewCustomEndPoint | remple/openapi.py:65-78 | the constructor keeps path, method, action, method name, summary, description and the schemata items; each of tags, parameters, responses and request body keeps a truthy argument and otherwise becomes `[]` (tags, parameters) or `{}` (responses, request body), so it is truthy exactly when its argument is |
| Resources.CustomEndpoints | remple/openapi.py:777-787 | an endpoint is listed exactly when it is the value of a public attribute (one not starting with `_`) |
| Resources.GetCustomEndpoints | remple/openapi.py:777-787 | the loop over `dir(resource_cls)` returns the public `CustomEndPoint` attributes in `dir` order |
| Resources.CustomSchemata | remple/openapi.py:789-798 | every item of every endpoint's `schemata` is collected, and nothing else |
| Resources.GetCustEndptSchemata | remple/openapi.py:789-798 | the nested loop collects the schemata items endpoint by endpoint, in order |
| RoutePatterns.PkPattFor | remple/routebuilder.py:214-215 | the primary key `id` gets `\d+`; any other key, including an unknown one, gets the UUID pattern |
| RoutePatterns.CollectionRegexIsOpenApiPath | remple/routebuilder.py:397-406 | a collection regex is its OpenAPI path without the leading `/`, anchored with `^` and `$` |
| RoutePatterns.StandardRegexesDistinct | remple/routebuilder.py:397-421 | the four collection regexes and the two member regexes of one collection are pairwise distinct |
| RoutePatterns.MemberRegexIsPath2Regex | remple/routebuilder.py:409-437 | a member regex is what the path translation makes of `{pk}` followed by the modifiers |
| RoutePatterns.MemberTail | remple/routebuilder.py:430-437 | a template holding only `{pk}` becomes `^<collection>/(?P<pk>patt)<tail>$` |
| RoutePatterns.SubstituteTemplate | remple/routebuilder.py:430-437 | with the corrected pattern, every `{name}` of a well-formed template becomes its own named group |
| RoutePatterns.GreedyAgreesOnOneParam | remple/routebuilder.py:430-437 | on a template with one parameter, the greedy pattern and the corrected one give the same regex |
| RoutePatterns.GreedyOnTwoParams | remple/routebuilder.py:431 | the greedy pattern turns `{p}/{q}/` into one group named `p}/{q` |
| RoutePatterns.GreedyMergesParameters | remple/routebuilder.py:431 | on two parameters the greedy pattern differs from the corrected one |
| RoutePatterns.GreedyMergesPkAndN | remple/routebuilder.py:431 | the concrete input `{pk}/{n}/` shows the difference |
| RoutePatterns.SubstituteOnTwoParams | remple/routebuilder.py:430-437 | the corrected pattern turns `{p}/{q}/` into two groups |
| RouteBuilding.AddRouteEntry | remple/routebuilder.py:123-133 | registering a route sets the route name of its regex and binds its method to (class, method name); the other methods of the regex and all other regexes are unchanged |
| RouteBuilding.RegisterAllKeys | remple/routebuilder.py:276-277 | after registering routes, the table's regexes are the old ones plus the routes'; untouched regexes keep their config |
| RouteBuilding.LastRouteWins | remple/routebuilder.py:130-131 | the last route for a (regex, method) pair decides its target |
| RouteBuilding.LastRouteNames | remple/routebuilder.py:128 | the last route for a regex decides its route name |
| RouteBuilding.RegisterAllMethods | remple/routebuilder.py:127-133 | a regex accepts its old methods plus exactly the methods of the routes for it |
| RouteBuilding.StandardRoute | remple/routebuilder.py:217-241 | each action gets its method and method name; collection actions get `^c/$` named `slug_c`; member actions get `^c/(?P<pk>…)/$` named `slug_member`; new gets `^c/new/$`; edit gets `…/edit/$` |
| RouteBuilding.StandardRoutes | remple/routebuilder.py:210-241 | one route per action, in the order of RESOURCE_ACTIONS |
| RouteBuilding.CustomRoute | remple/routebuilder.py:254-261 | a custom endpoint's route is named `slug_member_action`, uses the upper-cased HTTP method, the class and method name of the endpoint, and the corrected translation of its path |
| RouteBuilding.CustomRouteRegex | remple/routebuilder.py:256-258 | for a well-formed path template, the regex is `^<collection>/` followed by the path with one named group per parameter, then `$`; the `pk` group uses the primary key's pattern |
| RouteBuilding.SearchRoutes | remple/routebuilder.py:287-309 | three routes: SEARCH on the collection regex named `slug_collection`, POST on `<collection>/search/` named with `_search`, GET on `<collection>/new_search/` named with `_new_search`; all call `search` or `new_search` on the class, and the three regexes differ |
| RouteBuilding.RoutesForResource | remple/routebuilder.py:263-277 | a resource has three search routes when searchable, one standard route per action and one route per custom endpoint, all for its class |
| RouteBuilding.RoutesForResourcesMembers | remple/routebuilder.py:279-285 | a route belongs to the routes of several resources exactly when it is a route of one of them |
| RouteBuilding.DocUrlPatterns | remple/routebuilder.py:359-371 | four patterns, `^$`, `^yaml/$`, `^doc/$` and `^client/$`, for the schema, YAML, doc and client views, named `slug_schema`, `slug_yaml`, `slug_doc` and `slug_client`; the four regexes differ |
| RouteBuilding.CustomRoutes | remple/routebuilder.py:243-261 | one route per custom endpoint, in `dir` order; the regex of each is the corrected path translation |
| RouteBuilding.StandardCollectionRoutes | remple/routebuilder.py:217-223 | create (POST) and index (GET) are the only standard routes on the collection regex, and no standard route uses SEARCH |
| RouteBuilding.StandardMemberRoutes | remple/routebuilder.py:224-226 | delete, show and update are the only standard routes on the member regex |
| RouteBuilding.ResourceRoutesLayout | remple/routebuilder.py:263-277 | a resource's routes are the three search routes (when searchable), then the seven standard ones, then one per custom endpoint; the search routes are exactly those that call `search` or `new_search` |
| RouteBuilding.CollectionRoutes | remple/routebuilder.py:263-309 | after registering a resource, its collection regex accepts POST→create and GET→index, plus SEARCH→search when searchable, and nothing else; it is named `slug_collection` |
| RouteBuilding.MemberRoutes | remple/routebuilder.py:263-277 | after registering a resource, its member regex accepts exactly DELETE→delete, GET→show and PUT→update, and is named `slug_member` |
| RouteBuilding.SearchRoutesAvoidMember | remple/routebuilder.py:287-309 | no search route uses the member regex |
| RouteBuilding.RoutesForResourcesSnoc | remple/routebuilder.py:284-285 | the routes of the resources are the routes of each resource in turn |
| RouteBuilding.RegisterAllConcat | remple/routebuilder.py:276-277 | registering `a + b` is registering `a`, then `b` |
| RouteBuilding.ResourcePatternsCoverTable | remple/routebuilder.py:177-206 | there is exactly one URL pattern per regex of the table, carrying that regex's view and route name |
| RouteBuilding.RouteBuilder.constructor | remple/routebuilder.py:118-121 | a new builder has an empty table, no resources and the given version, service name and path prefix |
| RouteBuilding.RouteBuilder.RegisterRoute | remple/routebuilder.py:123-133 | the table becomes the old table with the route added |
| RouteBuilding.RouteBuilder.RegisterRoutes | remple/routebuilder.py:276-277 | the routes are registered in order |
| RouteBuilding.RouteBuilder.RegisterRoutesForResource | remple/routebuilder.py:263-277 | the search, standard and custom routes of the resource are registered in that order |
| RouteBuilding.RouteBuilder.RegisterResources | remple/routebuilder.py:279-285 | `resources` is set, and every resource's routes are registered in dict order |
| RouteBuilding.RouteBuilder.GetUrlpatterns | remple/routebuilder.py:166-208 | the patterns are one per registered regex, in `items()` order, followed by the four schema and doc patterns |
| RouteBuilding.MethodNotAllowed | remple/routebuilder.py:424-427 | the 405 payload is an error naming the method tried, and it ends with the accepted methods joined by `, ` |
| RouteBuilding.ResourceCallable | remple/routebuilder.py:181-200 | an unconfigured method answers 405 with the accepted methods; a configured method answers 403 with UNAUTHORIZED_MSG when not authenticated, and is handed to its (class, method) target otherwise |
| RouteBuilding.Credentials | remple/routebuilder.py:141-152 | the corrected header parse: there are credentials exactly when the header is present and its last word (`split()[-1]`) holds a `:`; then the username has no `:` and username, `:` and key rebuild that last word |
| RouteBuilding.CredentialsAgreeAsWritten | remple/routebuilder.py:141-152 | the corrected parse gives no credentials where the code as written rejects or raises, and the same username and key where it looks them up |
| RouteBuilding.ParseAuthorizationAsWritten | remple/routebuilder.py:141-152 | as written: an absent or empty header is rejected; IndexError escapes exactly for a non-empty, all-blank header; a lookup happens exactly when the header is present and its last word holds a `:`; its username holds no `:` and, with `:` and the key, rebuilds that last word |
| RouteBuilding.BlankHeaderRaises | remple/routebuilder.py:146-149 | a whitespace-only header makes `split()[-1]` raise IndexError, which `except ValueError` does not catch |
| RouteBuilding.ApiKeyHeaderWords | remple/routebuilder.py:147 | `ApiKey <word>` splits into the scheme and the word |
| RouteBuilding.ApiKeyHeaderCredentials | remple/routebuilder.py:136-148 | `ApiKey user:key` yields exactly (user, key), both as written and corrected |
| OpenApiNames.KeepParts | remple/openapi.py:1315-1326 | the loop fails exactly when a part is not an integer, and otherwise returns the kept parts |
| OpenApiNames.ApiVersionSlug | remple/openapi.py:1302-1326 | `_get_api_version_slug` computes the slug function |
| OpenApiNames.KeptPartsArePrefix | remple/openapi.py:1317-1325 | the kept parts are the parts up to the last nonzero one; zeros between nonzero parts stay |
| OpenApiNames.VersionSlugIsSignificantPrefix | remple/openapi.py:1302-1326 | the slug is `v` followed by the significant parts joined with `_` |
| OpenApiNames.DigitsVersionParts | remple/openapi.py:1315 | digit strings joined with `.` strip and split back into themselves |
| OpenApiNames.DigitsParse | remple/openapi.py:1318 | every digit string parses, as zero exactly when all its digits are `0` |
| OpenApiNames.DigitsVersionSlug | remple/openapi.py:1303-1313 | the docstring's cases: for a dotted run of digit strings, the slug keeps the parts up to the last one that is not all zeros |
| OpenApiNames.GetApiVersionSlug | remple/openapi.py:1295-1299 | the slug when every part is an integer, else the version itself |
| OpenApiNames.DefaultServerPath | remple/openapi.py:676-678 | the path prefix followed by the slug |
| OpenApiNames.SchemaNameToPath | remple/openapi.py:1528-1529 | a `$ref` path is `#/components/schemas/` followed by the name |
| OpenApiNames.SchemaPathRoundTrip | remple/openapi.py:1528-1529 | a schema's path reads back as its name |
| OpenApiNames.SchemaNameRoundTrip | remple/openapi.py:1528-1529 | every path under `#/components/schemas/` is the path of the name it reads as |
| OpenApiNames.SchemaNameToPathInjective | remple/openapi.py:1528-1529 | distinct names have distinct paths |
| OpenApiNames.OperationName | remple/openapi.py:1556-1562 | `index`, `show`, `new`, `edit` and `search_post` become `get_many`, `get`, `data_for_new`, `data_for_edit` and `search`; every other action keeps its own name |
| OpenApiNames.OperationId | remple/openapi.py:1555-1563 | the id splits at its first `.` into the operation name and the resource name |
| OpenApiNames.DocumentedOperationIdsDistinct | remple/openapi.py:1555-1563 | distinct documented actions of one resource get distinct ids |
| OpenApiNames.Summarize | remple/openapi.py:1500-1525 | summary and description are the same sentence, ending in the collection name for index and the search actions, and in the resource name otherwise |
| OpenApiNames.PkParam | remple/openapi.py:1472-1487 | the `pk` path parameter is required; it is an integer "database id" for `id` keys and a string "uuid" otherwise |
| OpenApiNames.MemberOpenApiPath | remple/openapi.py:1466-1497 | a member path carries exactly the `pk` parameter |
| OpenApiNames.MemberPathExtendsCollection | remple/openapi.py:1453-1497 | a member path is the collection path with `{pk}` as its first modifier |
| OpenApiFields.ReadFieldDict | remple/openapi.py:1329-1364 | reference fields are URI strings, or arrays of them, under their (accessor) name; scalar fields use the Django type and format maps |
| OpenApiFields.GetChoices | remple/openapi.py:1367-1371 | no choices gives None; otherwise the first components, in order |
| OpenApiFields.GetRequired | remple/openapi.py:1378-1385 | reverse relations are never required; other fields are required exactly when not blank and without a default; `null` is passed through |
| OpenApiFields.GetDefaultForType | remple/openapi.py:1566-1573 | None for a null field, otherwise `0`, `False` or `''` according to the field's type |
| OpenApiFields.DefaultForTypeIgnoresDefault | remple/openapi.py:1566-1573 | the field's own default never matters |
| OpenApiFields.ResourceUriFormat | remple/openapi.py:1388-1390 | `URI of a <lower-cased model name> resource`; fails without a model class |
| OpenApiFields.SingleReferenceMutFieldDict | remple/openapi.py:1393-1396 | a string formatted by the validator's model |
| OpenApiFields.MultiReferenceMutFieldDict | remple/openapi.py:1399-1408 | an array of such strings; fails without a first validator |
| OpenApiFields.EnumFieldDict | remple/openapi.py:1411-1416 | the values as `enum`, typed by the first value; fails on an empty list |
| OpenApiFields.Alternatives | remple/openapi.py:1422-1431 | one alternative per validator, in order |
| OpenApiFields.Alternative | remple/openapi.py:1424-1430 | the Formencode type (default `string`) and format |
| OpenApiFields.DisjunctiveFieldDict | remple/openapi.py:1419-1432 | an untyped dict whose `anyOf` lists the alternatives |
| OpenApiFields.ScalarMutFieldDict | remple/openapi.py:1435-1450 | the Formencode type and format, with `minLength` and `maxLength` exactly when min and max are truthy |
| OpenApiFields.MutFieldDict | remple/openapi.py:1218-1224 | the dispatch on the validator class |
| OpenApiFields.UntypedValidators | remple/openapi.py:1225-1228 | a field dict has neither type nor `anyOf` exactly for an unlisted validator or an `Any` without validators |
| OpenApiSchemas.ReadProperty | remple/openapi.py:1259-1289 | a property carries the field dict's type, format and `items`, the choices as `enum`, `nullable`, the type default and the help text; apart from those four keys it is the field dict unchanged |
| OpenApiSchemas.ReadEntry | remple/openapi.py:1258-1289 | an entry is untyped exactly for an unlisted Django field |
| OpenApiSchemas.ReadEntries | remple/openapi.py:1258 | one entry per model field, in order |
| OpenApiSchemas.GetReadSchema | remple/openapi.py:1245-1293 | the loop computes the corrected read schema |
| OpenApiSchemas.ReadSchemaWellFormed | remple/openapi.py:1278-1292 | with the fix, every required name is a property, and every property is typed and has a default |
| OpenApiSchemas.ReadSchemaContents | remple/openapi.py:1258-1292 | a name is a property exactly when some typed field has it; it is required exactly when such a field is also required |
| OpenApiSchemas.UntypedRequiredFieldAsWritten | remple/openapi.py:1278-1283 | as written, a required field of unknown type is listed in `required` but has no property |
| OpenApiSchemas.ReadSchemaAgreesWhenTyped | remple/openapi.py:1278-1283 | when every field is typed, the code as written and the fix agree |
| OpenApiSchemas.ReadSchemaAsWrittenContents | remple/openapi.py:1258-1292 | as written, a name is a property exactly when some typed field has it, and it is required exactly when some field marked required has it, typed or not |
| OpenApiSchemas.MutProperty | remple/openapi.py:1229-1238 | a create/update property is the field dict except for `default` and `description`: it takes the read property's default when there is one, and the read property's description when that is non-empty, else the field dict's |
| OpenApiSchemas.GetCreateUpdateSchema | remple/openapi.py:1211-1243 | the loop computes the create/update schema function |
| OpenApiSchemas.CreateUpdateFails | remple/openapi.py:1217-1224 | building fails exactly when some validator's field dict raises |
| OpenApiSchemas.CreateUpdateFollowsRead | remple/openapi.py:1225-1239 | required names are properties and required in the read schema; defaults come from the read schema; no property is untyped |
| OpenApiSchemas.CreateUpdateContents | remple/openapi.py:1216-1243 | a built schema has a property exactly for the validators whose field dict has a type or `anyOf`, and requires exactly those of them the read schema requires |
| OpenApiSchemaTable.RelatedKinds | remple/openapi.py:1013-1041 | one related-filter schema per relational attribute |
| OpenApiSchemaTable.SearchKinds | remple/openapi.py:842-860 | a searchable resource gets the fixed filter, query and search schemata, plus one related filter per relational attribute |
| OpenApiSchemaTable.GeneratedKindsSelection | remple/openapi.py:815-860 | every resource gets view and paginated schemata; mutable ones also get create, update, new and edit; searchable ones get the search schemata |
| OpenApiSchemaTable.ComposedKindDoc | remple/openapi.py:874-1155 | a schema built from references refers to exactly its targets' paths |
| OpenApiSchemaTable.RefTargetsShape | remple/openapi.py:874-1155 | only the paginated subset and the search schema refer to the paginator, no schema refers to itself, and exactly the eight assembled schemata hold references |
| OpenApiSchemaTable.ComposedEntries | remple/openapi.py:834-860 | one entry per kind, named by the schema name getters |
| OpenApiSchemaTable.CustomEntries | remple/openapi.py:823-825 | one entry per custom schema item, kept verbatim |
| OpenApiSchemaTable.ResourceEntriesFail | remple/openapi.py:827-833 | a resource fails exactly when it is mutable and its create or update schema raises |
| OpenApiSchemaTable.MutableEntriesOf | remple/openapi.py:826-840 | a read-only resource gets no mutable schemata; a mutable one fails exactly when its create or update schema raises, and otherwise gets those two, built from the read schema, then the new and edit schemata |
| OpenApiSchemaTable.ResourceEntriesStart | remple/openapi.py:815-822 | a resource's entries start with its read schema and its paginated schema, which refers to the paginator and the read schema |
| OpenApiSchemaTable.RefTargetsGenerated | remple/openapi.py:874-1155 | every schema a generated schema refers to is also generated, or is the paginator |
| OpenApiSchemaTable.ResourceEntriesShape | remple/openapi.py:815-860 | a resource's entries are well shaped and are named exactly by its generated kinds |
| OpenApiSchemaTable.ShapedEntriesResolve | remple/openapi.py:815-860 | every `$ref` in well-shaped entries names a schema of the table |
| OpenApiSchemaTable.GetSchemas | remple/openapi.py:800-861 | the loop computes the schema table function |
| OpenApiSchemaTable.SetEntries | remple/openapi.py:818-860 | `schemas[name] = schema` for every entry, in order |
| OpenApiSchemaTable.AddResourcesFails | remple/openapi.py:815-860 | the table fails exactly when some resource fails |
| OpenApiSchemaTable.AddResourcesKeys | remple/openapi.py:815-860 | the table's names are the initial ones plus every resource's entry names |
| OpenApiSchemaTable.AddResourcesResolve | remple/openapi.py:815-860 | adding resources keeps every `$ref` resolvable and keeps the paginator |
| OpenApiSchemaTable.SchemasFail | remple/openapi.py:800-861 | `_get_schemas` fails exactly when some resource fails |
| OpenApiSchemaTable.SchemasLayout | remple/openapi.py:811-814 | the table starts with ErrorSchema and PaginatorSchema, holds exactly those plus the resources' entries, and every `$ref` in it resolves |
| OpenApiSchemaTable.SchemasDefineGenerated | remple/openapi.py:815-860 | every generated kind of every resource is in the table |
| OpenApiPaths.ApplyAllKeys | remple/openapi.py:180-182 | after a sequence of edits, the paths are the old ones plus the edited ones |
| OpenApiPaths.Untouched | remple/openapi.py:192 | an operation no edit touches is unchanged |
| OpenApiPaths.PathUntouched | remple/openapi.py:180-226 | a path no edit names is unchanged |
| OpenApiPaths.LastPutWins | remple/openapi.py:192-203 | the last write to a (path, verb) pair decides its operation |
| OpenApiPaths.LastAssignWins | remple/openapi.py:226 | the last custom endpoint for a path replaces the whole path item |
| OpenApiPaths.NewPathParameters | remple/openapi.py:179-182 | `setdefault` on a new path stores the parameters of its first write |
| OpenApiPaths.OldPathParameters | remple/openapi.py:180-182 | `setdefault` leaves an existing path's parameters alone |
| OpenApiPaths.CustomExtras | remple/openapi.py:222-225 | exactly the truthy ones of parameters, request body, responses and tags are copied |
| OpenApiPaths.SetDefaultPut | remple/openapi.py:179-203 | writing one operation is the `Put` edit |
| OpenApiPaths.SetCrudPath | remple/openapi.py:162-203 | one CRUD action's write |
| OpenApiPaths.SetCrudPaths | remple/openapi.py:155-203 | the loop writes every action that is not skipped, in order |
| OpenApiPaths.SetCrudPathsFor | remple/openapi.py:157-161 | the loop over any list of actions writes the ones that are not skipped |
| OpenApiPaths.SetSearchPath | remple/openapi.py:267-303 | one search action's write |
| OpenApiPaths.SetSearchPaths | remple/openapi.py:264-303 | the `search_post` and `new_search` writes, in order |
| OpenApiPaths.SetSearchPathsFor | remple/openapi.py:266 | the loop over any list of search actions |
| OpenApiPaths.SetCustomPaths | remple/openapi.py:205-226 | one assignment per custom endpoint, in order |
| OpenApiPaths.SetResourcePaths | remple/openapi.py:143-152 | CRUD writes, then search writes when searchable, then custom assignments |
| OpenApiPaths.GetPaths | remple/openapi.py:140-153 | the resources are handled in name order, starting from an empty dict |
| OpenApiPaths.DocPath | remple/openapi.py:166-178 | each action's path is `/<collection>/` followed by its tail |
| OpenApiPaths.DocParams | remple/openapi.py:169-182 | the member actions (delete, show, update and edit) carry the `pk` parameter, and the rest carry none |
| OpenApiPaths.DocVerb | remple/openapi.py:162-163 | the verb key is the lower-cased method |
| OpenApiPaths.Parameters | remple/openapi.py:650-658 | only `index` has parameters: five `$ref`s into `#/components/parameters/` |
| OpenApiPaths.RequestBodyKind | remple/openapi.py:602-649 | exactly create, update, search and search_post have a request body: the create, update and search schema respectively |
| OpenApiPaths.ResponseTargets | remple/openapi.py:440-598 | the first response is the success one (201 for create, 200 otherwise) with a schema of the resource; the others are 400, 403 or 404 with the error schema; no code twice |
| OpenApiPaths.ResponsesOf | remple/openapi.py:440-598 | the responses are one per target, with the target's code and the `$ref` path of its schema |
| OpenApiPaths.OperationParts | remple/openapi.py:186-203 | a documented operation carries the action's operation id, parameters, request body and responses, is tagged with the collection name, and its summary equals its description and ends with the subject and `.` |
| OpenApiPaths.CustomItemOf | remple/openapi.py:210-226 | a custom path item has no parameters and exactly one operation, under the endpoint's method, with its operation id, summary, description and the truthy user data |
| OpenApiPaths.DocKeysDistinct | remple/openapi.py:155-303 | distinct actions write distinct (path, verb) pairs |
| OpenApiPaths.CrudActionsKept | remple/openapi.py:157-161 | a mutable resource documents all seven actions, a read-only one only index and show |
| OpenApiPaths.DocumentedActionsAre | remple/openapi.py:143-150 | the documented actions are the kept CRUD actions, followed by the search actions when searchable |
| OpenApiPaths.DocumentedActionsDistinct | remple/openapi.py:143-150 | an action is documented exactly when it is kept; none is documented twice |
| OpenApiPaths.DocumentedOperationPresent | remple/openapi.py:192-203 | every documented action's operation is at its (path, verb) pair |
| OpenApiPaths.DocumentedPathParameters | remple/openapi.py:179-182 | a documented path's parameters are its old ones, or the action's own for a new path |
| OpenApiPaths.CustomEndpointReplaces | remple/openapi.py:210-226 | the last custom endpoint on a path decides the whole path item |
| OpenApiPaths.CustomOthersUntouched | remple/openapi.py:210-226 | custom endpoints leave other paths alone |
| OpenApiPaths.ResourceDocumentedOperation | remple/openapi.py:143-152 | after all of a resource's edits, every documented action whose path no custom endpoint takes has its operation in place |
| OpenApiPaths.ResourceCustomEndpoint | remple/openapi.py:143-152 | after all of a resource's edits, the last custom endpoint on each path owns it |
| OpenApiPaths.DocumentedOperationsNamed | remple/openapi.py:164-203 | distinct documented operations have distinct ids, each is tagged with the collection, and its summary equals its description |
| OpenApiDocument.ActionTargets | remple/openapi.py:440-648 | an action's request body and non-error responses refer only to its own schema kinds, and each of those kinds is referred to |
| OpenApiDocument.ActionRefs | remple/openapi.py:440-648 | every `$ref` of an operation is the error schema or one of the action's kinds |
| OpenApiDocument.ActionRefsCover | remple/openapi.py:440-648 | every kind of the action is referred to by its operation |
| OpenApiDocument.ActionKindsGenerated | remple/openapi.py:815-860 | the kinds a documented action refers to are generated for its resource |
| OpenApiDocument.ApplyAllResolves | remple/openapi.py:140-153 | edits whose `$ref`s resolve keep the paths resolvable |
| OpenApiDocument.DocumentedRefsResolve | remple/openapi.py:155-303 | every `$ref` of a documented operation resolves in a table that defines the resource's schemata |
| OpenApiDocument.ResourceEditsResolve | remple/openapi.py:143-152 | every edit of a resource resolves |
| OpenApiDocument.AllEditsResolve | remple/openapi.py:142-152 | every edit of every resource resolves |
| OpenApiDocument.SchemasDefine | remple/openapi.py:800-861 | the schema table defines every resource's generated schemata |
| OpenApiDocument.GeneratedRefsResolve | remple/openapi.py:103-108 | every `$ref` of the generated paths names a schema of `components.schemas` |
| PyText.Split | remple/openapi.py:1315 | `str.split(c)`: the pieces contain no `c` and joined with `c` give back the string |
| PyText.SplitJoin | remple/openapi.py:1315 | splitting a `c`-join of `c`-free parts gives the parts back |
| PyText.SplitOnceOfJoined | remple/routebuilder.py:148 | `split(':', 1)` of `a:b` with a colon-free `a` is `[a, b]` |
| PyText.TokensEmpty | remple/routebuilder.py:147 | `split()` gives no words exactly for a blank string |
| PyText.LastToken | remple/routebuilder.py:147 | `split()[-1]` is missing (IndexError) exactly for a blank string, and is otherwise the last word |
| PyText.DigitsValue | remple/openapi.py:1318 | a digit run's value is zero exactly when every digit is `0` |
| PyText.PyIntOfDigits | remple/openapi.py:1318 | `int()` reads a digit run as its value |
| PyText.Capitalize | remple/openapi.py:310 | `capitalize()` upper-cases the first character and lower-cases the rest |
| PyValues.Set | remple/openapi.py:818 | `d[k] = v` on an ordered dict: an existing key keeps its place, a new key is appended, and every other key is unchanged |
| PyValues.SetAllKeys | remple/openapi.py:818-860 | after a series of assignments the keys are the old ones and the items' |
| PyValues.SetAllValues | remple/openapi.py:818-860 | every value after the assignments is an old value or one of the items' |
| PyValues.SortedItems | remple/openapi.py:142 | `sorted(d.items())` is sorted by key and is a permutation of the items |
| PyValues.EnumerationSize | remple/routebuilder.py:178 | `items()` lists each key once, so as many entries as the set has keys |

## Left out

- Django plumbing is not modelled: `url`, `csrf_exempt`, `partial`, `JsonResponse`, the
  resource instance built from the request, and Django's regex matching. The view is a
  function of the configured methods, the request method, the authentication outcome and
  a handler parameter.
- The database half of `is_authenticated` (`remple/routebuilder.py:153-164`) is not
  modelled. It looks up the `User` and its `ApiKey` and compares the keys. The model covers
  the header half only; the lookup's outcome is a boolean parameter of the view.
- Logging is not modelled.
- The schema, YAML, doc and client views (`remple/routebuilder.py:311-357`) and their HTML
  templates are not modelled. Only their four URL patterns are.
- YAML and JSON serialisation (`yaml_dump`, `to_yaml`, `to_json`) is not modelled.
- The document's `info`, `servers`, `security`, `securitySchemes` and
  `components.parameters`, and `_get_tags`, are left out; none of them holds a schema
  `$ref`.
- Response descriptions, request-body descriptions and the search request-body examples
  (`_get_search_request_body_examples`) are left out. Each operation keeps its request
  body `$ref`, its parameters and its responses as (status code, `$ref`) pairs.
- The paginator, error, filter, query, search and new-search schemata keep only their
  `$ref` structure. Their inline property lists (`remple/openapi.py:863-1209`) and the
  query builder are not modelled.
- `inflect`'s plural is a function parameter; so pluralisation rules are not modelled.
- Python 2 dict iteration order is not modelled: it is a parameter wherever the code
  iterates a plain dict.
- `get_default_for_type`'s `float` branch is unreachable, because no Django field class
  maps to `float`, and it is not modelled.
- A resource class without `primary_key` is not modelled. `getattr(..., 'uuid')` is the
  caller passing `"uuid"`.
- The `pk_patt` config key of `_get_paths` is not modelled: the OpenAPI path template
  never uses it.
- A callable `help_text` is not modelled. It is taken to be the text it returns.
- RouteBuilding.CustomRoute: its regex is the corrected path translation (one group per
  `{name}`), not the greedy `openapi_path2regex` the code calls. The two agree on paths
  with one parameter (RoutePatterns.GreedyAgreesOnOneParam). The route of a custom path
  with two or more parameters is not modelled as written.
- RouteBuilding.CustomRoutes: built from RouteBuilding.CustomRoute, so it has the same gap
  for paths with two or more parameters.
- OpenApiSchemaTable.ResourceEntries: its read schema is the corrected one, which leaves a
  field of unknown type out of `required`. The two agree when every model field has a
  known type (OpenApiSchemas.ReadSchemaAgreesWhenTyped). For a required field of unknown
  type, the as-written `required` entry of the read schema, and of the create and update
  schemata built from it, is not modelled in the table.
- OpenApiSchemaTable.GetSchemas: built from OpenApiSchemaTable.ResourceEntries, so it has
  the same gap.
- OpenApiSchemas.GetReadSchema: the loop computes the corrected read schema. The code as
  written is OpenApiSchemas.ReadSchemaAsWritten, described by
  OpenApiSchemas.ReadSchemaAsWrittenContents.
- RouteBuilding.MethodNotAllowed: its contract fixes the start and the end of the message
  (the method tried, and the accepted methods joined by `, `), not the whole sentence.
- OpenApiNames.DigitsVersionSlug: it covers the four examples of the docstring as one
  general statement about dotted digit strings. The examples are not stated as literal
  lemmas.

## Findings

| source | as written | input that shows it | evidently intended | confidence | as-written member | corrected member |
|---|---|---|---|---|---|---|
| remple/routebuilder.py:430-437 | `\{(.+)\}` is greedy and matches from the first `{` to the last `}` | a custom endpoint path `{pk}/{n}/` becomes a single group named `pk}/{n`, which is not a valid group name | one named group per `{name}`, as with `\{([^}]+)\}` | not executed | RoutePatterns.GreedyMergesPkAndN | RoutePatterns.SubstituteOnTwoParams |
| remple/openapi.py:1278-1283 | a required field is appended to `required` before the unknown-type `continue` | a required model field of a class missing from the type map: its name is in `required` but it has no property | skip unknown-type fields entirely, so that every required name is a property | not executed | OpenApiSchemas.UntypedRequiredFieldAsWritten | OpenApiSchemas.ReadSchemaWellFormed |
| remple/routebuilder.py:146-152 | `auth_header.split()[-1]` sits in a `try` that catches only ValueError | the header `" "`: `split()` is empty, so IndexError escapes `is_authenticated` | a blank header is rejected like a malformed one | not executed | RouteBuilding.BlankHeaderRaises | RouteBuilding.Credentials |
