/** What the router and the generator read off a resource class and its configuration:
    the attributes listed by `dir()`, the custom endpoints among them, the Django model's
    fields, the create and update formencode schemata, and the `searchable` flag. */
module Resources {
  import opened PyText
  import opened PyValues
  import opened OpenApiFields

  /** A `CustomEndPoint` descriptor. The optional attributes hold whatever was passed,
      or the empty list/dict that replaces a falsy argument. */
  datatype CustomEndPoint = CustomEndPoint(
    path: string,
    httpMethod: string,
    action: string,
    methodName: string,
    summary: string,
    description: string,
    tags: Json,
    parameters: Json,
    schemata: seq<(string, Json)>,
    responses: Json,
    requestBody: Json)

  /** `x or default` */
  function Or(x: Json, default: Json): (r: Json)
    ensures Truthy(x) ==> r == x
    ensures !Truthy(x) ==> r == default
  {
    if Truthy(x) then x else default
  }

  /** `CustomEndPoint(...)`: `tags` and `parameters` default to `[]`, `request_body` and
      `responses` to `{}`; `schemata` is given as the items of the dict passed (empty for
      a falsy argument). */
  function NewCustomEndPoint(path: string, httpMethod: string, action: string, methodName: string,
                             summary: string, description: string, tags: Json, parameters: Json,
                             schemata: seq<(string, Json)>, responses: Json, requestBody: Json)
    : (e: CustomEndPoint)
    ensures e.path == path && e.httpMethod == httpMethod && e.action == action
    ensures e.methodName == methodName && e.summary == summary && e.description == description
    ensures e.schemata == schemata
    ensures e.tags == (if Truthy(tags) then tags else JList([]))
    ensures e.parameters == (if Truthy(parameters) then parameters else JList([]))
    ensures e.responses == (if Truthy(responses) then responses else JDict([]))
    ensures e.requestBody == (if Truthy(requestBody) then requestBody else JDict([]))
    ensures Truthy(e.tags) <==> Truthy(tags)
    ensures Truthy(e.parameters) <==> Truthy(parameters)
    ensures Truthy(e.responses) <==> Truthy(responses)
    ensures Truthy(e.requestBody) <==> Truthy(requestBody)
  {
    CustomEndPoint(path, httpMethod, action, methodName, summary, description,
                   Or(tags, JList([])), Or(parameters, JList([])), schemata,
                   Or(responses, JDict([])), Or(requestBody, JDict([])))
  }

  /** The value of a class attribute: a custom endpoint or anything else. */
  datatype ClassAttr = EndpointAttr(endpoint: CustomEndPoint) | OtherAttr

  /** A resource class. `mutable` is whether it subclasses `Resources` (rather than only
      `ReadonlyResources`); `attributes` is `dir(cls)` with each attribute's value, in
      `dir` order; `createFields` and `updateFields` are the items of the `fields` of
      `get_create_schema_cls()` and `get_update_schema_cls()`; `newEditCollections` is
      `_get_new_edit_collections()`; `relationalAttributes` are the attributes the query
      builder lists with a `foreign_model`. */
  datatype ResourceClass = ResourceClass(
    mutable: bool,
    primaryKey: string,
    attributes: seq<(string, ClassAttr)>,
    modelFields: seq<ModelField>,
    createFields: seq<(string, Validator)>,
    updateFields: seq<(string, Validator)>,
    newEditCollections: seq<string>,
    relationalAttributes: seq<string>)

  /** A resource's configuration dict: `resource_cls`, and `searchable` (None when the key
      is absent, otherwise the truthiness of its value). */
  datatype ResourceConfig = ResourceConfig(resourceCls: ResourceClass, searchable: Option<bool>)

  /** `rsrc_config.get('searchable', True)` */
  predicate IsSearchable(cfg: ResourceConfig) {
    cfg.searchable != Some(false)
  }

  /** An attribute name `dir` lists that is skipped because it starts with `_`. */
  predicate IsPrivate(name: string) {
    StartsWith(name, "_")
  }

  /** The custom endpoints among a class's attributes: the public attributes whose value
      is a `CustomEndPoint`, in `dir` order. */
  function CustomEndpoints(attrs: seq<(string, ClassAttr)>): (r: seq<CustomEndPoint>)
    ensures |r| <= |attrs|
    ensures forall i :: 0 <= i < |attrs| && !IsPrivate(attrs[i].0) && attrs[i].1.EndpointAttr? ==>
              attrs[i].1.endpoint in r
    ensures forall e :: e in r ==>
              exists i :: 0 <= i < |attrs| && !IsPrivate(attrs[i].0) && attrs[i].1 == EndpointAttr(e)
  {
    if attrs == [] then []
    else
      var rest := CustomEndpoints(attrs[1..]);
      assert forall i :: 1 <= i < |attrs| ==> attrs[i] == attrs[1..][i - 1];
      if !IsPrivate(attrs[0].0) && attrs[0].1.EndpointAttr? then [attrs[0].1.endpoint] + rest
      else rest
  }

  /** Whether `_get_custom_endpoints` keeps an attribute. */
  predicate IsEndpointAttr(attr: (string, ClassAttr)) {
    !IsPrivate(attr.0) && attr.1.EndpointAttr?
  }

  lemma {:induction false} CustomEndpointsSnoc(attrs: seq<(string, ClassAttr)>, attr: (string, ClassAttr))
    ensures CustomEndpoints(attrs + [attr]) ==
            CustomEndpoints(attrs) + (if IsEndpointAttr(attr) then [attr.1.endpoint] else [])
    decreases |attrs|
  {
    if attrs != [] {
      assert (attrs + [attr])[1..] == attrs[1..] + [attr];
      CustomEndpointsSnoc(attrs[1..], attr);
    }
  }

  /** `_get_custom_endpoints(resource_cls)` */
  method GetCustomEndpoints(cls: ResourceClass) returns (ret: seq<CustomEndPoint>)
    ensures ret == CustomEndpoints(cls.attributes)
  {
    ret := [];
    for i := 0 to |cls.attributes|
      invariant ret == CustomEndpoints(cls.attributes[..i])
    {
      var attr := cls.attributes[i];
      assert cls.attributes[..i + 1] == cls.attributes[..i] + [attr];
      CustomEndpointsSnoc(cls.attributes[..i], attr);
      if !IsPrivate(attr.0) && attr.1.EndpointAttr? {
        ret := ret + [attr.1.endpoint];
      }
    }
    assert cls.attributes[..|cls.attributes|] == cls.attributes;
  }

  /** `_get_cust_endpt_schemata`: the items of every custom endpoint's `schemata`. */
  function CustomSchemata(endpoints: seq<CustomEndPoint>): (r: seq<(string, Json)>)
    ensures forall e, k :: e in endpoints && 0 <= k < |e.schemata| ==> e.schemata[k] in r
    ensures forall p :: p in r ==> exists e :: e in endpoints && p in e.schemata
  {
    if endpoints == [] then []
    else endpoints[0].schemata + CustomSchemata(endpoints[1..])
  }

  lemma {:induction false} CustomSchemataSnoc(endpoints: seq<CustomEndPoint>, e: CustomEndPoint)
    ensures CustomSchemata(endpoints + [e]) == CustomSchemata(endpoints) + e.schemata
    decreases |endpoints|
  {
    if endpoints != [] {
      assert (endpoints + [e])[1..] == endpoints[1..] + [e];
      CustomSchemataSnoc(endpoints[1..], e);
    }
  }

  /** `_get_cust_endpt_schemata(resource_name, resource_cfg)`: the items of each custom
      endpoint's `schemata`, endpoint by endpoint. */
  method GetCustEndptSchemata(cls: ResourceClass) returns (ret: seq<(string, Json)>)
    ensures ret == CustomSchemata(CustomEndpoints(cls.attributes))
  {
    var endpoints := GetCustomEndpoints(cls);
    ret := [];
    for i := 0 to |endpoints|
      invariant ret == CustomSchemata(endpoints[..i])
    {
      var e := endpoints[i];
      var before := ret;
      for k := 0 to |e.schemata|
        invariant ret == before + e.schemata[..k]
      {
        ret := ret + [e.schemata[k]];
        assert e.schemata[..k + 1] == e.schemata[..k] + [e.schemata[k]];
      }
      assert e.schemata[..|e.schemata|] == e.schemata;
      assert endpoints[..i + 1] == endpoints[..i] + [e];
      CustomSchemataSnoc(endpoints[..i], e);
    }
    assert endpoints[..|endpoints|] == endpoints;
  }
}
