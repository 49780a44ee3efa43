/** The `schemas` component of the document (`_get_schemas`): an ordered dict holding the
    error and paginator schemata, then, resource by resource in name order, the schemata
    the resource's mutability and `searchable` flag call for, together with the schemata
    its custom endpoints declare. */
module OpenApiSchemaTable {
  import opened PyText
  import opened PyValues
  import opened Resources
  import opened OpenApiNames
  import OpenApiSchemas

  type ObjectSchema = OpenApiSchemas.ObjectSchema

  /** A schema document as the generator writes it. Only what the rest of the document
      relies on is kept: the introspected object schemata, the `$ref` paths of the
      schemata assembled from references, and the custom schemata verbatim. */
  datatype SchemaDoc =
    | ErrorDoc                                 // `_get_error_schema()`
    | PaginatorDoc                             // `_get_paginator_schema()`
    | ObjectDoc(schema: ObjectSchema)          // a read, create or update schema
    | NewDoc(collections: seq<string>)         // `_get_new_schema`: one URI array per collection
    | ComposedDoc(refs: seq<string>)           // a schema built around these `$ref` paths
    | AttributeFilterDoc(attribute: Option<string>)  // the simple filter, or the related filter on an attribute
    | ConstantDoc                              // the array filter and the new-search schema
    | CustomDoc(json: Json)                    // a custom endpoint's schema

  /** The `$ref` paths a document holds (custom schemata are not inspected). */
  function Refs(doc: SchemaDoc): seq<string> {
    if doc.ComposedDoc? then doc.refs else []
  }

  type SchemaTable = seq<(string, SchemaDoc)>

  // ---------------------------------------------------------------------------
  // Which schemata a resource gets
  // ---------------------------------------------------------------------------

  /** The schemata every resource gets. */
  const BaseKinds: seq<SchemaKind> := [ReadSchema, PaginatedSchema]

  /** The schemata only a `Resources` subclass gets. */
  const MutableKinds: seq<SchemaKind> := [CreateSchema, UpdateSchema, NewSchema, EditSchema]

  function RelatedKinds(attributes: seq<string>): (ks: seq<SchemaKind>)
    ensures |ks| == |attributes| && forall i :: 0 <= i < |ks| ==> ks[i] == RelatedFilterSchema(attributes[i])
    ensures forall k: SchemaKind :: k in ks <==> k.RelatedFilterSchema? && k.attribute in attributes
  {
    var ks := seq(|attributes|, i requires 0 <= i < |attributes| => RelatedFilterSchema(attributes[i]));
    assert forall k: SchemaKind :: k.RelatedFilterSchema? && k.attribute in attributes ==> k in ks by {
      forall k: SchemaKind | k.RelatedFilterSchema? && k.attribute in attributes ensures k in ks {
        var i :| 0 <= i < |attributes| && attributes[i] == k.attribute;
        assert ks[i] == k;
      }
    }
    ks
  }

  /** The schemata every searchable resource gets, whatever its relational attributes. */
  const FixedSearchKinds: seq<SchemaKind> :=
    [SimpleFilterSchema, CoordinativeFilterSchema, NegativeFilterSchema, ArrayFilterSchema,
     ObjectFilterSchema, FilterSchema, QuerySchema, SearchSchema, NewSearchSchema]

  /** The schemata whose documents are assembled rather than introspected. */
  predicate IsComposedKind(k: SchemaKind) {
    k != ReadSchema && k != CreateSchema && k != UpdateSchema
  }

  /** The schemata only a searchable resource gets, in `_get_filter_schemas` order, then
      the query, search and new-search schemata. */
  function SearchKinds(attributes: seq<string>): (ks: seq<SchemaKind>)
    ensures forall k: SchemaKind :: k in ks <==> k in FixedSearchKinds || (k.RelatedFilterSchema? && k.attribute in attributes)
    ensures forall k :: k in ks ==> IsComposedKind(k)
  {
    [SimpleFilterSchema] + RelatedKinds(attributes) +
    [CoordinativeFilterSchema, NegativeFilterSchema, ArrayFilterSchema, ObjectFilterSchema, FilterSchema,
     QuerySchema, SearchSchema, NewSearchSchema]
  }

  /** All the schemata generated for a resource (its custom ones aside). */
  function GeneratedKinds(cfg: ResourceConfig): seq<SchemaKind> {
    BaseKinds + (if cfg.resourceCls.mutable then MutableKinds else []) +
    (if IsSearchable(cfg) then SearchKinds(cfg.resourceCls.relationalAttributes) else [])
  }

  /** Which schemata a resource gets: the base ones always, the create, update, new and
      edit schemata exactly when it is mutable, and the filter, query, search and
      new-search schemata (a related filter per relational attribute) exactly when it is
      searchable. */
  lemma GeneratedKindsSelection(cfg: ResourceConfig, k: SchemaKind)
    ensures k in GeneratedKinds(cfg) <==>
              k in BaseKinds ||
              (k in MutableKinds && cfg.resourceCls.mutable) ||
              (k in FixedSearchKinds && IsSearchable(cfg)) ||
              (k.RelatedFilterSchema? && IsSearchable(cfg) && k.attribute in cfg.resourceCls.relationalAttributes)
  {
  }

  /** What a `$ref` of a generated schema points at: the paginator schema or another
      schema of the same resource. */
  datatype RefTarget = PaginatorTarget | KindTarget(kind: SchemaKind)

  function TargetName(t: RefTarget, resource: string, plural: string -> string): string {
    match t
    case PaginatorTarget => PaginatorSchemaName
    case KindTarget(k) => SchemaName(k, resource, plural)
  }

  /** `_get_paginator_schema_path()`, or `_get_<kind>_schema_path(resource_name)`. */
  function TargetPath(t: RefTarget, resource: string, plural: string -> string): (p: string)
    ensures t.PaginatorTarget? ==> p == PaginatorSchemaPath()
    ensures t.KindTarget? ==> p == SchemaPath(t.kind, resource, plural)
  {
    SchemaNameToPath(TargetName(t, resource, plural))
  }

  function TargetPaths(ts: seq<RefTarget>, resource: string, plural: string -> string): (ps: seq<string>)
    ensures |ps| == |ts| && forall i :: 0 <= i < |ts| ==> ps[i] == TargetPath(ts[i], resource, plural)
  {
    seq(|ts|, i requires 0 <= i < |ts| => TargetPath(ts[i], resource, plural))
  }

  /** The related filters `_get_related_filter_schema_paths_refs` points at. */
  function RelatedTargets(attributes: seq<string>): (ts: seq<RefTarget>)
    ensures |ts| == |attributes| && forall i :: 0 <= i < |ts| ==> ts[i] == KindTarget(RelatedFilterSchema(attributes[i]))
  {
    seq(|attributes|, i requires 0 <= i < |attributes| => KindTarget(RelatedFilterSchema(attributes[i])))
  }

  /** The `$ref`s of the schemata built around references, in the order they are written:
      the paginated subset refers to the paginator and the read schema; the edit schema
      to the new and the read schema; the coordinative, negative and query schemata to the
      filter schema; the object filter to the coordinative, negative, simple and related
      filters; the filter to the object and the array filter; the search schema to the
      query and the paginator schema. */
  function RefTargets(k: SchemaKind, cls: ResourceClass): seq<RefTarget> {
    match k
    case PaginatedSchema => [PaginatorTarget, KindTarget(ReadSchema)]
    case EditSchema => [KindTarget(NewSchema), KindTarget(ReadSchema)]
    case CoordinativeFilterSchema => [KindTarget(FilterSchema)]
    case NegativeFilterSchema => [KindTarget(FilterSchema)]
    case ObjectFilterSchema =>
      [KindTarget(CoordinativeFilterSchema), KindTarget(NegativeFilterSchema), KindTarget(SimpleFilterSchema)] +
      RelatedTargets(cls.relationalAttributes)
    case FilterSchema => [KindTarget(ObjectFilterSchema), KindTarget(ArrayFilterSchema)]
    case QuerySchema => [KindTarget(FilterSchema)]
    case SearchSchema => [KindTarget(QuerySchema), PaginatorTarget]
    case _ => []
  }

  /** Only the paginated subset and the search schema refer to the paginator; no schema
      refers to itself; exactly the eight schemata built around references have any. */
  lemma RefTargetsShape(k: SchemaKind, cls: ResourceClass)
    ensures PaginatorTarget in RefTargets(k, cls) <==> k == PaginatedSchema || k == SearchSchema
    ensures KindTarget(k) !in RefTargets(k, cls)
    ensures RefTargets(k, cls) == [] <==>
              k !in [PaginatedSchema, EditSchema, CoordinativeFilterSchema, NegativeFilterSchema,
                     ObjectFilterSchema, FilterSchema, QuerySchema, SearchSchema]
  {
  }

  /** The document of a schema that is not introspected from the model or a validator
      class. */
  function ComposedKindDoc(k: SchemaKind, resource: string, plural: string -> string, cls: ResourceClass)
    : (doc: SchemaDoc)
    requires IsComposedKind(k)
    ensures Refs(doc) == TargetPaths(RefTargets(k, cls), resource, plural)
  {
    match k
    case NewSchema => NewDoc(cls.newEditCollections)
    case SimpleFilterSchema => AttributeFilterDoc(None)
    case RelatedFilterSchema(a) => AttributeFilterDoc(Some(a))
    case ArrayFilterSchema => ConstantDoc
    case NewSearchSchema => ConstantDoc
    case _ => ComposedDoc(TargetPaths(RefTargets(k, cls), resource, plural))
  }

  /** Named entries for a list of composed schemata. */
  function ComposedEntries(ks: seq<SchemaKind>, resource: string, plural: string -> string, cls: ResourceClass)
    : (es: SchemaTable)
    requires forall k :: k in ks ==> IsComposedKind(k)
    ensures |es| == |ks|
    ensures forall i :: 0 <= i < |ks| ==>
              es[i] == (SchemaName(ks[i], resource, plural), ComposedKindDoc(ks[i], resource, plural, cls))
  {
    seq(|ks|, i requires 0 <= i < |ks| =>
      (SchemaName(ks[i], resource, plural), ComposedKindDoc(ks[i], resource, plural, cls)))
  }

  /** The custom endpoints' schemata, as entries. */
  function CustomEntries(schemata: seq<(string, Json)>): (es: SchemaTable)
    ensures |es| == |schemata|
    ensures forall i :: 0 <= i < |es| ==> es[i] == (schemata[i].0, CustomDoc(schemata[i].1))
  {
    seq(|schemata|, i requires 0 <= i < |schemata| => (schemata[i].0, CustomDoc(schemata[i].1)))
  }

  /** The read and the paginated-subset schemata, which every resource gets. */
  function BaseEntries(resource: string, plural: string -> string, cls: ResourceClass, read: ObjectSchema)
    : SchemaTable
  {
    [(SchemaName(ReadSchema, resource, plural), ObjectDoc(read))] +
    ComposedEntries([PaginatedSchema], resource, plural, cls)
  }

  /** The create, update, new and edit schemata of a mutable resource (none for a
      read-only one); None when building the create or the update schema raises. */
  function MutableEntries(resource: string, plural: string -> string, cls: ResourceClass, read: ObjectSchema)
    : Option<SchemaTable>
  {
    if !cls.mutable then Some([])
    else
      var create := OpenApiSchemas.CreateUpdateSchema(read, cls.createFields);
      var update := OpenApiSchemas.CreateUpdateSchema(read, cls.updateFields);
      if create.None? || update.None? then None
      else
        Some([(SchemaName(CreateSchema, resource, plural), ObjectDoc(create.value)),
              (SchemaName(UpdateSchema, resource, plural), ObjectDoc(update.value))] +
             ComposedEntries([NewSchema, EditSchema], resource, plural, cls))
  }

  /** A read-only resource has no mutable schemata; a mutable one fails exactly when its
      create or its update schema raises, and otherwise gets the create and update
      schemata built from the read schema, then the new and edit schemata. */
  lemma MutableEntriesOf(resource: string, plural: string -> string, cls: ResourceClass, read: ObjectSchema)
    ensures !cls.mutable ==> MutableEntries(resource, plural, cls, read) == Some([])
    ensures var create := OpenApiSchemas.CreateUpdateSchema(read, cls.createFields);
            var update := OpenApiSchemas.CreateUpdateSchema(read, cls.updateFields);
            cls.mutable ==>
              (MutableEntries(resource, plural, cls, read).None? <==> create.None? || update.None?)
    ensures var create := OpenApiSchemas.CreateUpdateSchema(read, cls.createFields);
            var update := OpenApiSchemas.CreateUpdateSchema(read, cls.updateFields);
            var es := MutableEntries(resource, plural, cls, read);
            cls.mutable && es.Some? ==>
              |es.value| == 4 &&
              es.value[0] == (SchemaName(CreateSchema, resource, plural), ObjectDoc(create.value)) &&
              es.value[1] == (SchemaName(UpdateSchema, resource, plural), ObjectDoc(update.value)) &&
              es.value[2].0 == SchemaName(NewSchema, resource, plural) &&
              es.value[3].0 == SchemaName(EditSchema, resource, plural)
  {
  }

  /** The filter, query, search and new-search schemata of a searchable resource. */
  function SearchEntries(resource: string, cfg: ResourceConfig, plural: string -> string): SchemaTable {
    if IsSearchable(cfg) then
      ComposedEntries(SearchKinds(cfg.resourceCls.relationalAttributes), resource, plural, cfg.resourceCls)
    else []
  }

  /** The schemata the loop body of `_get_schemas` sets for one resource, in order; None
      when building the create or the update schema raises. The read schema is the
      corrected `ReadSchema`, which leaves a field of unknown type out of `required`. */
  function ResourceEntries(resource: string, cfg: ResourceConfig, plural: string -> string)
    : Option<SchemaTable>
  {
    var cls := cfg.resourceCls;
    var read := OpenApiSchemas.ReadSchema(cls.modelFields);
    match MutableEntries(resource, plural, cls, read)
    case None => None
    case Some(mutable) =>
      Some(BaseEntries(resource, plural, cls, read) +
           CustomEntries(CustomSchemata(CustomEndpoints(cls.attributes))) +
           mutable + SearchEntries(resource, cfg, plural))
  }

  /** A resource's entries start with its read schema, built from the model's fields, and
      its paginated schema, which refers to the paginator and the read schema. */
  lemma ResourceEntriesStart(resource: string, cfg: ResourceConfig, plural: string -> string)
    requires ResourceEntries(resource, cfg, plural).Some?
    ensures var es := ResourceEntries(resource, cfg, plural).value;
            |es| >= 2 &&
            es[0] == (SchemaName(ReadSchema, resource, plural),
                      ObjectDoc(OpenApiSchemas.ReadSchema(cfg.resourceCls.modelFields))) &&
            es[1].0 == SchemaName(PaginatedSchema, resource, plural) &&
            Refs(es[1].1) == [PaginatorSchemaPath(), SchemaPath(ReadSchema, resource, plural)]
  {
    var cls := cfg.resourceCls;
    var read := OpenApiSchemas.ReadSchema(cls.modelFields);
    var base := BaseEntries(resource, plural, cls, read);
    var custom := CustomEntries(CustomSchemata(CustomEndpoints(cls.attributes)));
    var mutable := MutableEntries(resource, plural, cls, read).value;
    var search := SearchEntries(resource, cfg, plural);
    BaseEntriesStart(resource, plural, cls, read);
    PrefixAt(base, custom);
    PrefixAt(base + custom, mutable);
    PrefixAt(base + custom + mutable, search);
  }

  lemma PrefixAt<T>(a: seq<T>, b: seq<T>)
    ensures |a + b| >= |a| && forall i :: 0 <= i < |a| ==> (a + b)[i] == a[i]
  {
  }

  lemma BaseEntriesStart(resource: string, plural: string -> string, cls: ResourceClass, read: ObjectSchema)
    ensures var base := BaseEntries(resource, plural, cls, read);
            |base| == 2 &&
            base[0] == (SchemaName(ReadSchema, resource, plural), ObjectDoc(read)) &&
            base[1].0 == SchemaName(PaginatedSchema, resource, plural) &&
            Refs(base[1].1) == [PaginatorSchemaPath(), SchemaPath(ReadSchema, resource, plural)]
  {
    var base := BaseEntries(resource, plural, cls, read);
    assert base[1] == ComposedEntries([PaginatedSchema], resource, plural, cls)[0];
    assert Refs(base[1].1) == TargetPaths(RefTargets(PaginatedSchema, cls), resource, plural);
  }

  /** Only a mutable resource whose create or update schema raises makes the loop body
      fail. */
  lemma ResourceEntriesFail(resource: string, cfg: ResourceConfig, plural: string -> string)
    ensures var read := OpenApiSchemas.ReadSchema(cfg.resourceCls.modelFields);
            ResourceEntries(resource, cfg, plural).None? <==>
              cfg.resourceCls.mutable &&
              (OpenApiSchemas.CreateUpdateSchema(read, cfg.resourceCls.createFields).None? ||
               OpenApiSchemas.CreateUpdateSchema(read, cfg.resourceCls.updateFields).None?)
  {
  }

  // ---------------------------------------------------------------------------
  // Every `$ref` of a resource's schemata names a schema of the same resource
  // ---------------------------------------------------------------------------

  /** A `$ref` path that points into `#/components/schemas/` at one of `names`. */
  predicate Resolves(ref: string, names: seq<string>) {
    SchemaPathToName(ref).Some? && SchemaPathToName(ref).value in names
  }

  /** `names` holds the paginator schema and every schema generated for the resource. */
  predicate NamesGenerated(names: seq<string>, resource: string, cfg: ResourceConfig, plural: string -> string) {
    PaginatorSchemaName in names &&
    forall k :: k in GeneratedKinds(cfg) ==> SchemaName(k, resource, plural) in names
  }

  /** A generated schema refers only to the paginator schema and to schemata generated
      for the same resource. */
  lemma RefTargetsGenerated(k: SchemaKind, cfg: ResourceConfig)
    requires k in GeneratedKinds(cfg)
    ensures forall t :: t in RefTargets(k, cfg.resourceCls) ==> t.PaginatorTarget? || t.kind in GeneratedKinds(cfg)
  {
    if k == ObjectFilterSchema {
      ObjectFilterTargetsGenerated(cfg);
    } else {
      FixedTargetsGenerated(k, cfg);
    }
  }

  lemma FixedTargetsGenerated(k: SchemaKind, cfg: ResourceConfig)
    requires k in GeneratedKinds(cfg) && k != ObjectFilterSchema
    ensures forall t :: t in RefTargets(k, cfg.resourceCls) ==> t.PaginatorTarget? || t.kind in GeneratedKinds(cfg)
  {
    if k == PaginatedSchema || k == EditSchema {
      GeneratedKindsSelection(cfg, k);
      GeneratedKindsSelection(cfg, NewSchema);
      GeneratedKindsSelection(cfg, ReadSchema);
    } else if k in [CoordinativeFilterSchema, NegativeFilterSchema, FilterSchema, QuerySchema, SearchSchema] {
      GeneratedKindsSelection(cfg, k);
      FixedSearchKindsGenerated(cfg);
    } else {
      assert RefTargets(k, cfg.resourceCls) == [];
    }
  }

  lemma FixedSearchKindsGenerated(cfg: ResourceConfig)
    requires IsSearchable(cfg)
    ensures forall k :: k in FixedSearchKinds ==> k in GeneratedKinds(cfg)
  {
    forall k | k in FixedSearchKinds ensures k in GeneratedKinds(cfg) {
      GeneratedKindsSelection(cfg, k);
    }
  }

  lemma ObjectFilterTargetsGenerated(cfg: ResourceConfig)
    requires ObjectFilterSchema in GeneratedKinds(cfg)
    ensures forall t :: t in RefTargets(ObjectFilterSchema, cfg.resourceCls) ==> t.KindTarget? && t.kind in GeneratedKinds(cfg)
  {
    var attrs := cfg.resourceCls.relationalAttributes;
    GeneratedKindsSelection(cfg, ObjectFilterSchema);
    forall t | t in RefTargets(ObjectFilterSchema, cfg.resourceCls) ensures t.KindTarget? && t.kind in GeneratedKinds(cfg) {
      if t in RelatedTargets(attrs) {
        var i :| 0 <= i < |attrs| && RelatedTargets(attrs)[i] == t;
        assert t.kind.attribute in attrs;
      }
      GeneratedKindsSelection(cfg, t.kind);
    }
  }


  lemma TargetPathsResolve(ts: seq<RefTarget>, resource: string, plural: string -> string, names: seq<string>)
    requires forall t :: t in ts ==> TargetName(t, resource, plural) in names
    ensures forall r :: r in TargetPaths(ts, resource, plural) ==> Resolves(r, names)
  {
    var ps := TargetPaths(ts, resource, plural);
    forall r | r in ps ensures Resolves(r, names) {
      var i :| 0 <= i < |ps| && ps[i] == r;
      SchemaPathRoundTrip(TargetName(ts[i], resource, plural));
    }
  }

  /** The references of a generated composed schema all resolve among the names of the
      paginator schema and of the resource's generated schemata. */
  lemma ComposedKindRefsResolve(k: SchemaKind, resource: string, cfg: ResourceConfig, plural: string -> string,
                                names: seq<string>)
    requires k in GeneratedKinds(cfg) && IsComposedKind(k)
    requires NamesGenerated(names, resource, cfg, plural)
    ensures forall r :: r in Refs(ComposedKindDoc(k, resource, plural, cfg.resourceCls)) ==> Resolves(r, names)
  {
    var ts := RefTargets(k, cfg.resourceCls);
    RefTargetsGenerated(k, cfg);
    assert forall t :: t in ts ==> TargetName(t, resource, plural) in names;
    TargetPathsResolve(ts, resource, plural, names);
  }

  /** The entries of `ComposedEntries` are exactly the named documents of its kinds. */
  lemma ComposedEntriesMembers(ks: seq<SchemaKind>, resource: string, plural: string -> string, cls: ResourceClass)
    requires forall k :: k in ks ==> IsComposedKind(k)
    ensures forall k :: k in ks ==>
              (SchemaName(k, resource, plural), ComposedKindDoc(k, resource, plural, cls)) in ComposedEntries(ks, resource, plural, cls)
    ensures forall p :: p in ComposedEntries(ks, resource, plural, cls) ==>
              exists k :: k in ks && p == (SchemaName(k, resource, plural), ComposedKindDoc(k, resource, plural, cls))
  {
    var es := ComposedEntries(ks, resource, plural, cls);
    forall k | k in ks
      ensures (SchemaName(k, resource, plural), ComposedKindDoc(k, resource, plural, cls)) in es
    {
      var i :| 0 <= i < |ks| && ks[i] == k;
      assert es[i] == (SchemaName(k, resource, plural), ComposedKindDoc(k, resource, plural, cls));
    }
    forall p | p in es
      ensures exists k :: k in ks && p == (SchemaName(k, resource, plural), ComposedKindDoc(k, resource, plural, cls))
    {
      var i :| 0 <= i < |es| && es[i] == p;
      assert ks[i] in ks;
    }
  }

  /** An entry is either one of the resource's custom schemata, or a generated schema
      under its name: an object schema for the introspected kinds, the composed document
      for the others. */
  predicate EntryShaped(p: (string, SchemaDoc), resource: string, cfg: ResourceConfig, plural: string -> string) {
    (p.1.CustomDoc? && p.0 in Keys(CustomSchemata(CustomEndpoints(cfg.resourceCls.attributes)))) ||
    exists k :: k in GeneratedKinds(cfg) && p.0 == SchemaName(k, resource, plural) &&
                (if IsComposedKind(k) then p.1 == ComposedKindDoc(k, resource, plural, cfg.resourceCls)
                 else p.1.ObjectDoc?)
  }

  predicate EntriesShaped(es: SchemaTable, resource: string, cfg: ResourceConfig, plural: string -> string) {
    forall p :: p in es ==> EntryShaped(p, resource, cfg, plural)
  }

  /** `names` holds the names of these kinds. */
  predicate NamesOf(ks: seq<SchemaKind>, names: seq<string>, resource: string, plural: string -> string) {
    forall k :: k in ks ==> SchemaName(k, resource, plural) in names
  }

  lemma ComposedEntriesShaped(ks: seq<SchemaKind>, resource: string, cfg: ResourceConfig, plural: string -> string)
    requires forall k :: k in ks ==> IsComposedKind(k) && k in GeneratedKinds(cfg)
    ensures EntriesShaped(ComposedEntries(ks, resource, plural, cfg.resourceCls), resource, cfg, plural)
    ensures NamesOf(ks, Keys(ComposedEntries(ks, resource, plural, cfg.resourceCls)), resource, plural)
  {
    var es := ComposedEntries(ks, resource, plural, cfg.resourceCls);
    ComposedEntriesMembers(ks, resource, plural, cfg.resourceCls);
    forall k | k in ks ensures SchemaName(k, resource, plural) in Keys(es) {
      ItemKeyInKeys(es, (SchemaName(k, resource, plural), ComposedKindDoc(k, resource, plural, cfg.resourceCls)));
    }
  }

  lemma BaseEntriesShaped(resource: string, cfg: ResourceConfig, plural: string -> string, read: ObjectSchema)
    ensures EntriesShaped(BaseEntries(resource, plural, cfg.resourceCls, read), resource, cfg, plural)
    ensures NamesOf(BaseKinds, Keys(BaseEntries(resource, plural, cfg.resourceCls, read)), resource, plural)
  {
    ComposedEntriesShaped([PaginatedSchema], resource, cfg, plural);
    var es := BaseEntries(resource, plural, cfg.resourceCls, read);
    assert ReadSchema in GeneratedKinds(cfg);
    assert EntryShaped(es[0], resource, cfg, plural);
    ItemKeyInKeys(es, es[0]);
    ItemKeyInKeys(es, es[1]);
  }

  lemma MutableEntriesShaped(resource: string, cfg: ResourceConfig, plural: string -> string, read: ObjectSchema)
    requires MutableEntries(resource, plural, cfg.resourceCls, read).Some?
    ensures var es := MutableEntries(resource, plural, cfg.resourceCls, read).value;
            EntriesShaped(es, resource, cfg, plural) &&
            (cfg.resourceCls.mutable ==> NamesOf(MutableKinds, Keys(es), resource, plural))
  {
    var cls := cfg.resourceCls;
    if cls.mutable {
      var es := MutableEntries(resource, plural, cls, read).value;
      var create := OpenApiSchemas.CreateUpdateSchema(read, cls.createFields).value;
      var update := OpenApiSchemas.CreateUpdateSchema(read, cls.updateFields).value;
      var objects := [(SchemaName(CreateSchema, resource, plural), ObjectDoc(create)),
                      (SchemaName(UpdateSchema, resource, plural), ObjectDoc(update))];
      var composed := ComposedEntries([NewSchema, EditSchema], resource, plural, cls);
      assert es == objects + composed;
      ComposedEntriesShaped([NewSchema, EditSchema], resource, cfg, plural);
      ObjectEntriesShaped(resource, cfg, plural, create, update);
      KeysConcat(objects, composed);
    }
  }

  /** The create and update schemata of a mutable resource are shaped entries. */
  lemma ObjectEntriesShaped(resource: string, cfg: ResourceConfig, plural: string -> string,
                            create: ObjectSchema, update: ObjectSchema)
    requires cfg.resourceCls.mutable
    ensures var objects := [(SchemaName(CreateSchema, resource, plural), ObjectDoc(create)),
                            (SchemaName(UpdateSchema, resource, plural), ObjectDoc(update))];
            EntriesShaped(objects, resource, cfg, plural) &&
            Keys(objects) == [SchemaName(CreateSchema, resource, plural), SchemaName(UpdateSchema, resource, plural)]
  {
    GeneratedKindsSelection(cfg, CreateSchema);
    GeneratedKindsSelection(cfg, UpdateSchema);
  }


  lemma SearchEntriesShaped(resource: string, cfg: ResourceConfig, plural: string -> string)
    ensures EntriesShaped(SearchEntries(resource, cfg, plural), resource, cfg, plural)
    ensures IsSearchable(cfg) ==>
              NamesOf(SearchKinds(cfg.resourceCls.relationalAttributes), Keys(SearchEntries(resource, cfg, plural)),
                      resource, plural)
  {
    if IsSearchable(cfg) {
      ComposedEntriesShaped(SearchKinds(cfg.resourceCls.relationalAttributes), resource, cfg, plural);
    }
  }

  lemma CustomEntriesShaped(resource: string, cfg: ResourceConfig, plural: string -> string)
    ensures EntriesShaped(CustomEntries(CustomSchemata(CustomEndpoints(cfg.resourceCls.attributes))),
                          resource, cfg, plural)
  {
    var schemata := CustomSchemata(CustomEndpoints(cfg.resourceCls.attributes));
    var es := CustomEntries(schemata);
    forall p | p in es ensures p.1.CustomDoc? && p.0 in Keys(schemata) {
      var i :| 0 <= i < |es| && es[i] == p;
      assert Keys(schemata)[i] == p.0;
    }
  }

  /** Each of a resource's entries holds no reference or is a generated composed schema,
      and every generated schema is among the entries. */
  lemma ResourceEntriesShape(resource: string, cfg: ResourceConfig, plural: string -> string)
    requires ResourceEntries(resource, cfg, plural).Some?
    ensures EntriesShaped(ResourceEntries(resource, cfg, plural).value, resource, cfg, plural)
    ensures NamesOf(GeneratedKinds(cfg), Keys(ResourceEntries(resource, cfg, plural).value), resource, plural)
  {
    var cls := cfg.resourceCls;
    var read := OpenApiSchemas.ReadSchema(cls.modelFields);
    var base := BaseEntries(resource, plural, cls, read);
    var custom := CustomEntries(CustomSchemata(CustomEndpoints(cls.attributes)));
    var mutable := MutableEntries(resource, plural, cls, read).value;
    var search := SearchEntries(resource, cfg, plural);
    BaseEntriesShaped(resource, cfg, plural, read);
    CustomEntriesShaped(resource, cfg, plural);
    MutableEntriesShaped(resource, cfg, plural, read);
    SearchEntriesShaped(resource, cfg, plural);
    KeysConcat(base, custom);
    KeysConcat(base + custom, mutable);
    KeysConcat(base + custom + mutable, search);
    forall k | k in GeneratedKinds(cfg)
      ensures SchemaName(k, resource, plural) in Keys(base + custom + mutable + search)
    {
      GeneratedKindsSelection(cfg, k);
    }
  }

  /** The references of well-shaped entries resolve among the names of the paginator
      schema and of the resource's generated schemata. */
  lemma ShapedEntriesResolve(es: SchemaTable, resource: string, cfg: ResourceConfig, plural: string -> string,
                             names: seq<string>)
    requires EntriesShaped(es, resource, cfg, plural) && NamesGenerated(names, resource, cfg, plural)
    ensures forall p, r :: p in es && r in Refs(p.1) ==> Resolves(r, names)
  {
    forall p, r | p in es && r in Refs(p.1) ensures Resolves(r, names) {
      var k :| k in GeneratedKinds(cfg) && p.0 == SchemaName(k, resource, plural) &&
               (if IsComposedKind(k) then p.1 == ComposedKindDoc(k, resource, plural, cfg.resourceCls)
                else p.1.ObjectDoc?);
      ComposedKindRefsResolve(k, resource, cfg, plural, names);
    }
  }

  // ---------------------------------------------------------------------------
  // `_get_schemas`
  // ---------------------------------------------------------------------------

  /** The two schemata the dict starts with. */
  const CommonEntries: SchemaTable := [(ErrorSchemaName, ErrorDoc), (PaginatorSchemaName, PaginatorDoc)]

  /** The loop of `_get_schemas` over `rs`, starting from `t`; None once a loop body has
      raised. */
  function AddResources(t: SchemaTable, rs: seq<(string, ResourceConfig)>, plural: string -> string)
    : Option<SchemaTable>
    decreases |rs|
  {
    if rs == [] then Some(t)
    else
      match AddResources(t, rs[..|rs| - 1], plural)
      case None => None
      case Some(t1) =>
        match ResourceEntries(rs[|rs| - 1].0, rs[|rs| - 1].1, plural)
        case None => None
        case Some(es) => Some(SetAll(t1, es))
  }

  /** `_get_schemas()` over the registry's items, visited in name order. */
  function Schemas(resources: seq<(string, ResourceConfig)>, plural: string -> string): Option<SchemaTable> {
    AddResources(CommonEntries, SortedItems(resources), plural)
  }

  method GetSchemas(resources: seq<(string, ResourceConfig)>, plural: string -> string)
    returns (schemas: Option<SchemaTable>)
    ensures schemas == Schemas(resources, plural)
  {
    var items := SortedItems(resources);
    var t := CommonEntries;
    var i := 0;
    while i < |items|
      invariant 0 <= i <= |items|
      invariant AddResources(CommonEntries, items[..i], plural) == Some(t)
    {
      AddResourcesStep(CommonEntries, items, plural, i, t);
      var (name, cfg) := items[i];
      var es := ResourceEntries(name, cfg, plural);
      if es.None? {
        AddResourcesFailureSticks(CommonEntries, items, plural, i + 1);
        return None;
      }
      t := SetEntries(t, es.value);
      i := i + 1;
    }
    assert items[..|items|] == items;
    schemas := Some(t);
  }

  /** One more loop body: the table it starts from, extended by the resource's entries. */
  lemma AddResourcesStep(t: SchemaTable, rs: seq<(string, ResourceConfig)>, plural: string -> string,
                         i: nat, t1: SchemaTable)
    requires i < |rs| && AddResources(t, rs[..i], plural) == Some(t1)
    ensures AddResources(t, rs[..i + 1], plural) ==
            match ResourceEntries(rs[i].0, rs[i].1, plural)
            case None => None
            case Some(es) => Some(SetAll(t1, es))
  {
    assert rs[..i + 1][..i] == rs[..i];
  }

  /** `for name, schema in entries: schemas[name] = schema` */
  method SetEntries(t: SchemaTable, es: SchemaTable) returns (r: SchemaTable)
    ensures r == SetAll(t, es)
  {
    r := t;
    var j := 0;
    while j < |es|
      invariant 0 <= j <= |es|
      invariant r == SetAll(t, es[..j])
    {
      assert es[..j + 1][..j] == es[..j];
      r := Set(r, es[j].0, es[j].1);
      j := j + 1;
    }
    assert es[..|es|] == es;
  }

  lemma {:induction false} AddResourcesFailureSticks(t: SchemaTable, rs: seq<(string, ResourceConfig)>,
                                                     plural: string -> string, i: nat)
    requires i <= |rs| && AddResources(t, rs[..i], plural).None?
    ensures AddResources(t, rs, plural).None?
    decreases |rs| - i
  {
    if i < |rs| {
      assert rs[..i + 1][..i] == rs[..i];
      AddResourcesFailureSticks(t, rs, plural, i + 1);
    } else {
      assert rs[..i] == rs;
    }
  }

  /** Every `$ref` in the table points at one of its keys. */
  predicate RefsResolve(t: SchemaTable) {
    forall p, r :: p in t && r in Refs(p.1) ==> Resolves(r, Keys(t))
  }

  /** The keys one resource's loop body sets (none if it raises). */
  function EntryKeys(item: (string, ResourceConfig), plural: string -> string): seq<string> {
    match ResourceEntries(item.0, item.1, plural)
    case None => []
    case Some(es) => Keys(es)
  }

  lemma {:induction false} AddResourcesFails(t: SchemaTable, rs: seq<(string, ResourceConfig)>, plural: string -> string)
    ensures AddResources(t, rs, plural).None? <==>
            exists item :: item in rs && ResourceEntries(item.0, item.1, plural).None?
    decreases |rs|
  {
    if rs != [] {
      var front := rs[..|rs| - 1];
      AddResourcesFails(t, front, plural);
      assert rs == front + [rs[|rs| - 1]];
    }
  }

  lemma {:induction false} AddResourcesKeepsKeys(t: SchemaTable, rs: seq<(string, ResourceConfig)>,
                                                 plural: string -> string)
    requires AddResources(t, rs, plural).Some?
    ensures Keys(t) <= Keys(AddResources(t, rs, plural).value)
    decreases |rs|
  {
    if rs != [] {
      var front, last := rs[..|rs| - 1], rs[|rs| - 1];
      AddResourcesKeepsKeys(t, front, plural);
      var t1 := AddResources(t, front, plural).value;
      SetAllKeepsKeys(t1, ResourceEntries(last.0, last.1, plural).value);
    }
  }

  lemma {:induction false} AddResourcesKeys(t: SchemaTable, rs: seq<(string, ResourceConfig)>, plural: string -> string)
    requires AddResources(t, rs, plural).Some?
    ensures forall k :: k in Keys(AddResources(t, rs, plural).value) <==>
              k in Keys(t) || exists item :: item in rs && k in EntryKeys(item, plural)
    decreases |rs|
  {
    if rs != [] {
      var front, last := rs[..|rs| - 1], rs[|rs| - 1];
      AddResourcesKeys(t, front, plural);
      AddResourcesLastKeys(t, rs, plural);
      assert forall item :: item in rs <==> item in front || item == last;
    }
  }

  /** The last loop body adds the keys of the last resource's entries. */
  lemma AddResourcesLastKeys(t: SchemaTable, rs: seq<(string, ResourceConfig)>, plural: string -> string)
    requires rs != [] && AddResources(t, rs, plural).Some?
    ensures AddResources(t, rs[..|rs| - 1], plural).Some?
    ensures forall k :: k in Keys(AddResources(t, rs, plural).value) <==>
              k in Keys(AddResources(t, rs[..|rs| - 1], plural).value) || k in EntryKeys(rs[|rs| - 1], plural)
  {
    var front, last := rs[..|rs| - 1], rs[|rs| - 1];
    var t1 := AddResources(t, front, plural).value;
    var es := ResourceEntries(last.0, last.1, plural).value;
    assert AddResources(t, rs, plural).value == SetAll(t1, es);
    SetAllKeys(t1, es);
    assert EntryKeys(last, plural) == Keys(es);
  }

  lemma ResolvesInMore(r: string, a: seq<string>, b: seq<string>)
    requires Resolves(r, a) && forall n :: n in a ==> n in b
    ensures Resolves(r, b)
  {
  }

  /** Adding resources keeps every `$ref` resolved: each of a resource's references points
      at the paginator schema or at a schema of the same resource, all of which are set. */
  lemma {:induction false} AddResourcesResolve(t: SchemaTable, rs: seq<(string, ResourceConfig)>, plural: string -> string)
    requires RefsResolve(t) && PaginatorSchemaName in Keys(t)
    requires AddResources(t, rs, plural).Some?
    ensures RefsResolve(AddResources(t, rs, plural).value)
    ensures PaginatorSchemaName in Keys(AddResources(t, rs, plural).value)
    decreases |rs|
  {
    if rs != [] {
      var front, last := rs[..|rs| - 1], rs[|rs| - 1];
      AddResourcesResolve(t, front, plural);
      var t1 := AddResources(t, front, plural).value;
      var es := ResourceEntries(last.0, last.1, plural).value;
      var res := SetAll(t1, es);
      assert AddResources(t, rs, plural).value == res;
      SetAllKeys(t1, es);
      SetAllItems(t1, es);
      ResourceEntriesShape(last.0, last.1, plural);
      assert NamesGenerated(Keys(res), last.0, last.1, plural);
      ShapedEntriesResolve(es, last.0, last.1, plural, Keys(res));
      forall p, r | p in res && r in Refs(p.1) ensures Resolves(r, Keys(res)) {
        if p !in es {
          ResolvesInMore(r, Keys(t1), Keys(res));
        }
      }
    }
  }

  // ---------------------------------------------------------------------------
  // What `_get_schemas` returns
  // ---------------------------------------------------------------------------

  /** The dict is built unless the create or update schema of some mutable resource
      raises. */
  lemma SchemasFail(resources: seq<(string, ResourceConfig)>, plural: string -> string)
    ensures Schemas(resources, plural).None? <==>
            exists item :: item in resources && ResourceEntries(item.0, item.1, plural).None?
  {
    var sorted := SortedItems(resources);
    AddResourcesFails(CommonEntries, sorted, plural);
    assert forall item :: item in sorted <==> item in resources by {
      assert forall item :: item in sorted <==> item in multiset(sorted);
    }
  }

  /** `ErrorSchema` and `PaginatorSchema` come first; the other keys are those the
      resources' loop bodies set; every `$ref` in the dict resolves to one of its keys. */
  lemma SchemasLayout(resources: seq<(string, ResourceConfig)>, plural: string -> string)
    requires Schemas(resources, plural).Some?
    ensures var t := Schemas(resources, plural).value;
            |t| >= 2 && Keys(t)[..2] == [ErrorSchemaName, PaginatorSchemaName]
    ensures var t := Schemas(resources, plural).value;
            forall k :: k in Keys(t) <==>
              k == ErrorSchemaName || k == PaginatorSchemaName ||
              exists item :: item in resources && k in EntryKeys(item, plural)
    ensures RefsResolve(Schemas(resources, plural).value)
  {
    var sorted := SortedItems(resources);
    var t := Schemas(resources, plural).value;
    assert Keys(CommonEntries) == [ErrorSchemaName, PaginatorSchemaName];
    AddResourcesKeepsKeys(CommonEntries, sorted, plural);
    AddResourcesKeys(CommonEntries, sorted, plural);
    assert forall item :: item in sorted <==> item in resources by {
      assert forall item :: item in sorted <==> item in multiset(sorted);
    }
    assert forall p, r :: p in CommonEntries && r in Refs(p.1) ==> false;
    AddResourcesResolve(CommonEntries, sorted, plural);
  }

  /** Every schema a resource's mutability and `searchable` flag call for is defined. */
  lemma SchemasDefineGenerated(resources: seq<(string, ResourceConfig)>, plural: string -> string,
                               item: (string, ResourceConfig), k: SchemaKind)
    requires Schemas(resources, plural).Some?
    requires item in resources && k in GeneratedKinds(item.1)
    ensures SchemaName(k, item.0, plural) in Keys(Schemas(resources, plural).value)
  {
    SchemasLayout(resources, plural);
    SchemasFail(resources, plural);
    ResourceEntriesShape(item.0, item.1, plural);
  }
}
