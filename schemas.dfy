/** The object schemata the generator derives by introspection: the read (`View`) schema
    from the model's fields, and the create and update schemata from the formencode
    validators, which borrow defaults, descriptions and required-ness from the read
    schema. */
module OpenApiSchemas {
  import opened PyText
  import opened PyValues
  import opened Constants
  import opened OpenApiFields

  /** An object schema: its properties (a plain dict) and the `required` list, which is
      left out of the document when it is empty. */
  datatype ObjectSchema = ObjectSchema(properties: map<string, FieldSchema>, required: seq<string>)

  const EmptyObject: ObjectSchema := ObjectSchema(map[], [])

  // ---------------------------------------------------------------------------
  // The read schema
  // ---------------------------------------------------------------------------

  /** Whether `get_required(field, get_default(field))` marks the field as required. */
  predicate IsRequiredField(f: ModelField) {
    GetRequired(f, f.default).0
  }

  /** The property `_get_read_schema` builds for a field: the field dict, with the
      choices as `enum`, `nullable` for a nullable field, the default of its type
      (never the field's own), and the help text as `description`. */
  function ReadProperty(f: ModelField): (p: (string, FieldSchema))
    ensures p.0 == ReadFieldDict(f).0
    ensures p.1.typ == ReadFieldDict(f).1.typ && p.1.format == ReadFieldDict(f).1.format
    ensures p.1.enum == GetChoices(f)
    ensures p.1.nullable == f.allowsNull
    ensures p.1.default == Some(GetDefaultForType(f, f.default, f.allowsNull))
    ensures p.1.description.Some? <==> f.helpText != ""
    ensures p.1.description.Some? ==> p.1.description.value == f.helpText
    ensures p.1.items == ReadFieldDict(f).1.items
    ensures var fd := ReadFieldDict(f).1;
            p.1.(enum := fd.enum, nullable := fd.nullable, default := fd.default, description := fd.description) == fd
  {
    var (name, fd) := ReadFieldDict(f);
    var isNull := GetRequired(f, f.default).1;
    (name, fd.(enum := GetChoices(f),
               nullable := f.allowsNull,
               default := Some(GetDefaultForType(f, f.default, isNull)),
               description := if f.helpText != "" then Some(f.helpText) else None))
  }

  /** What `_get_read_schema` computes for one field before deciding where it goes: the
      property name, its schema and whether `get_required` marks it. */
  datatype Entry = Entry(name: string, schema: FieldSchema, required: bool)

  function ReadEntry(f: ModelField): (e: Entry)
    ensures e.name == ReadProperty(f).0 && e.schema == ReadProperty(f).1
    ensures e.required == IsRequiredField(f)
    ensures e.schema.default.Some?
    ensures e.schema.typ.None? <==> f.cls == OtherDjangoField
  {
    Entry(ReadProperty(f).0, ReadProperty(f).1, IsRequiredField(f))
  }

  function ReadEntries(fields: seq<ModelField>): (es: seq<Entry>)
    ensures |es| == |fields| && forall i :: 0 <= i < |fields| ==> es[i] == ReadEntry(fields[i])
  {
    seq(|fields|, i requires 0 <= i < |fields| => ReadEntry(fields[i]))
  }

  /** One iteration of the loop as written: the field is added to `required_fields`
      before the check that skips a field of unknown type. */
  function AddEntryAsWritten(s: ObjectSchema, e: Entry): ObjectSchema {
    var s1 := if e.required then s.(required := s.required + [e.name]) else s;
    if e.schema.typ.None? then s1 else s1.(properties := s1.properties[e.name := e.schema])
  }

  /** One iteration as evidently intended: a field of unknown type is skipped entirely. */
  function AddEntry(s: ObjectSchema, e: Entry): ObjectSchema {
    if e.schema.typ.None? then s
    else ObjectSchema(s.properties[e.name := e.schema],
                      if e.required then s.required + [e.name] else s.required)
  }

  function CollectAsWritten(es: seq<Entry>): ObjectSchema
    decreases |es|
  {
    if es == [] then EmptyObject else AddEntryAsWritten(CollectAsWritten(es[..|es| - 1]), es[|es| - 1])
  }

  function Collect(es: seq<Entry>): ObjectSchema
    decreases |es|
  {
    if es == [] then EmptyObject else AddEntry(Collect(es[..|es| - 1]), es[|es| - 1])
  }

  /** `_get_read_schema` as written, over the fields in `get_fields()` order. */
  function ReadSchemaAsWritten(fields: seq<ModelField>): ObjectSchema {
    CollectAsWritten(ReadEntries(fields))
  }

  /** The read schema, with untyped fields skipped before anything is recorded. */
  function ReadSchema(fields: seq<ModelField>): ObjectSchema {
    Collect(ReadEntries(fields))
  }

  /** One more entry is one more step of `Collect`. */
  lemma CollectStep(es: seq<Entry>, i: nat)
    requires i < |es|
    ensures Collect(es[..i + 1]) == AddEntry(Collect(es[..i]), es[i])
  {
    assert es[..i + 1][..i] == es[..i];
  }

  /** The loop of `_get_read_schema`, with the unknown-type check moved before the
      field is recorded as required. */
  method GetReadSchema(fields: seq<ModelField>) returns (s: ObjectSchema)
    ensures s == ReadSchema(fields)
  {
    ghost var es := ReadEntries(fields);
    var properties: map<string, FieldSchema> := map[];
    var required: seq<string> := [];
    var i := 0;
    while i < |fields|
      invariant 0 <= i <= |fields|
      invariant ObjectSchema(properties, required) == Collect(es[..i])
    {
      var e := ReadEntry(fields[i]);
      CollectStep(es, i);
      if e.schema.typ.Some? {
        if e.required {
          required := required + [e.name];
        }
        properties := properties[e.name := e.schema];
      }
      i := i + 1;
    }
    assert es[..|fields|] == es;
    s := ObjectSchema(properties, required);
  }

  /** Every name the `required` list holds is one of the properties. */
  predicate RequiredAreProperties(s: ObjectSchema) {
    forall k :: 0 <= k < |s.required| ==> s.required[k] in s.properties
  }

  /** Every property has a type and a default. */
  predicate PropertiesTypedWithDefault(s: ObjectSchema) {
    forall n :: n in s.properties ==> s.properties[n].typ.Some? && s.properties[n].default.Some?
  }

  lemma AddEntryKeepsWellFormed(s: ObjectSchema, e: Entry)
    requires RequiredAreProperties(s) && PropertiesTypedWithDefault(s) && e.schema.default.Some?
    ensures RequiredAreProperties(AddEntry(s, e)) && PropertiesTypedWithDefault(AddEntry(s, e))
  {
  }

  /** Collecting entries that carry defaults keeps both predicates. */
  lemma {:induction false} CollectWellFormed(es: seq<Entry>)
    requires forall i :: 0 <= i < |es| ==> es[i].schema.default.Some?
    ensures RequiredAreProperties(Collect(es)) && PropertiesTypedWithDefault(Collect(es))
    decreases |es|
  {
    if es != [] {
      var front := es[..|es| - 1];
      assert forall i :: 0 <= i < |front| ==> front[i] == es[i];
      CollectWellFormed(front);
      AddEntryKeepsWellFormed(Collect(front), es[|es| - 1]);
    }
  }

  /** The read schema's `required` list names only its properties, each of which has a
      type and a default. */
  lemma ReadSchemaWellFormed(fields: seq<ModelField>)
    ensures RequiredAreProperties(ReadSchema(fields))
    ensures PropertiesTypedWithDefault(ReadSchema(fields))
  {
    CollectWellFormed(ReadEntries(fields));
  }

  lemma {:induction false} CollectContents(es: seq<Entry>, n: string)
    ensures n in Collect(es).properties <==>
            exists i :: 0 <= i < |es| && es[i].name == n && es[i].schema.typ.Some?
    ensures n in Collect(es).required <==>
            exists i :: 0 <= i < |es| && es[i].name == n && es[i].schema.typ.Some? && es[i].required
    decreases |es|
  {
    if es != [] {
      var front := es[..|es| - 1];
      CollectContents(front, n);
      assert forall i :: 0 <= i < |front| ==> front[i] == es[i];
    }
  }

  /** The read schema's properties are the typed fields, under their property names; the
      required ones among them are exactly those `get_required` marks. */
  lemma ReadSchemaContents(fields: seq<ModelField>, n: string)
    ensures n in ReadSchema(fields).properties <==>
            exists i :: 0 <= i < |fields| && ReadProperty(fields[i]).0 == n && fields[i].cls != OtherDjangoField
    ensures n in ReadSchema(fields).required <==>
            exists i :: 0 <= i < |fields| && ReadProperty(fields[i]).0 == n && fields[i].cls != OtherDjangoField &&
                        IsRequiredField(fields[i])
  {
    var es := ReadEntries(fields);
    CollectContents(es, n);
  }

  lemma {:induction false} CollectAsWrittenContents(es: seq<Entry>, n: string)
    ensures n in CollectAsWritten(es).properties <==>
            exists i :: 0 <= i < |es| && es[i].name == n && es[i].schema.typ.Some?
    ensures n in CollectAsWritten(es).required <==>
            exists i :: 0 <= i < |es| && es[i].name == n && es[i].required
    decreases |es|
  {
    if es != [] {
      var front := es[..|es| - 1];
      CollectAsWrittenContents(front, n);
      assert forall i :: 0 <= i < |front| ==> front[i] == es[i];
    }
  }

  /** As written, the read schema's properties are the typed fields, but its `required`
      list names every field `get_required` marks, typed or not. */
  lemma ReadSchemaAsWrittenContents(fields: seq<ModelField>, n: string)
    ensures n in ReadSchemaAsWritten(fields).properties <==>
            exists i :: 0 <= i < |fields| && ReadProperty(fields[i]).0 == n && fields[i].cls != OtherDjangoField
    ensures n in ReadSchemaAsWritten(fields).required <==>
            exists i :: 0 <= i < |fields| && ReadProperty(fields[i]).0 == n && IsRequiredField(fields[i])
  {
    var es := ReadEntries(fields);
    CollectAsWrittenContents(es, n);
  }

  lemma CollectOneUntyped(e: Entry)
    requires e.schema.typ.None? && e.required
    ensures CollectAsWritten([e]) == ObjectSchema(map[], [e.name])
    ensures Collect([e]) == EmptyObject
  {
    assert [e][..0] == [];
  }

  /** A field of unknown type that is neither blank nor has a default is listed as
      required by the code as written, though it is not among the properties. */
  lemma UntypedRequiredFieldAsWritten(f: ModelField)
    requires f.cls == OtherDjangoField && !f.blank && f.default.None?
    ensures ReadSchemaAsWritten([f]).required == [f.name]
    ensures f.name !in ReadSchemaAsWritten([f]).properties
    ensures ReadSchema([f]) == EmptyObject
  {
    var e := ReadEntry(f);
    UntypedRequiredEntry(f);
    ReadEntriesOne(f);
    CollectOneUntyped(e);
  }

  lemma ReadEntriesOne(f: ModelField)
    ensures ReadEntries([f]) == [ReadEntry(f)]
  {
  }

  lemma UntypedRequiredEntry(f: ModelField)
    requires f.cls == OtherDjangoField && !f.blank && f.default.None?
    ensures ReadEntry(f).name == f.name && ReadEntry(f).required && ReadEntry(f).schema.typ.None?
  {
  }

  lemma {:induction false} CollectAgreesWhenTyped(es: seq<Entry>)
    requires forall i :: 0 <= i < |es| ==> es[i].schema.typ.Some?
    ensures CollectAsWritten(es) == Collect(es)
    decreases |es|
  {
    if es != [] {
      CollectAgreesWhenTyped(es[..|es| - 1]);
    }
  }

  /** As written and as intended agree on models whose fields all have a known type. */
  lemma ReadSchemaAgreesWhenTyped(fields: seq<ModelField>)
    requires forall i :: 0 <= i < |fields| ==> fields[i].cls != OtherDjangoField
    ensures ReadSchemaAsWritten(fields) == ReadSchema(fields)
  {
    CollectAgreesWhenTyped(ReadEntries(fields));
  }

  // ---------------------------------------------------------------------------
  // The create and update schemata
  // ---------------------------------------------------------------------------

  /** The property `_get_create_update_schema` keeps for a validator: the field dict, with
      the read schema's default when the read schema has the property, and its
      description when that is non-empty. */
  function MutProperty(read: ObjectSchema, name: string, fd: FieldSchema): (p: FieldSchema)
    ensures p.typ == fd.typ && p.anyOf == fd.anyOf && p.format == fd.format
    ensures name in read.properties && read.properties[name].default.Some? ==>
              p.default == read.properties[name].default
    ensures !(name in read.properties && read.properties[name].default.Some?) ==> p.default == fd.default
    ensures p.description ==
            (if name in read.properties && read.properties[name].description.Some? &&
                read.properties[name].description.value != ""
             then read.properties[name].description else fd.description)
    ensures p.(default := fd.default, description := fd.description) == fd
  {
    var rp := if name in read.properties then Some(read.properties[name]) else None;
    var withDefault := if rp.Some? && rp.value.default.Some? then fd.(default := rp.value.default) else fd;
    if rp.Some? && rp.value.description.Some? && rp.value.description.value != "" then
      withDefault.(description := rp.value.description)
    else withDefault
  }

  /** One iteration of `_get_create_update_schema`'s loop; None once building a property
      has raised. */
  function MutStep(read: ObjectSchema, s: Option<ObjectSchema>, field: (string, Validator))
    : Option<ObjectSchema>
  {
    if s.None? then None
    else
      match MutFieldDict(field.1)
      case None => None
      case Some(fd) =>
        if IsUntyped(fd) then s
        else
          var s1 := if field.0 in read.required then s.value.(required := s.value.required + [field.0]) else s.value;
          Some(s1.(properties := s1.properties[field.0 := MutProperty(read, field.0, fd)]))
  }

  /** `_get_create_update_schema(..., read_schema, schema_cls)` over the items of the
      validator class's `fields`, in dict order. */
  function CreateUpdateSchema(read: ObjectSchema, fields: seq<(string, Validator)>): Option<ObjectSchema>
    decreases |fields|
  {
    if fields == [] then Some(EmptyObject)
    else MutStep(read, CreateUpdateSchema(read, fields[..|fields| - 1]), fields[|fields| - 1])
  }

  /** The loop of `_get_create_update_schema`; None stands for the exception a validator
      raises (an empty `OneOf` list, a reference validator without `model_cls`). */
  method GetCreateUpdateSchema(read: ObjectSchema, fields: seq<(string, Validator)>)
    returns (s: Option<ObjectSchema>)
    ensures s == CreateUpdateSchema(read, fields)
  {
    var properties: map<string, FieldSchema> := map[];
    var required: seq<string> := [];
    var i := 0;
    while i < |fields|
      invariant 0 <= i <= |fields|
      invariant CreateUpdateSchema(read, fields[..i]) == Some(ObjectSchema(properties, required))
    {
      assert fields[..i + 1][..i] == fields[..i];
      var (name, v) := fields[i];
      var fd := MutFieldDict(v);
      if fd.None? {
        CreateUpdateFailureSticks(read, fields, i + 1);
        return None;
      }
      if !IsUntyped(fd.value) {
        if name in read.required {
          required := required + [name];
        }
        properties := properties[name := MutProperty(read, name, fd.value)];
      }
      i := i + 1;
    }
    assert fields[..|fields|] == fields;
    s := Some(ObjectSchema(properties, required));
  }

  /** Once a validator has raised, the whole schema fails. */
  lemma {:induction false} CreateUpdateFailureSticks(read: ObjectSchema, fields: seq<(string, Validator)>, i: nat)
    requires i <= |fields| && CreateUpdateSchema(read, fields[..i]).None?
    ensures CreateUpdateSchema(read, fields).None?
    decreases |fields| - i
  {
    if i < |fields| {
      assert fields[..i + 1][..i] == fields[..i];
      CreateUpdateFailureSticks(read, fields, i + 1);
    } else {
      assert fields[..i] == fields;
    }
  }

  /** The schema fails exactly when some validator raises. */
  lemma {:induction false} CreateUpdateFails(read: ObjectSchema, fields: seq<(string, Validator)>)
    ensures CreateUpdateSchema(read, fields).None? <==>
            exists i :: 0 <= i < |fields| && MutFieldDict(fields[i].1).None?
    decreases |fields|
  {
    if fields != [] {
      var front := fields[..|fields| - 1];
      CreateUpdateFails(read, front);
      assert forall i :: 0 <= i < |front| ==> front[i] == fields[i];
    }
  }

  /** Whether `_get_create_update_schema` keeps a validator: its field dict is built and
      has a type or an `anyOf`. */
  predicate Kept(field: (string, Validator)) {
    MutFieldDict(field.1).Some? && !IsUntyped(MutFieldDict(field.1).value)
  }

  /** One step of a built schema: a kept validator adds its property, and its name to
      `required` when the read schema requires it; any other validator changes nothing. */
  lemma CreateUpdateStep(read: ObjectSchema, fields: seq<(string, Validator)>, n: string)
    requires fields != [] && CreateUpdateSchema(read, fields).Some?
    ensures var front := CreateUpdateSchema(read, fields[..|fields| - 1]);
            var last := fields[|fields| - 1];
            front.Some? &&
            (n in CreateUpdateSchema(read, fields).value.properties <==>
               n in front.value.properties || (last.0 == n && Kept(last))) &&
            (n in CreateUpdateSchema(read, fields).value.required <==>
               n in front.value.required || (last.0 == n && Kept(last) && n in read.required))
  {
  }

  /** A built create or update schema has a property for exactly the kept validators, and
      requires exactly those of them the read schema requires. */
  lemma CreateUpdateContents(read: ObjectSchema, fields: seq<(string, Validator)>, n: string)
    requires CreateUpdateSchema(read, fields).Some?
    ensures n in CreateUpdateSchema(read, fields).value.properties <==>
            exists i :: 0 <= i < |fields| && fields[i].0 == n && Kept(fields[i])
    ensures n in CreateUpdateSchema(read, fields).value.required <==>
            n in read.required && exists i :: 0 <= i < |fields| && fields[i].0 == n && Kept(fields[i])
  {
    CreateUpdateKeptAt(read, fields, n);
  }

  /** Whether some validator named `n` is kept. */
  predicate KeptName(fields: seq<(string, Validator)>, n: string) {
    exists i :: 0 <= i < |fields| && fields[i].0 == n && Kept(fields[i])
  }

  lemma {:induction false} CreateUpdateKeptAt(read: ObjectSchema, fields: seq<(string, Validator)>, n: string)
    requires CreateUpdateSchema(read, fields).Some?
    ensures n in CreateUpdateSchema(read, fields).value.properties <==> KeptName(fields, n)
    ensures n in CreateUpdateSchema(read, fields).value.required <==> n in read.required && KeptName(fields, n)
    decreases |fields|
  {
    if fields != [] {
      var front := fields[..|fields| - 1];
      CreateUpdateStep(read, fields, n);
      CreateUpdateKeptAt(read, front, n);
      KeptNameSnoc(fields, n);
    }
  }

  lemma KeptNameSnoc(fields: seq<(string, Validator)>, n: string)
    requires fields != []
    ensures KeptName(fields, n) <==>
            KeptName(fields[..|fields| - 1], n) || (fields[|fields| - 1].0 == n && Kept(fields[|fields| - 1]))
  {
    var front := fields[..|fields| - 1];
    if KeptName(fields, n) && !(fields[|fields| - 1].0 == n && Kept(fields[|fields| - 1])) {
      var i :| 0 <= i < |fields| && fields[i].0 == n && Kept(fields[i]);
      assert front[i] == fields[i];
    }
    if KeptName(front, n) {
      var i :| 0 <= i < |front| && front[i].0 == n && Kept(front[i]);
      assert fields[i] == front[i];
    }
  }

  /** A built create or update schema requires only properties that it has and that the
      read schema requires, and its properties carry the read schema's defaults. */
  lemma {:induction false} CreateUpdateFollowsRead(read: ObjectSchema, fields: seq<(string, Validator)>)
    requires CreateUpdateSchema(read, fields).Some?
    ensures var s := CreateUpdateSchema(read, fields).value;
            forall k :: 0 <= k < |s.required| ==> s.required[k] in s.properties && s.required[k] in read.required
    ensures var s := CreateUpdateSchema(read, fields).value;
            forall n :: n in s.properties && n in read.properties && read.properties[n].default.Some? ==>
              s.properties[n].default == read.properties[n].default
    ensures var s := CreateUpdateSchema(read, fields).value;
            forall n :: n in s.properties ==> !IsUntyped(s.properties[n])
    decreases |fields|
  {
    if fields != [] {
      var front := fields[..|fields| - 1];
      assert CreateUpdateSchema(read, front).Some?;
      CreateUpdateFollowsRead(read, front);
    }
  }
}
