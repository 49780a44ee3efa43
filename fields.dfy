/** How a single model field (for the read schema) or a single formencode validator
    (for the create and update schemata) becomes an OpenAPI property. */
module OpenApiFields {
  import opened PyText
  import opened PyValues
  import opened Constants

  /** A Django model field as `_meta.get_fields()` yields it. `default == None` stands for
      `NOT_PROVIDED`; `helpText` is `""` when the field has no (truthy) help text.
      `accessorName` is what `get_accessor_name()` returns on a reverse relation. */
  datatype ModelField = ModelField(
    name: string,
    cls: DjangoFieldClass,
    accessorName: string,
    choices: seq<(Json, Json)>,
    allowsNull: bool,
    blank: bool,
    default: Option<Json>,
    helpText: string)

  /** A formencode validator. `modelName` is the `__name__` of its `model_cls` (None when
      it has none); `list` is a `OneOf` validator's list; `validators` are the inner
      validators of `ForEach` and `Any`; `min` and `max` are JNull when absent. */
  datatype Validator = Validator(
    cls: FormencodeClass,
    modelName: Option<string>,
    list: seq<Json>,
    validators: seq<Validator>,
    min: Json,
    max: Json)

  datatype TypeFormat = TypeFormat(typ: string, format: Option<string>)

  /** One property of an object schema; None means the key is absent. */
  datatype FieldSchema = FieldSchema(
    typ: Option<string>,
    format: Option<string>,
    items: Option<TypeFormat>,
    anyOf: Option<seq<TypeFormat>>,
    enum: Option<seq<Json>>,
    nullable: bool,
    default: Option<Json>,
    description: Option<string>,
    minLength: Option<Json>,
    maxLength: Option<Json>)

  function Scalar(typ: Option<string>, format: Option<string>): FieldSchema {
    FieldSchema(typ, format, None, None, None, false, None, None, None, None)
  }

  function ArrayOf(item: TypeFormat): FieldSchema {
    FieldSchema(Some("array"), None, Some(item), None, None, false, None, None, None, None)
  }

  /** The reverse relations, which `get_required` never marks as required. */
  predicate IsReverseRelation(c: DjangoFieldClass) {
    c == OneToOneRel || c == ManyToManyRel || c == ManyToOneRel
  }

  /** The relations `_get_read_schema` documents as references (URIs) to other resources. */
  predicate IsReference(c: DjangoFieldClass) {
    c == ForeignKey || c == OneToOneRel || c == ManyToManyField || c == ManyToManyRel || c == ManyToOneRel
  }

  /** `single_reference_field_dict`, `multi_reference_field_dict` and `scalar_field_dict`,
      chosen by the field's class: the property name and its schema. */
  function ReadFieldDict(f: ModelField): (r: (string, FieldSchema))
    ensures r.0 == (if f.cls == OneToOneRel || f.cls == ManyToOneRel then f.accessorName else f.name)
    ensures IsReference(f.cls) ==> r.1.typ.Some? && r.1.typ.value in {"string", "array"}
    ensures (f.cls == ForeignKey || f.cls == OneToOneRel) ==> r.1 == Scalar(Some("string"), Some("uri"))
    ensures (f.cls == ManyToManyField || f.cls == ManyToManyRel || f.cls == ManyToOneRel) <==>
            r.1 == ArrayOf(TypeFormat("string", Some("uri")))
    ensures !IsReference(f.cls) ==> r.1 == Scalar(DjangoFieldType(f.cls), DjangoFieldFormat(f.cls))
    ensures r.1.typ.None? <==> f.cls == OtherDjangoField
  {
    match f.cls
    case ForeignKey => (f.name, Scalar(Some("string"), Some("uri")))
    case OneToOneRel => (f.accessorName, Scalar(Some("string"), Some("uri")))
    case ManyToManyField => (f.name, ArrayOf(TypeFormat("string", Some("uri"))))
    case ManyToManyRel => (f.name, ArrayOf(TypeFormat("string", Some("uri"))))
    case ManyToOneRel => (f.accessorName, ArrayOf(TypeFormat("string", Some("uri"))))
    case _ => (f.name, Scalar(DjangoFieldType(f.cls), DjangoFieldFormat(f.cls)))
  }

  /** `get_choices`: the first component of every choice, or None when there are none. */
  function GetChoices(f: ModelField): (r: Option<seq<Json>>)
    ensures r.None? <==> f.choices == []
    ensures r.Some? ==> |r.value| == |f.choices| &&
                        forall i :: 0 <= i < |f.choices| ==> r.value[i] == f.choices[i].0
  {
    if f.choices == [] then None else Some(FirstComponents(f.choices))
  }

  function FirstComponents(pairs: seq<(Json, Json)>): (r: seq<Json>)
    ensures |r| == |pairs| && forall i :: 0 <= i < |pairs| ==> r[i] == pairs[i].0
  {
    if pairs == [] then [] else [pairs[0].0] + FirstComponents(pairs[1..])
  }

  /** `get_required(field, default)`: whether the field is required, and its `null` flag. */
  function GetRequired(f: ModelField, default: Option<Json>): (r: (bool, bool))
    ensures r.1 == f.allowsNull
    ensures IsReverseRelation(f.cls) ==> !r.0
    ensures !IsReverseRelation(f.cls) ==> (r.0 <==> !f.blank && default.None?)
  {
    if IsReverseRelation(f.cls) then (false, f.allowsNull)
    else if !f.blank && default.None? then (true, f.allowsNull)
    else (false, f.allowsNull)
  }

  /** `get_default_for_type(field, default, field_is_null)`: None for a nullable field,
      otherwise the zero value of the field's OpenAPI type; `''` for every type without
      one (including `object` and unlisted classes). */
  function GetDefaultForType(f: ModelField, default: Option<Json>, isNull: bool): (r: Json)
    ensures isNull <==> r == JNull
    ensures r == JInt(0) <==> !isNull && DjangoFieldType(f.cls) == Some("integer")
    ensures r == JBool(false) <==> !isNull && DjangoFieldType(f.cls) == Some("boolean")
    ensures r == JStr("") <==> !isNull && DjangoFieldType(f.cls) != Some("integer") &&
                               DjangoFieldType(f.cls) != Some("boolean")
  {
    if isNull then JNull
    else
      var t := match DjangoFieldType(f.cls) case Some(t) => t case None => "string";
      if t == "integer" then JInt(0)
      else if t == "boolean" then JBool(false)
      else JStr("")
  }

  /** The field's own default never reaches the schema: only its type and nullability do. */
  lemma DefaultForTypeIgnoresDefault(f: ModelField, d1: Option<Json>, d2: Option<Json>, isNull: bool)
    ensures GetDefaultForType(f, d1, isNull) == GetDefaultForType(f, d2, isNull)
  {
  }

  /** `_get_format_from_resource_uri_validator`; None stands for the AttributeError raised
      when the validator has no `model_cls`. */
  function ResourceUriFormat(v: Validator): (r: Option<string>)
    ensures r.Some? <==> v.modelName.Some?
    ensures r.Some? ==> r.value == "URI of a " + Lower(v.modelName.value) + " resource"
  {
    match v.modelName
    case Some(m) => Some("URI of a " + Lower(m) + " resource")
    case None => None
  }

  /** `single_reference_mut_field_dict` */
  function SingleReferenceMutFieldDict(v: Validator): (r: Option<FieldSchema>)
    ensures r.Some? <==> v.modelName.Some?
    ensures r.Some? ==> r.value.typ == Some("string") && r.value.format == ResourceUriFormat(v)
  {
    match ResourceUriFormat(v)
    case Some(fmt) => Some(Scalar(Some("string"), Some(fmt)))
    case None => None
  }

  /** `multi_reference_mut_field_dict`: an array of URIs of the resource named by the
      first inner validator; None for the IndexError (no inner validators) or the
      AttributeError (the first one has no `model_cls`). */
  function MultiReferenceMutFieldDict(v: Validator): (r: Option<FieldSchema>)
    ensures r.Some? <==> v.validators != [] && v.validators[0].modelName.Some?
    ensures r.Some? ==> r.value.typ == Some("array") &&
                        r.value.items == Some(TypeFormat("string", ResourceUriFormat(v.validators[0])))
  {
    if v.validators == [] then None
    else
      match ResourceUriFormat(v.validators[0])
      case Some(fmt) => Some(ArrayOf(TypeFormat("string", Some(fmt))))
      case None => None
  }

  /** `enum_field_dict`: the type follows the first listed value; None for the IndexError
      an empty list raises. */
  function EnumFieldDict(v: Validator): (r: Option<FieldSchema>)
    ensures r.None? <==> v.list == []
    ensures r.Some? ==> r.value.enum == Some(v.list)
    ensures r.Some? ==> (r.value.typ == Some("integer") <==> v.list[0].JInt? || v.list[0].JFloat?)
    ensures r.Some? ==> (r.value.typ == Some("string") <==> !v.list[0].JInt? && !v.list[0].JFloat?)
  {
    if v.list == [] then None
    else
      var t := match PythonTypeType(TypeOf(v.list[0])) case Some(t) => t case None => "string";
      Some(FieldSchema(Some(t), None, None, None, Some(v.list), false, None, None, None, None))
  }

  /** One `anyOf` alternative of `disjunctive_field_dict`. */
  function Alternative(v: Validator): (r: TypeFormat)
    ensures r.typ == (if FormencodeType(v.cls).Some? then FormencodeType(v.cls).value else "string")
    ensures r.format == FormencodeFormat(v.cls)
  {
    TypeFormat(match FormencodeType(v.cls) case Some(t) => t case None => "string",
               FormencodeFormat(v.cls))
  }

  function Alternatives(vs: seq<Validator>): (r: seq<TypeFormat>)
    ensures |r| == |vs| && forall i :: 0 <= i < |vs| ==> r[i] == Alternative(vs[i])
  {
    if vs == [] then [] else [Alternative(vs[0])] + Alternatives(vs[1..])
  }

  /** `disjunctive_field_dict`: no `type`, one `anyOf` alternative per inner validator. */
  function DisjunctiveFieldDict(v: Validator): (r: FieldSchema)
    ensures r.typ.None? && r.anyOf == Some(Alternatives(v.validators))
  {
    FieldSchema(None, None, None, Some(Alternatives(v.validators)), None, false, None, None, None, None)
  }

  /** `scalar_mut_field_dict`: type and format from the formencode tables, and
      `minLength`/`maxLength` from truthy `min`/`max`. */
  function ScalarMutFieldDict(v: Validator): (r: FieldSchema)
    ensures r.typ == FormencodeType(v.cls) && r.format == FormencodeFormat(v.cls)
    ensures r.minLength.Some? <==> Truthy(v.min)
    ensures r.maxLength.Some? <==> Truthy(v.max)
    ensures r.minLength.Some? ==> r.minLength.value == v.min
    ensures r.maxLength.Some? ==> r.maxLength.value == v.max
  {
    FieldSchema(FormencodeType(v.cls), FormencodeFormat(v.cls), None, None, None, false, None, None,
                if Truthy(v.min) then Some(v.min) else None,
                if Truthy(v.max) then Some(v.max) else None)
  }

  /** The dispatch on the validator's class in `_get_create_update_schema`. None stands
      for an exception raised while building the property. */
  function MutFieldDict(v: Validator): (r: Option<FieldSchema>)
    ensures v.cls == ResourceUri ==> r == SingleReferenceMutFieldDict(v)
    ensures v.cls == ForEach ==> r == MultiReferenceMutFieldDict(v)
    ensures v.cls == OneOf ==> r == EnumFieldDict(v)
    ensures v.cls == Any ==> r == Some(DisjunctiveFieldDict(v))
    ensures v.cls !in {ResourceUri, ForEach, OneOf, Any} ==> r == Some(ScalarMutFieldDict(v))
  {
    match v.cls
    case ResourceUri => SingleReferenceMutFieldDict(v)
    case ForEach => MultiReferenceMutFieldDict(v)
    case OneOf => EnumFieldDict(v)
    case Any => Some(DisjunctiveFieldDict(v))
    case _ => Some(ScalarMutFieldDict(v))
  }

  /** `not field_dict.get('type') and not field_dict.get('anyOf')`: a property the
      generator cannot type and leaves out. */
  predicate IsUntyped(fd: FieldSchema) {
    fd.typ.None? && (fd.anyOf.None? || fd.anyOf.value == [])
  }

  /** Only unlisted validator classes and an `Any` without alternatives are left untyped. */
  lemma UntypedValidators(v: Validator)
    requires MutFieldDict(v).Some?
    ensures IsUntyped(MutFieldDict(v).value) <==>
            v.cls == OtherValidator || (v.cls == Any && v.validators == [])
  {
  }
}
