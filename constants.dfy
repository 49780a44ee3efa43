/** The fixed tables shared by the router and the OpenAPI generator: HTTP status codes,
    the error payloads, and the maps from Django model field classes, formencode
    validator classes and Python types to OpenAPI types and formats. */
module Constants {
  import opened PyText
  import opened PyValues

  const OkStatus: int := 200
  const CreatedStatus: int := 201
  const BadRequestStatus: int := 400
  const ForbiddenStatus: int := 403
  const NotFoundStatus: int := 404
  const MethodNotAllowedStatus: int := 405

  /** A payload of the shape every error response uses: a dict with the single key
      `'error'` holding a message. */
  function ErrorPayload(message: string): (j: Json)
    ensures IsErrorPayload(j) && ErrorMessage(j) == message
  {
    JDict([("error", JStr(message))])
  }

  predicate IsErrorPayload(j: Json) {
    j.JDict? && |j.entries| == 1 && j.entries[0].0 == "error" && j.entries[0].1.JStr?
  }

  function ErrorMessage(j: Json): string
    requires IsErrorPayload(j)
  {
    j.entries[0].1.s
  }

  const JsonDecodeErrorResponse: Json :=
    ErrorPayload("JSON decode error: the parameters provided were not valid JSON.")

  const UnauthorizedMsg: Json :=
    ErrorPayload("You are not authorized to access this resource.")

  const ReadonlyRslt: Json :=
    ErrorPayload("This resource is read-only.")

  /** The three error payloads are distinct one-key `'error'` dicts. */
  lemma ErrorPayloadsAreErrors()
    ensures IsErrorPayload(JsonDecodeErrorResponse)
    ensures IsErrorPayload(UnauthorizedMsg)
    ensures IsErrorPayload(ReadonlyRslt)
    ensures JsonDecodeErrorResponse != UnauthorizedMsg && UnauthorizedMsg != ReadonlyRslt
    ensures ReadonlyRslt != JsonDecodeErrorResponse
  {
    var unauthorized := "You are not authorized to access this resource.";
    var decode := "JSON decode error: the parameters provided were not valid JSON.";
    assert ErrorMessage(UnauthorizedMsg) == unauthorized;
    assert ErrorMessage(JsonDecodeErrorResponse) == decode;
    assert ErrorMessage(ReadonlyRslt) == "This resource is read-only.";
    assert |unauthorized| != |decode|;
  }

  /** The Django model field classes the generator distinguishes. `OtherDjangoField`
      stands for any class none of the tables lists (e.g. a `FloatField`). */
  datatype DjangoFieldClass =
    | AutoField | BigIntegerField | IntegerField | PositiveIntegerField
    | BooleanField | NullBooleanField
    | CharField | EmailField | TextField | UUIDField | DateTimeField
    | JSONField | OneToOneField | UUIDFieldExt | URLField
    | ForeignKey | OneToOneRel | ManyToManyField | ManyToManyRel | ManyToOneRel
    | OtherDjangoField

  /** `django_field2openapi_type.get(cls)` */
  function DjangoFieldType(c: DjangoFieldClass): (t: Option<string>)
    ensures t == Some("integer") <==>
      c == AutoField || c == BigIntegerField || c == IntegerField || c == PositiveIntegerField
    ensures t == Some("boolean") <==> c == BooleanField || c == NullBooleanField
    ensures t == Some("object") <==> c == JSONField
    ensures t.None? <==> c.ForeignKey? || c.OneToOneRel? || c.ManyToManyField? ||
                         c.ManyToManyRel? || c.ManyToOneRel? || c.OtherDjangoField?
    ensures t.Some? ==> t.value in {"integer", "boolean", "object", "string"}
  {
    match c
    case AutoField => Some("integer")
    case BigIntegerField => Some("integer")
    case IntegerField => Some("integer")
    case PositiveIntegerField => Some("integer")
    case BooleanField => Some("boolean")
    case NullBooleanField => Some("boolean")
    case CharField => Some("string")
    case EmailField => Some("string")
    case TextField => Some("string")
    case UUIDField => Some("string")
    case DateTimeField => Some("string")
    case JSONField => Some("object")
    case OneToOneField => Some("string")
    case UUIDFieldExt => Some("string")
    case URLField => Some("string")
    case _ => None
  }

  /** `django_field2openapi_format.get(cls)` */
  function DjangoFieldFormat(c: DjangoFieldClass): (f: Option<string>)
    ensures f == Some("uuid") <==> c == UUIDField
    ensures f == Some("date-time") <==> c == DateTimeField
    ensures f == Some("uri") <==> c == URLField
    ensures f.Some? <==> c == UUIDField || c == DateTimeField || c == URLField
  {
    match c
    case UUIDField => Some("uuid")
    case DateTimeField => Some("date-time")
    case URLField => Some("uri")
    case _ => None
  }

  /** Every field class with a format is a string field. */
  lemma FormattedDjangoFieldsAreStrings(c: DjangoFieldClass)
    requires DjangoFieldFormat(c).Some?
    ensures DjangoFieldType(c) == Some("string")
  {
  }

  /** The Python types of `OneOf` enumeration values. `PyOtherType` is any other type,
      `bool` included. */
  datatype PyType = PyStr | PyInt | PyFloat | PyOtherType

  /** `python_type2openapi_type.get(t)`: note that `float` maps to `'integer'`. */
  function PythonTypeType(t: PyType): (r: Option<string>)
    ensures r == Some("integer") <==> t == PyInt || t == PyFloat
    ensures r == Some("string") <==> t == PyStr
    ensures r.None? <==> t == PyOtherType
  {
    match t
    case PyStr => Some("string")
    case PyInt => Some("integer")
    case PyFloat => Some("integer")
    case PyOtherType => None
  }

  /** `type(value)` for a JSON-like value. */
  function TypeOf(j: Json): (t: PyType)
    ensures t == PyStr <==> j.JStr?
    ensures t == PyInt <==> j.JInt?
    ensures t == PyFloat <==> j.JFloat?
  {
    match j
    case JStr(_) => PyStr
    case JInt(_) => PyInt
    case JFloat(_) => PyFloat
    case _ => PyOtherType
  }

  /** The formencode validator classes the generator distinguishes. `OtherValidator` is
      any class none of the tables lists; `ResourceUri`, `ForEach` and `Any` are the
      classes `_get_create_update_schema` dispatches on. */
  datatype FormencodeClass =
    | UnicodeString | Regex | Email | OneOf | IPAddress | URL | Int | Bool
    | ResourceUri | ForEach | Any
    | OtherValidator

  /** `formencode_field2openapi_type.get(cls)` */
  function FormencodeType(c: FormencodeClass): (t: Option<string>)
    ensures t == Some("integer") <==> c == Int
    ensures t == Some("boolean") <==> c == Bool
    ensures t == Some("string") <==>
      c == UnicodeString || c == Regex || c == Email || c == OneOf || c == IPAddress || c == URL
    ensures t.None? <==> c == ResourceUri || c == ForEach || c == Any || c == OtherValidator
  {
    match c
    case UnicodeString => Some("string")
    case Regex => Some("string")
    case Email => Some("string")
    case OneOf => Some("string")
    case IPAddress => Some("string")
    case URL => Some("string")
    case Int => Some("integer")
    case Bool => Some("boolean")
    case _ => None
  }

  /** `formencode_field2openapi_format.get(cls)` */
  function FormencodeFormat(c: FormencodeClass): (f: Option<string>)
    ensures f == Some("ipv4") <==> c == IPAddress
    ensures f == Some("uri") <==> c == URL
    ensures f.Some? <==> c == IPAddress || c == URL
  {
    match c
    case IPAddress => Some("ipv4")
    case URL => Some("uri")
    case _ => None
  }
}
