/** The vocabulary of the translator: the Swagger input shapes it reads, the
    internal `PropertyType` model it produces, the `Method` record built per
    HTTP operation, and `isEmptyModel`, the one piece of logic beside them. */
module Types {
  import opened Wrappers

  // ---------------------------------------------------------------------
  // Swagger input shapes (already parsed into a document tree)
  // ---------------------------------------------------------------------

  /** A property's `type` is either one type name or a list of them. */
  datatype SwaggerTypeField = SingleType(name: string) | TypeList(names: seq<string>)

  /** The `x-metadata` extension of a schema or property: an optional
      named-schema marker. */
  datatype SchemaMetadata = SchemaMetadata(schema: Option<string>)

  datatype SwaggerSchemaProperty = SwaggerSchemaProperty(
    typeField: SwaggerTypeField,
    format: Option<string>,
    enumValues: Option<string>,
    items: Option<SwaggerSchemaProperty>,
    properties: Option<map<string, SwaggerSchemaProperty>>,
    required: Option<seq<string>>,
    xMetadata: Option<SchemaMetadata>)

  datatype SwaggerSchema = SwaggerSchema(
    additionalProperties: bool,
    oneOf: Option<seq<SwaggerSchema>>,
    properties: Option<map<string, SwaggerSchemaProperty>>,
    required: Option<seq<string>>,
    typeName: string,
    xMetadata: Option<SchemaMetadata>)

  /** The `x-metadata` extension of an operation: its optional method name. */
  datatype MethodMetadata = MethodMetadata(methodName: Option<string>)

  /** One media-type entry of a content map. */
  datatype MediaType = MediaType(schema: Option<SwaggerSchema>)

  /** A request body's content map; only `application/json` is ever read. */
  datatype RequestContent = RequestContent(json: Option<MediaType>, multipartMixed: Option<MediaType>)

  datatype RequestBody = RequestBody(content: Option<RequestContent>)

  /** A response's content map. The image and wildcard entries are empty
      objects in the program, so only their presence is recorded. */
  datatype ResponseContent = ResponseContent(
    json: Option<MediaType>,
    imagePng: bool,
    imageJpeg: bool,
    anyMedia: bool)

  datatype Response = Response(content: Option<ResponseContent>)

  /** The response map; only status `200` is ever read. */
  datatype Responses = Responses(ok: Option<Response>)

  /** One operation. `x-metadata` and `responses` are mandatory in the program's
      type, but the code tests them for absence, so they are optional here. */
  datatype SwaggerMethod = SwaggerMethod(
    description: Option<string>,
    summary: Option<string>,
    tags: Option<seq<string>>,
    xMetadata: Option<MethodMetadata>,
    requestBody: Option<RequestBody>,
    responses: Option<Responses>)

  datatype SwaggerPath = SwaggerPath(
    get: Option<SwaggerMethod>,
    post: Option<SwaggerMethod>,
    put: Option<SwaggerMethod>,
    delete: Option<SwaggerMethod>)

  type SwaggerPaths = map<string, SwaggerPath>

  // ---------------------------------------------------------------------
  // BasicType: a string enumeration
  // ---------------------------------------------------------------------

  datatype BasicType =
    // simple types
    | NULL | STRING | NUMBER | BOOLEAN | DATE | DATETIME | DURATION | HOSTNAME
    | EMAIL | PERMIT | FOLDERTYPE | INVITATIONSTATUS | JSON | MODELTYPE | MODELID
    | BLOB | UUID
    // specific types
    | ARRAY | OBJECT | ENUM | LINK | ERROR

  /** The string value each enumeration member stands for. */
  function Tag(b: BasicType): string {
    match b
    case NULL => "null"
    case STRING => "string"
    case NUMBER => "number"
    case BOOLEAN => "boolean"
    case DATE => "DateOnly"
    case DATETIME => "DateTime"
    case DURATION => "Duration"
    case HOSTNAME => "Hostname"
    case EMAIL => "Email"
    case PERMIT => "Permit"
    case FOLDERTYPE => "FolderType"
    case INVITATIONSTATUS => "InvitationStatus"
    case JSON => "JSON"
    case MODELTYPE => "ModelType"
    case MODELID => "ModelId"
    case BLOB => "Blob"
    case UUID => "UUID"
    case ARRAY => "array"
    case OBJECT => "object"
    case ENUM => "enum"
    case LINK => "link"
    case ERROR => "error"
  }

  /** The enumeration member whose string value is `s`, if there is one. */
  function ParseBasicType(s: string): Option<BasicType> {
    match s
    case "null" => Some(NULL)
    case "string" => Some(STRING)
    case "number" => Some(NUMBER)
    case "boolean" => Some(BOOLEAN)
    case "DateOnly" => Some(DATE)
    case "DateTime" => Some(DATETIME)
    case "Duration" => Some(DURATION)
    case "Hostname" => Some(HOSTNAME)
    case "Email" => Some(EMAIL)
    case "Permit" => Some(PERMIT)
    case "FolderType" => Some(FOLDERTYPE)
    case "InvitationStatus" => Some(INVITATIONSTATUS)
    case "JSON" => Some(JSON)
    case "ModelType" => Some(MODELTYPE)
    case "ModelId" => Some(MODELID)
    case "Blob" => Some(BLOB)
    case "UUID" => Some(UUID)
    case "array" => Some(ARRAY)
    case "object" => Some(OBJECT)
    case "enum" => Some(ENUM)
    case "link" => Some(LINK)
    case "error" => Some(ERROR)
    case _ => None
  }

  /** Reading back a member's string value gives the member again. */
  lemma TagRoundTrip(b: BasicType)
    ensures ParseBasicType(Tag(b)) == Some(b)
  {
  }

  /** A string parses only to the member whose value it is. */
  lemma ParseBasicTypeSound(s: string)
    ensures ParseBasicType(s).Some? ==> Tag(ParseBasicType(s).value) == s
  {
  }

  /** No two members share a string value. */
  lemma TagInjective(a: BasicType, b: BasicType)
    ensures Tag(a) == Tag(b) ==> a == b
  {
  }

  // ---------------------------------------------------------------------
  // PropertyType: the internal model, a recursive tagged union
  // ---------------------------------------------------------------------

  /** The six shapes a translated property can take. An array carries the
      full type of its elements; enum values keep their declared order and
      duplicates; object properties keep their insertion order. */
  datatype PropertyType =
    | PropertyBasicType(basicType: BasicType)
    | ArrayType(arrayType: PropertyType)
    | EnumType(values: seq<string>)
    | ObjectType(properties: Properties)
    | LinkType(linkTo: string)
    | ErrorType(error: string)

  datatype ObjectProperty = ObjectProperty(name: string, isRequired: bool, types: seq<PropertyType>)

  /** One key of a string-keyed object map. */
  datatype Entry = Entry(key: string, value: ObjectProperty)

  /** A string-keyed object map, as its entries in insertion order. */
  type Properties = seq<Entry>

  datatype Schema = Schema(name: string, properties: Properties)

  type AllSchemas = map<string, Schema>

  /** The keys of an object map in order (`Object.keys`). */
  function Keys(ps: Properties): (r: seq<string>)
    ensures |r| == |ps|
    ensures forall i :: 0 <= i < |ps| ==> r[i] == ps[i].key
  {
    if |ps| == 0 then [] else [ps[0].key] + Keys(ps[1..])
  }

  /** Distinct entries carry distinct keys, as in a JavaScript object. */
  predicate UniqueKeys(ps: Properties) {
    forall i, j :: 0 <= i < j < |ps| ==> ps[i].key != ps[j].key
  }

  /** The value stored under `k` (`obj[k]`). */
  function Lookup(ps: Properties, k: string): (r: Option<ObjectProperty>)
    ensures r.Some? ==> exists i :: 0 <= i < |ps| && ps[i] == Entry(k, r.value)
    ensures r.None? ==> forall i :: 0 <= i < |ps| ==> ps[i].key != k
  {
    if |ps| == 0 then None
    else if ps[0].key == k then Some(ps[0].value)
    else Lookup(ps[1..], k)
  }

  /** Stores `v` under `k` (`obj[k] = v`). */
  function SetProperty(ps: Properties, k: string, v: ObjectProperty): Properties {
    if |ps| == 0 then [Entry(k, v)]
    else if ps[0].key == k then [Entry(k, v)] + ps[1..]
    else [ps[0]] + SetProperty(ps[1..], k, v)
  }

  /** After `obj[k] = v`, `k` holds `v` and every other key is untouched. */
  lemma {:induction false} SetPropertyLookup(ps: Properties, k: string, v: ObjectProperty, k': string)
    ensures Lookup(SetProperty(ps, k, v), k) == Some(v)
    ensures k' != k ==> Lookup(SetProperty(ps, k, v), k') == Lookup(ps, k')
  {
    if |ps| > 0 && ps[0].key != k {
      var r := SetProperty(ps, k, v);
      SetPropertyLookup(ps[1..], k, v, k');
      assert r[1..] == SetProperty(ps[1..], k, v);
    }
  }

  /** `obj[k] = v` keeps the key order: an existing key keeps its place, a
      new key goes last. */
  lemma {:induction false} SetPropertyKeys(ps: Properties, k: string, v: ObjectProperty)
    ensures Lookup(ps, k).Some? ==> Keys(SetProperty(ps, k, v)) == Keys(ps)
    ensures Lookup(ps, k).None? ==> Keys(SetProperty(ps, k, v)) == Keys(ps) + [k]
  {
    var r := SetProperty(ps, k, v);
    if |ps| == 0 {
    } else if ps[0].key == k {
      assert r[1..] == ps[1..];
    } else {
      SetPropertyKeys(ps[1..], k, v);
      assert r[1..] == SetProperty(ps[1..], k, v);
    }
  }

  /** `obj[k] = v` never creates a second entry for a key. */
  lemma {:induction false} SetPropertyUnique(ps: Properties, k: string, v: ObjectProperty)
    requires UniqueKeys(ps)
    ensures UniqueKeys(SetProperty(ps, k, v))
  {
    if |ps| > 0 && ps[0].key != k {
      var tail := SetProperty(ps[1..], k, v);
      UniqueTail(ps);
      SetPropertyUnique(ps[1..], k, v);
      SetPropertyKeys(ps[1..], k, v);
      assert ps[0].key !in Keys(ps[1..]);
      assert ps[0].key !in Keys(tail);
      UniqueCons(ps[0], tail);
      assert SetProperty(ps, k, v) == [ps[0]] + tail;
    }
  }

  lemma UniqueTail(ps: Properties)
    requires |ps| > 0 && UniqueKeys(ps)
    ensures UniqueKeys(ps[1..])
    ensures ps[0].key !in Keys(ps[1..])
  {
  }

  lemma UniqueCons(e: Entry, tail: Properties)
    requires UniqueKeys(tail) && e.key !in Keys(tail)
    ensures UniqueKeys([e] + tail)
  {
  }

  // Array nesting is well founded: every chain of nested arrays ends in a
  // non-array element type.

  /** The element type under all array wrappers. */
  function ElementType(p: PropertyType): PropertyType {
    if p.ArrayType? then ElementType(p.arrayType) else p
  }

  /** How many array wrappers enclose the element type. */
  function ArrayDepth(p: PropertyType): nat {
    if p.ArrayType? then 1 + ArrayDepth(p.arrayType) else 0
  }

  /** `n` array wrappers around `t`. */
  function WrapInArrays(t: PropertyType, n: nat): PropertyType {
    if n == 0 then t else ArrayType(WrapInArrays(t, n - 1))
  }

  /** Every property type is a non-array type under finitely many array
      wrappers, and unwrapping then rewrapping gives it back. */
  lemma {:induction false} ArrayNesting(p: PropertyType)
    ensures !ElementType(p).ArrayType?
    ensures WrapInArrays(ElementType(p), ArrayDepth(p)) == p
  {
    if p.ArrayType? {
      ArrayNesting(p.arrayType);
    }
  }

  // ---------------------------------------------------------------------
  // Methods
  // ---------------------------------------------------------------------

  /** The closed set of HTTP methods an operation can have. */
  datatype HttpMethod = Get | Post | Put | Delete

  function HttpMethodName(m: HttpMethod): string {
    match m
    case Get => "get"
    case Post => "post"
    case Put => "put"
    case Delete => "delete"
  }

  function ParseHttpMethod(s: string): Option<HttpMethod> {
    if s == "get" then Some(Get)
    else if s == "post" then Some(Post)
    else if s == "put" then Some(Put)
    else if s == "delete" then Some(Delete)
    else None
  }

  /** The method names are exactly `get`, `post`, `put` and `delete`, and
      each reads back as itself. */
  lemma HttpMethodsClosed(s: string, m: HttpMethod)
    ensures ParseHttpMethod(s).Some? <==> s in {"get", "post", "put", "delete"}
    ensures ParseHttpMethod(HttpMethodName(m)) == Some(m)
    ensures ParseHttpMethod(s).Some? ==> HttpMethodName(ParseHttpMethod(s).value) == s
  {
  }

  /** A request or response payload: `null`, one schema, a list of schemas,
      or (responses only) the literal `'link'`. */
  datatype Body = NoBody | OneSchema(schema: Schema) | SchemaList(schemas: seq<Schema>) | LinkBody

  datatype Method = Method(
    name: string,
    tag: string,
    url: string,
    httpMethod: HttpMethod,
    description: string,
    summary: string,
    request: Body,
    form: Option<Schema>,
    response: Body)

  /** A request is never the `'link'` literal; only a response may be. */
  predicate WellTypedMethod(m: Method) {
    !m.request.LinkBody?
  }

  /** Methods grouped by tag. */
  type Paths = map<string, seq<Method>>

  // ---------------------------------------------------------------------
  // isEmptyModel
  // ---------------------------------------------------------------------

  /** What `isEmptyModel` may be handed: a falsy value (`null`, `undefined`,
      `false`, `0`, `""`), a truthy primitive, or a schema object. */
  datatype ModelCandidate = Falsy | TruthyPrimitive | SchemaValue(schema: Schema)

  /** A model is empty when it is absent or a schema without properties. */
  function IsEmptyModel(c: ModelCandidate): (r: bool)
    ensures c.Falsy? ==> r
    ensures c.TruthyPrimitive? ==> !r
    ensures c.SchemaValue? ==> (r <==> forall k :: Lookup(c.schema.properties, k).None?)
  {
    match c
    case Falsy => true
    case TruthyPrimitive => false
    case SchemaValue(s) =>
      assert |s.properties| > 0 ==> Lookup(s.properties, s.properties[0].key).Some?;
      |Keys(s.properties)| == 0
  }

  /** Storing any property into a schema makes it non-empty. */
  lemma AddingPropertyMakesNonEmpty(s: Schema, k: string, v: ObjectProperty)
    ensures !IsEmptyModel(SchemaValue(s.(properties := SetProperty(s.properties, k, v))))
  {
    SetPropertyLookup(s.properties, k, v, k);
  }
}
