/** The shapes the API description is made of (ASP.NET Core's ApiExplorer,
    Microsoft.OpenApi's schema), endpoint metadata, and the pure helpers the
    description provider uses: string trimming and the message schema
    generator. */
module ApiDescriptions {
  import opened Wrappers
  import opened Dictionaries
  import opened Descriptors
  import opened Sequences

  const JsonMediaType := "application/json"

  // ---------------------------------------------------------------------
  // ApiExplorer
  // ---------------------------------------------------------------------

  datatype BindingSource = Path | Body

  /** `ApiParameterDescription`; `modelType` is the type of its model
      metadata, when it has one. */
  datatype ApiParameterDescription = ApiParameterDescription(name: string, modelType: Option<ClrType>, source: BindingSource)

  datatype ApiResponseType = ApiResponseType(mediaTypes: seq<string>, modelType: ClrType, statusCode: int)

  /** `ApiDescription`; `controller` is the "controller" route value of its
      action descriptor. */
  datatype ApiDescription = ApiDescription(
    httpMethod: string,
    controller: string,
    relativePath: string,
    requestMediaTypes: seq<string>,
    responseTypes: seq<ApiResponseType>,
    parameters: seq<ApiParameterDescription>)

  datatype ApiDescriptionGroup = ApiDescriptionGroup(groupName: string, items: seq<ApiDescription>)

  datatype ApiDescriptionGroupCollection = ApiDescriptionGroupCollection(items: seq<ApiDescriptionGroup>, version: int)

  // ---------------------------------------------------------------------
  // Endpoints
  // ---------------------------------------------------------------------

  /** `GrpcMethodMetadata`, of which only its presence matters here. */
  datatype GrpcMethodMetadata = GrpcMethodMetadata(serviceType: ClrType)

  /** The three metadata items looked up on an endpoint; each may be missing. */
  datatype EndpointMetadata = EndpointMetadata(
    grpcMethod: Option<GrpcMethodMetadata>,
    httpRule: Option<HttpRule>,
    methodDescriptor: Option<MethodDescriptor>)

  datatype Endpoint =
    | RouteEndpoint(routePattern: RoutePattern, metadata: EndpointMetadata)
    | OtherEndpoint(metadata: EndpointMetadata)

  // ---------------------------------------------------------------------
  // String trimming
  // ---------------------------------------------------------------------

  /** `s.TrimStart(c)`: `s` without its leading run of `c`. */
  function TrimStart(s: string, c: char): (r: string)
    ensures |r| <= |s| && r == s[|s| - |r|..]
    ensures forall i :: 0 <= i < |s| - |r| ==> s[i] == c
    ensures r == [] || r[0] != c
  {
    if s != [] && s[0] == c then TrimStart(s[1..], c) else s
  }

  /** Trimming is idempotent. */
  lemma TrimStartIdempotent(s: string, c: char)
    ensures TrimStart(TrimStart(s, c), c) == TrimStart(s, c)
  {
  }

  // ---------------------------------------------------------------------
  // OpenAPI schemas
  // ---------------------------------------------------------------------

  /** `OpenApiSchema`, reduced to its type and its properties. */
  datatype OpenApiSchema = OpenApiSchema(schemaType: string, properties: Dictionary<string, OpenApiSchema>)

  /** `new OpenApiSchema { Type = "string" }`. */
  function StringSchema(): OpenApiSchema {
    OpenApiSchema("string", Empty())
  }

  /** The JSON names of the fields, in the same order. */
  function JsonNames(fields: seq<FieldDescriptor>): (names: seq<string>)
    ensures |names| == |fields|
    ensures forall i :: 0 <= i < |fields| ==> names[i] == fields[i].jsonName
  {
    if fields == [] then []
    else JsonNames(fields[..|fields| - 1]) + [fields[|fields| - 1].jsonName]
  }

  /** Every property schema is `{ type: "string" }`. */
  ghost predicate AllStringTyped(properties: Dictionary<string, OpenApiSchema>) {
    forall name :: name in properties.items ==> properties.items[name] == StringSchema()
  }

  /** The properties after visiting `fields[..i]`: one string-typed entry per
      JSON name, in order of first occurrence. */
  ghost predicate PropertiesVisited(properties: Dictionary<string, OpenApiSchema>, fields: seq<FieldDescriptor>, i: int)
    requires 0 <= i <= |fields|
  {
    && properties.Valid()
    && properties.keys == Deduplicated(JsonNames(fields[..i]))
    && AllStringTyped(properties)
  }

  /** `MessageSchemaGenerator`: what `CustomTypeMappings` holds for a type;
      its `GenerateSchema` is the delegate stored there. */
  datatype MessageSchemaGenerator = MessageSchemaGenerator(messageType: MessageDescriptor) {

    /** An object schema with one string-typed property per field, keyed by
        JSON name, visited in field-number order. */
    method GenerateSchema() returns (schema: OpenApiSchema)
      ensures schema.schemaType == "object"
      ensures schema.properties.Valid()
      ensures schema.properties.keys == Deduplicated(JsonNames(InFieldNumberOrder(messageType.fields)))
      ensures schema.properties.items.Keys == set f | f in messageType.fields :: f.jsonName
      ensures AllStringTyped(schema.properties)
    {
      var properties: Dictionary<string, OpenApiSchema> := Empty();
      var fields := InFieldNumberOrder(messageType.fields);
      for i := 0 to |fields|
        invariant PropertiesVisited(properties, fields, i)
      {
        VisitField(properties, fields, i);
        properties := properties.Set(fields[i].jsonName, StringSchema());
      }
      WholePrefix(fields);
      OrderedPropertyKeys(properties, messageType.fields);
      schema := OpenApiSchema("object", properties);
    }
  }

  /** One iteration of the schema loop keeps its invariant. */
  lemma VisitField(properties: Dictionary<string, OpenApiSchema>, fields: seq<FieldDescriptor>, i: int)
    requires 0 <= i < |fields| && PropertiesVisited(properties, fields, i)
    ensures PropertiesVisited(properties.Set(fields[i].jsonName, StringSchema()), fields, i + 1)
  {
    var visited := JsonNames(fields[..i]);
    assert JsonNames(fields[..i + 1]) == visited + [fields[i].jsonName] by {
      PrefixExtends(fields, i);
    }
    SetDeduplicated(properties, visited, fields[i].jsonName, StringSchema());
  }

  /** Properties keyed by the JSON names in field-number order are keyed by
      the JSON names of the fields in any order. */
  lemma OrderedPropertyKeys<V>(properties: Dictionary<string, V>, fields: seq<FieldDescriptor>)
    requires properties.Valid() && properties.keys == Deduplicated(JsonNames(InFieldNumberOrder(fields)))
    ensures properties.items.Keys == set f | f in fields :: f.jsonName
  {
    InFieldNumberOrderPermutes(fields);
    PropertyKeySet(properties, InFieldNumberOrder(fields), fields);
  }

  /** Reordering the fields does not change the set of their JSON names. */
  lemma SameJsonNameSet(a: seq<FieldDescriptor>, b: seq<FieldDescriptor>)
    requires multiset(a) == multiset(b)
    ensures (set n | n in JsonNames(a)) == (set f | f in b :: f.jsonName)
  {
    forall n | n in JsonNames(a) ensures n in (set f | f in b :: f.jsonName) {
      var i :| 0 <= i < |a| && JsonNames(a)[i] == n;
      assert a[i] in multiset(b);
    }
    forall f | f in b ensures f.jsonName in JsonNames(a) {
      assert f in multiset(a);
      var i :| 0 <= i < |a| && a[i] == f;
      assert JsonNames(a)[i] == f.jsonName;
    }
  }

  /** The properties set from a reordering of the fields are keyed by exactly
      the JSON names of the fields. */
  lemma PropertyKeySet<V>(properties: Dictionary<string, V>, ordered: seq<FieldDescriptor>, fields: seq<FieldDescriptor>)
    requires properties.Valid() && properties.keys == Deduplicated(JsonNames(ordered))
    requires multiset(ordered) == multiset(fields)
    ensures properties.items.Keys == set f | f in fields :: f.jsonName
  {
    SameJsonNameSet(ordered, fields);
  }
}
