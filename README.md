# gRPC HTTP API description provider

A Dafny model of the part of ASP.NET Core's gRPC HTTP API that turns gRPC
methods annotated with `google.api.http` rules into ApiExplorer descriptions
for Swagger/OpenAPI documents:

- `HttpRuleHelpers` resolves the pattern of an `HttpRule` to a verb and a path
  template, and binds the parameters of a route template to chains of
  request-message fields.
- `GrpcHttpApiDescriptionProvider` walks the endpoint data source. For every
  route endpoint that carries gRPC method metadata, an HTTP rule and a method
  descriptor, and whose pattern resolves, it builds one `ApiDescription`:
  - the verb;
  - the path without leading slashes;
  - JSON in and out, with one 200 response;
  - one path parameter per route parameter;
  - an "Input" body parameter when the rule's body resolves to a message.

  The descriptions go into a single group "Test" (version 1), which the
  `ApiDescriptionGroups` getter caches after its first successful read. Along
  the way the provider registers a `MessageSchemaGenerator` for every output
  and body message type in Swashbuckle's `CustomTypeMappings`. Registration is
  first-writer-wins. Each generator describes a message as an object with one
  string-typed property per field, keyed by JSON name, in field-number order.

Files:

- `wrappers.dfy`: `Option`, `Result` and three small sequence facts.
- `dictionaries.dfy`: `Dictionary<K, V>`, modelled as keys in insertion order
  plus a map. Nothing in the modelled code removes an entry, so enumeration
  order is insertion order.
- `descriptors.dfy`: protobuf reflection descriptors, `HttpRule`, route
  patterns, and `InFieldNumberOrder` as a stable sort by field number.
- `http_rule_helpers.dfy`: `TryResolvePattern` and
  `ResolveRouteParameterDescriptors`.
- `api_description.dfy`: the ApiExplorer and OpenAPI shapes, endpoints,
  `TrimStart` and `MessageSchemaGenerator.GenerateSchema`.
- `provider.dfy`: the schema-generator registry, the reference definitions
  (`Describe` for one endpoint, `Collect` for the endpoint loop), the provider
  class, and `ResolveFieldType`.

Exceptions are modelled as `Failure` results. A schema generator registered
before an exception stays registered, as it does in the source.

The provider calls `TryResolvePattern` and `ResolveRouteParameterDescriptors`
on a class named `ServiceDescriptorHelpers` (from `Grpc.Shared.HttpApi`). That
class is not part of this model. The model assumes its two methods behave like
the `HttpRuleHelpers` methods with the same names and signatures, and the
provider model calls those.

## Model

The source paths are abbreviated here:

- `H` is `src/GrpcHttpApi/src/Microsoft.AspNetCore.Grpc.HttpApi/Internal/HttpRuleHelpers.cs`.
- `P` is `src/GrpcHttpApi/src/Microsoft.AspNetCore.Grpc.Swagger/GrpcHttpApiDescriptionProvider.cs`.

The table itself spells the paths out in full.

| member | source | states |
|---|---|---|
| Dictionaries.Empty | src/GrpcHttpApi/src/Microsoft.AspNetCore.Grpc.HttpApi/Internal/HttpRuleHelpers.cs:52 | A new dictionary has no keys and no entries, and is well formed. |
| Dictionaries.Dictionary.Add | src/GrpcHttpApi/src/Microsoft.AspNetCore.Grpc.HttpApi/Internal/HttpRuleHelpers.cs:60 | `Add` fails exactly when the key is present. Otherwise the key is bound to the value and enumerates last, and well-formedness is kept. |
| Dictionaries.Dictionary.Set | src/GrpcHttpApi/src/Microsoft.AspNetCore.Grpc.Swagger/GrpcHttpApiDescriptionProvider.cs:146 | The indexer setter binds the key to the value. A present key keeps its place, a new key goes last, and well-formedness is kept. |
| Dictionaries.Deduplicated | src/GrpcHttpApi/src/Microsoft.AspNetCore.Grpc.Swagger/GrpcHttpApiDescriptionProvider.cs:144-147 | The order in which the setter leaves a sequence of keys has no repetition and exactly the keys of the sequence. |
| Dictionaries.DeduplicatedOfDistinct | src/GrpcHttpApi/src/Microsoft.AspNetCore.Grpc.Swagger/GrpcHttpApiDescriptionProvider.cs:144-147 | When the keys are distinct, setting them one after another keeps their order. |
| Dictionaries.SetDeduplicated | src/GrpcHttpApi/src/Microsoft.AspNetCore.Grpc.Swagger/GrpcHttpApiDescriptionProvider.cs:146 | Setting one more key extends the first-occurrence order by that key. |
| Descriptors.InFieldNumberOrder | src/GrpcHttpApi/src/Microsoft.AspNetCore.Grpc.Swagger/GrpcHttpApiDescriptionProvider.cs:144 | The field-number order has as many fields as the message. |
| Descriptors.InFieldNumberOrderSorted | src/GrpcHttpApi/src/Microsoft.AspNetCore.Grpc.Swagger/GrpcHttpApiDescriptionProvider.cs:144 | The field-number order is sorted by ascending field number. |
| Descriptors.InFieldNumberOrderPermutes | src/GrpcHttpApi/src/Microsoft.AspNetCore.Grpc.Swagger/GrpcHttpApiDescriptionProvider.cs:144 | The field-number order is a permutation of the message's fields. |
| Descriptors.InFieldNumberOrderIndependent | src/GrpcHttpApi/src/Microsoft.AspNetCore.Grpc.Swagger/GrpcHttpApiDescriptionProvider.cs:144 | When field numbers identify fields, any two declaration orders of the same fields give the same field-number order. |
| Descriptors.SortedOrderingUnique | src/GrpcHttpApi/src/Microsoft.AspNetCore.Grpc.Swagger/GrpcHttpApiDescriptionProvider.cs:144 | Two sorted orderings of the same fields coincide when field numbers identify fields. |
| HttpRuleHelpers.TryResolvePattern | src/GrpcHttpApi/src/Microsoft.AspNetCore.Grpc.HttpApi/Internal/HttpRuleHelpers.cs:15-47 | Resolution succeeds iff a pattern case is set, and both outputs are non-null iff it succeeds. `get`, `put`, `post`, `delete` and `patch` give "GET", "PUT", "POST", "DELETE" and "PATCH" and their path unchanged. A custom pattern gives its kind and path verbatim. |
| HttpRuleHelpers.PatternFor | src/GrpcHttpApi/src/Microsoft.AspNetCore.Grpc.HttpApi/Internal/HttpRuleHelpers.cs:19-42 | A (verb, path) pair is written as a set pattern. The pattern is custom exactly when the verb is not one of the five standard verbs. |
| HttpRuleHelpers.ResolvePatternFor | src/GrpcHttpApi/src/Microsoft.AspNetCore.Grpc.HttpApi/Internal/HttpRuleHelpers.cs:19-42 | Round trip: every (verb, path) pair resolves back from the pattern it is written as, whatever the body. |
| HttpRuleHelpers.PatternForResolution | src/GrpcHttpApi/src/Microsoft.AspNetCore.Grpc.HttpApi/Internal/HttpRuleHelpers.cs:19-42 | Round trip the other way: every set pattern is the pattern its resolution is written as. A custom pattern whose kind is a standard verb is the exception. |
| HttpRuleHelpers.CustomKindNotValidated | src/GrpcHttpApi/src/Microsoft.AspNetCore.Grpc.HttpApi/Internal/HttpRuleHelpers.cs:39-42 | The custom kind is not checked against a verb set: a custom "GET" pattern resolves exactly like a `get` pattern. |
| HttpRuleHelpers.ResolveRouteParameters | src/GrpcHttpApi/src/Microsoft.AspNetCore.Grpc.HttpApi/Internal/HttpRuleHelpers.cs:50-64 | On success the dictionary is well formed and its keys are the parameter names in template order. Each name is bound to the chain the resolver gives for it. |
| HttpRuleHelpers.ResolveRouteParametersSucceeds | src/GrpcHttpApi/src/Microsoft.AspNetCore.Grpc.HttpApi/Internal/HttpRuleHelpers.cs:53-61 | Binding succeeds iff every parameter resolves and no name repeats an earlier one (ordinal comparison). |
| HttpRuleHelpers.ResolveRouteParametersFailure | src/GrpcHttpApi/src/Microsoft.AspNetCore.Grpc.HttpApi/Internal/HttpRuleHelpers.cs:55-60 | A failure is the error of the first unbindable parameter. An unresolved parameter gives the not-found error naming the parameter and the message. A repeated name gives the duplicate-key error. |
| HttpRuleHelpers.ResolveRouteParametersPrefixFailure | src/GrpcHttpApi/src/Microsoft.AspNetCore.Grpc.HttpApi/Internal/HttpRuleHelpers.cs:53-61 | Once a prefix of the parameters fails, the whole binding fails with that error, and no partial dictionary is returned. |
| HttpRuleHelpers.ResolveRouteParameterDescriptors | src/GrpcHttpApi/src/Microsoft.AspNetCore.Grpc.HttpApi/Internal/HttpRuleHelpers.cs:50-64 | The loop returns exactly `ResolveRouteParameters` of the pattern's parameter names: the same dictionary or the same error. |
| HttpRuleHelpers.RouteParameterNotFoundMessage | src/GrpcHttpApi/src/Microsoft.AspNetCore.Grpc.HttpApi/Internal/HttpRuleHelpers.cs:57 | The not-found message names both the route parameter and the request message type. |
| ApiDescriptions.TrimStart | src/GrpcHttpApi/src/Microsoft.AspNetCore.Grpc.Swagger/GrpcHttpApiDescriptionProvider.cs:72 | The result is a suffix of the input. Everything cut off is the trimmed character, and the result does not start with it. |
| ApiDescriptions.TrimStartIdempotent | src/GrpcHttpApi/src/Microsoft.AspNetCore.Grpc.Swagger/GrpcHttpApiDescriptionProvider.cs:72 | Trimming twice is trimming once. |
| ApiDescriptions.MessageSchemaGenerator.GenerateSchema | src/GrpcHttpApi/src/Microsoft.AspNetCore.Grpc.Swagger/GrpcHttpApiDescriptionProvider.cs:140-154 | The schema is an "object". Its properties are keyed by the fields' JSON names in field-number order of first occurrence. The key set is exactly the JSON names of the message's fields, so a message without fields has no properties. Every property is `{ type: "string" }`. |
| ApiDescriptions.VisitField | src/GrpcHttpApi/src/Microsoft.AspNetCore.Grpc.Swagger/GrpcHttpApiDescriptionProvider.cs:144-147 | One iteration of the schema loop keeps its invariant: keys in first-occurrence order, every value a string schema. |
| ApiDescriptions.OrderedPropertyKeys | src/GrpcHttpApi/src/Microsoft.AspNetCore.Grpc.Swagger/GrpcHttpApiDescriptionProvider.cs:144-147 | Properties keyed in field-number order are keyed by exactly the JSON names of the fields. |
| GrpcHttpApi.WithOverride | src/GrpcHttpApi/src/Microsoft.AspNetCore.Grpc.Swagger/GrpcHttpApiDescriptionProvider.cs:122-129 | The message's type becomes mapped and no existing mapping changes. An unmapped type gets the generator of this message. |
| GrpcHttpApi.WithOverrideIdempotent | src/GrpcHttpApi/src/Microsoft.AspNetCore.Grpc.Swagger/GrpcHttpApiDescriptionProvider.cs:122-129 | A second override for the same message changes nothing. |
| GrpcHttpApi.WithOverrides | src/GrpcHttpApi/src/Microsoft.AspNetCore.Grpc.Swagger/GrpcHttpApiDescriptionProvider.cs:122-129 | A sequence of overrides maps exactly the old types plus the messages' types, and keeps every old mapping. |
| GrpcHttpApi.WithOverridesAppend | src/GrpcHttpApi/src/Microsoft.AspNetCore.Grpc.Swagger/GrpcHttpApiDescriptionProvider.cs:122-129 | Overriding `a + b` is overriding `a`, then `b`. |
| GrpcHttpApi.WithOverridesFirstWins | src/GrpcHttpApi/src/Microsoft.AspNetCore.Grpc.Swagger/GrpcHttpApiDescriptionProvider.cs:122-129 | An unmapped type ends up with the generator of the first message of that type. |
| GrpcHttpApi.WithOverridesOfMapped | src/GrpcHttpApi/src/Microsoft.AspNetCore.Grpc.Swagger/GrpcHttpApiDescriptionProvider.cs:122-129 | Overrides for types that are all mapped already change nothing. |
| GrpcHttpApi.WithOverridesIdempotent | src/GrpcHttpApi/src/Microsoft.AspNetCore.Grpc.Swagger/GrpcHttpApiDescriptionProvider.cs:122-129 | Repeating a whole sequence of overrides changes nothing. |
| GrpcHttpApi.SchemaGeneratorOptions.constructor | src/GrpcHttpApi/src/Microsoft.AspNetCore.Grpc.Swagger/GrpcHttpApiDescriptionProvider.cs:25-31 | The Swashbuckle options object the provider shares, reduced to its `CustomTypeMappings`, which it holds as given. |
| GrpcHttpApi.HasGrpcMetadata | src/GrpcHttpApi/src/Microsoft.AspNetCore.Grpc.Swagger/GrpcHttpApiDescriptionProvider.cs:54-59 | An endpoint is considered only when it is a route endpoint that carries gRPC method metadata, an HTTP rule and a method descriptor. `Describe` states its role: such an endpoint is skipped otherwise. |
| GrpcHttpApi.PathParameters | src/GrpcHttpApi/src/Microsoft.AspNetCore.Grpc.Swagger/GrpcHttpApiDescriptionProvider.cs:85-95 | There is one parameter per route-parameter key, in key order. Each is named by its key, has no model metadata and is bound from the path. |
| GrpcHttpApi.BaseDescription | src/GrpcHttpApi/src/Microsoft.AspNetCore.Grpc.Swagger/GrpcHttpApiDescriptionProvider.cs:63-79 | The description before any parameter has the resolved verb and the service's full name as controller. Its relative path is the pattern with its leading run of '/' removed: a suffix of the pattern, with everything cut being '/' and the rest not starting with '/'. It has one "application/json" request format, one 200 "application/json" response typed by the output, and no parameters. |
| GrpcHttpApi.BodyParameter | src/GrpcHttpApi/src/Microsoft.AspNetCore.Grpc.Swagger/GrpcHttpApiDescriptionProvider.cs:102-107 | The body parameter is named "Input", is bound from the body, and has the model metadata of the body message's type. |
| GrpcHttpApi.Describe | src/GrpcHttpApi/src/Microsoft.AspNetCore.Grpc.Swagger/GrpcHttpApiDescriptionProvider.cs:54-110 | An endpoint is skipped, contributing nothing and no error, iff it is not a route endpoint, lacks one of the three metadata items, or its pattern does not resolve. Otherwise it registers the output type first. |
| GrpcHttpApi.DescribeRoute | src/GrpcHttpApi/src/Microsoft.AspNetCore.Grpc.Swagger/GrpcHttpApiDescriptionProvider.cs:81-108 | After the pattern resolves the endpoint is never skipped, and the output type is registered first. A described endpoint keeps the base description, except that parameters are only appended to. |
| GrpcHttpApi.DescribeBody | src/GrpcHttpApi/src/Microsoft.AspNetCore.Grpc.Swagger/GrpcHttpApiDescriptionProvider.cs:97-108 | Once the route parameters are bound the endpoint is never skipped, and its first registered type is the method's output type. |
| GrpcHttpApi.DescribeRouteShape | src/GrpcHttpApi/src/Microsoft.AspNetCore.Grpc.Swagger/GrpcHttpApiDescriptionProvider.cs:83-108 | A described endpoint had its route parameters and body resolved. Its description is the base description with the path parameters of the route's names appended, then "Input" iff the body is a message. |
| GrpcHttpApi.DescribedShape | src/GrpcHttpApi/src/Microsoft.AspNetCore.Grpc.Swagger/GrpcHttpApiDescriptionProvider.cs:63-79 | A description carries the resolved verb, the resolved path with all leading '/' removed, and the service's full name as controller. It has one "application/json" request format and exactly one response type: status 200, "application/json", the output type. |
| GrpcHttpApi.DescribedParameters | src/GrpcHttpApi/src/Microsoft.AspNetCore.Grpc.Swagger/GrpcHttpApiDescriptionProvider.cs:85-108 | A description's parameters are the path parameters in route order, followed by the "Input" body parameter exactly when the body descriptor is non-null. |
| GrpcHttpApi.DescribeRouteFailure | src/GrpcHttpApi/src/Microsoft.AspNetCore.Grpc.Swagger/GrpcHttpApiDescriptionProvider.cs:81-97 | After the pattern resolves, the endpoint fails iff its route parameters or its body do not resolve. It fails with the first of those errors, having registered the output type. |
| GrpcHttpApi.DescribeFailure | src/GrpcHttpApi/src/Microsoft.AspNetCore.Grpc.Swagger/GrpcHttpApiDescriptionProvider.cs:59-97 | The same at the level of an endpoint that has its metadata and a resolvable pattern. |
| GrpcHttpApi.Extend | src/GrpcHttpApi/src/Microsoft.AspNetCore.Grpc.Swagger/GrpcHttpApiDescriptionProvider.cs:52-114 | One more endpoint appends its description, if any, and its registered types, and records its error, if any. |
| GrpcHttpApi.Outcomes | src/GrpcHttpApi/src/Microsoft.AspNetCore.Grpc.Swagger/GrpcHttpApiDescriptionProvider.cs:52-114 | There is one outcome per endpoint, in endpoint order, each that endpoint's `Describe`. |
| GrpcHttpApi.Fold | src/GrpcHttpApi/src/Microsoft.AspNetCore.Grpc.Swagger/GrpcHttpApiDescriptionProvider.cs:52-114 | The loop over outcomes, which stops at the first exception. It has at most one description per outcome. |
| GrpcHttpApi.Collect | src/GrpcHttpApi/src/Microsoft.AspNetCore.Grpc.Swagger/GrpcHttpApiDescriptionProvider.cs:52-114 | The reference definition of the endpoint loop: the fold over the endpoints' outcomes. It has at most one description per endpoint. |
| GrpcHttpApi.CollectionResult | src/GrpcHttpApi/src/Microsoft.AspNetCore.Grpc.Swagger/GrpcHttpApiDescriptionProvider.cs:116-119 | The loop's error is thrown if it has one. Otherwise there is exactly one group, named "Test", holding the descriptions, in a collection of version 1. |
| GrpcHttpApi.GroupsOf | src/GrpcHttpApi/src/Microsoft.AspNetCore.Grpc.Swagger/GrpcHttpApiDescriptionProvider.cs:116-119 | The collection returned is of version 1 and holds one group, named "Test", with the descriptions in loop order. |
| GrpcHttpApi.CollectStep | src/GrpcHttpApi/src/Microsoft.AspNetCore.Grpc.Swagger/GrpcHttpApiDescriptionProvider.cs:52-114 | One more endpoint is one more loop step, unless the loop has already thrown. |
| GrpcHttpApi.FoldPrefixFailure | src/GrpcHttpApi/src/Microsoft.AspNetCore.Grpc.Swagger/GrpcHttpApiDescriptionProvider.cs:52-114 | After the loop throws, later endpoints are never looked at. |
| GrpcHttpApi.CollectPrefixFailure | src/GrpcHttpApi/src/Microsoft.AspNetCore.Grpc.Swagger/GrpcHttpApiDescriptionProvider.cs:52-114 | The same, over endpoints. |
| GrpcHttpApi.AllDescribedAppend | src/GrpcHttpApi/src/Microsoft.AspNetCore.Grpc.Swagger/GrpcHttpApiDescriptionProvider.cs:110 | The front-to-back list of descriptions grows at the end by the next endpoint's description. |
| GrpcHttpApi.FoldSucceeds | src/GrpcHttpApi/src/Microsoft.AspNetCore.Grpc.Swagger/GrpcHttpApiDescriptionProvider.cs:52-114 | The loop finishes iff no outcome fails. Its descriptions are then the described outcomes in order, with the skipped ones left out. |
| GrpcHttpApi.FoldFailure | src/GrpcHttpApi/src/Microsoft.AspNetCore.Grpc.Swagger/GrpcHttpApiDescriptionProvider.cs:52-114 | A thrown loop throws the error of the first failing outcome. |
| GrpcHttpApi.FoldSchemaTypesGrow | src/GrpcHttpApi/src/Microsoft.AspNetCore.Grpc.Swagger/GrpcHttpApiDescriptionProvider.cs:81-100 | The types registered for a prefix are a prefix of those registered for the whole. |
| GrpcHttpApi.FoldRegisters | src/GrpcHttpApi/src/Microsoft.AspNetCore.Grpc.Swagger/GrpcHttpApiDescriptionProvider.cs:81-100 | Every endpoint the loop reaches has its types registered, the failing one included. |
| GrpcHttpApi.CollectSucceeds | src/GrpcHttpApi/src/Microsoft.AspNetCore.Grpc.Swagger/GrpcHttpApiDescriptionProvider.cs:48-114 | Over endpoints: the loop finishes iff no endpoint fails. Its descriptions are then those of the described endpoints, in endpoint order. |
| GrpcHttpApi.CollectFailure | src/GrpcHttpApi/src/Microsoft.AspNetCore.Grpc.Swagger/GrpcHttpApiDescriptionProvider.cs:52-114 | Over endpoints: a thrown loop throws the error of the first failing endpoint. |
| GrpcHttpApi.OutputTypeRegistered | src/GrpcHttpApi/src/Microsoft.AspNetCore.Grpc.Swagger/GrpcHttpApiDescriptionProvider.cs:81 | After the loop, every endpoint it reached and did not skip has a generator for its output type. |
| GrpcHttpApi.ResolveFieldType | src/GrpcHttpApi/src/Microsoft.AspNetCore.Grpc.Swagger/GrpcHttpApiDescriptionProvider.cs:157-196 | Resolution throws "unexpected field type" iff the field is a group or a message. String, bytes and enum fields resolve to `string`; double, float and bool to `double`, `float` and `bool`. Integer fields, and only those, get an integer type of the same width. That type holds every value of the field type, except for fixed32 and fixed64, which get a signed type. |
| GrpcHttpApi.ResolveFieldTypeLosesUnsignedValues | src/GrpcHttpApi/src/Microsoft.AspNetCore.Grpc.Swagger/GrpcHttpApiDescriptionProvider.cs:171-174 | As written, fixed32 resolves to `int` and fixed64 to `long`, whose ranges miss 0xFFFFFFFF and 0xFFFFFFFFFFFFFFFF. |
| GrpcHttpApi.ResolveFieldTypeCorrected | src/GrpcHttpApi/src/Microsoft.AspNetCore.Grpc.Swagger/GrpcHttpApiDescriptionProvider.cs:157-196 | It fails exactly on groups and messages. Every value of an integer field type is a value of the resolved type. |
| GrpcHttpApi.ResolveFieldTypeCorrectedAgrees | src/GrpcHttpApi/src/Microsoft.AspNetCore.Grpc.Swagger/GrpcHttpApiDescriptionProvider.cs:157-196 | The correction changes fixed32 and fixed64 and nothing else. |
| GrpcHttpApi.EndpointDataSource.constructor | src/GrpcHttpApi/src/Microsoft.AspNetCore.Grpc.Swagger/GrpcHttpApiDescriptionProvider.cs:24 | The endpoint data source holds the application's current endpoints. The application may replace them at any time, and every uncached build reads the ones current at that read. |
| GrpcHttpApi.GrpcHttpApiDescriptionProvider.constructor | src/GrpcHttpApi/src/Microsoft.AspNetCore.Grpc.Swagger/GrpcHttpApiDescriptionProvider.cs:24-32 | The provider keeps a reference to the endpoint data source, not a copy of its endpoints. It also keeps the options object and the two resolvers, and starts with an empty cache. |
| GrpcHttpApi.GrpcHttpApiDescriptionProvider.ApiDescriptionGroups | src/GrpcHttpApi/src/Microsoft.AspNetCore.Grpc.Swagger/GrpcHttpApiDescriptionProvider.cs:34-44 | A cached collection is returned unchanged, with nothing rebuilt and no generator registered. Otherwise the result is that of the endpoint loop over the data source's endpoints at the time of the read, with its generators registered. A successful result is cached; a thrown one leaves the cache empty. |
| GrpcHttpApi.GrpcHttpApiDescriptionProvider.AddSchemaGeneratorOverride | src/GrpcHttpApi/src/Microsoft.AspNetCore.Grpc.Swagger/GrpcHttpApiDescriptionProvider.cs:122-129 | The type mappings become `WithOverride` of the old ones: first writer wins. |
| GrpcHttpApi.GrpcHttpApiDescriptionProvider.GetCollection | src/GrpcHttpApi/src/Microsoft.AspNetCore.Grpc.Swagger/GrpcHttpApiDescriptionProvider.cs:46-120 | The loop returns or throws `CollectionResult` of `Collect` over the endpoints. The mappings gain the generators of every type the loop registered, in order. |
| GrpcHttpApi.GrpcHttpApiDescriptionProvider.DescribeEndpoint | src/GrpcHttpApi/src/Microsoft.AspNetCore.Grpc.Swagger/GrpcHttpApiDescriptionProvider.cs:54-113 | One loop iteration yields `Describe` of the endpoint and registers that outcome's types. |
| GrpcHttpApi.GrpcHttpApiDescriptionProvider.DescribeRouteEndpoint | src/GrpcHttpApi/src/Microsoft.AspNetCore.Grpc.Swagger/GrpcHttpApiDescriptionProvider.cs:81-110 | After the pattern resolves: register the output type, add a path parameter per route parameter, then handle the body. The result is `DescribeRoute`, with that outcome's types registered. |
| GrpcHttpApi.GrpcHttpApiDescriptionProvider.DescribeBodyEndpoint | src/GrpcHttpApi/src/Microsoft.AspNetCore.Grpc.Swagger/GrpcHttpApiDescriptionProvider.cs:97-108 | Resolve the body and, when it is a message, register it and add "Input". The result is `DescribeBody`, with the body type registered. |

## Left out

- `GrpcSwaggerServiceExtensions.cs` (dependency-injection registration) is not part of this model.
- `ServiceDescriptorHelpers.TryResolvePattern` and `ServiceDescriptorHelpers.ResolveRouteParameterDescriptors`, which the provider calls, are not part of this model. They are assumed to behave like the `HttpRuleHelpers` methods of the same names and signatures, which the model uses in their place.
- `ServiceDescriptorHelpers.TryResolveDescriptors` and `ServiceDescriptorHelpers.ResolveBodyDescriptor` are not part of this model. They are function-valued parameters of the provider. The field-path resolver is assumed to return a non-empty chain whenever it succeeds.
- The unused `field` local (P:87) and the commented-out `ModelMetadata` line (P:92) are not modelled. `ResolveFieldType` is modelled on its own, as nothing calls it.
- `EndpointDataSource` is reduced to its current list of endpoints. Its change notifications are not modelled. The provider reads the list on every uncached build, as the source does.
- Route-template parsing is not modelled: a route pattern is the sequence of its parameter names.
- The ASP.NET, Swashbuckle and OpenAPI object types are reduced to the members the core sets:
  - an `ApiDescription` keeps its verb, controller route value, relative path, request formats, response types and parameters;
  - a model metadata is the CLR type it is for;
  - a CLR `Type` is a name.
- `CustomTypeMappings` maps a type to the generator object rather than to its `GenerateSchema` delegate.
- The getter's race is not modelled. Two threads reading `ApiDescriptionGroups` at once may both build the collection; the model is sequential.
- `GrpcHttpApi.GrpcHttpApiDescriptionProvider.GetCollection`: the loop body is split into `DescribeEndpoint`, `DescribeRouteEndpoint` and `DescribeBodyEndpoint`, one method per stage of the source's loop body.
- `Descriptors.InFieldNumberOrder` belongs to the protobuf runtime. It is modelled as a stable sort by field number, not as that library's code.
- `Dictionaries.Dictionary.Set`: dictionary enumeration order is modelled as insertion order. This holds for `Dictionary` instances that never had an entry removed, which is all of them here.

## Findings

| source | as written | input that shows it | evidently intended | confidence | as-written member | corrected member |
|---|---|---|---|---|---|---|
| src/GrpcHttpApi/src/Microsoft.AspNetCore.Grpc.Swagger/GrpcHttpApiDescriptionProvider.cs:171-174 | `Fixed64` resolves to `long` and `Fixed32` to `int` | A fixed32 field holding 0xFFFFFFFF, or a fixed64 field holding 0xFFFFFFFFFFFFFFFF. Both are unsigned in protobuf, and neither value fits the resolved signed type. | `Fixed32` to `uint` and `Fixed64` to `ulong`, as `UInt32` and `UInt64` already resolve | not executed; medium, since the call site is commented out | GrpcHttpApi.ResolveFieldTypeLosesUnsignedValues | GrpcHttpApi.ResolveFieldTypeCorrected |
