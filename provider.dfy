/** `GrpcHttpApiDescriptionProvider`: builds one API description per gRPC
    endpoint that carries an HTTP rule, caches the result, and registers a
    schema generator for every message type it meets. */
module GrpcHttpApi {
  import opened Wrappers
  import opened Dictionaries
  import opened Descriptors
  import opened HttpRuleHelpers
  import opened ApiDescriptions
  import opened Sequences

  // ---------------------------------------------------------------------
  // Collaborators that are not part of this model
  // ---------------------------------------------------------------------

  /** The three outputs of `ServiceDescriptorHelpers.ResolveBodyDescriptor`. */
  datatype BodyDescriptor = BodyDescriptor(
    descriptor: Option<MessageDescriptor>,
    fieldDescriptors: Option<seq<FieldDescriptor>>,
    repeated: bool)

  /** `ServiceDescriptorHelpers.ResolveBodyDescriptor`, whose definition is not
      part of this model: it resolves the rule's body against the method, or
      throws (the failure carries the exception's message). */
  type BodyResolver = (string, MethodDescriptor) -> Result<BodyDescriptor, string>

  /** What building the description collection throws. */
  datatype BuildError =
    | RouteParameterError(error: Error)
    | BodyDescriptorError(message: string)

  // ---------------------------------------------------------------------
  // CustomTypeMappings: first writer wins
  // ---------------------------------------------------------------------

  type TypeMappings = map<ClrType, MessageSchemaGenerator>

  /** The mappings after `AddSchemaGeneratorOverride(message)`: a generator
      for the message's type is added unless the type is already mapped. */
  function WithOverride(mappings: TypeMappings, message: MessageDescriptor): (r: TypeMappings)
    ensures r.Keys == mappings.Keys + {message.clrType}
    ensures forall t :: t in mappings ==> r[t] == mappings[t]
    ensures message.clrType !in mappings ==> r[message.clrType] == MessageSchemaGenerator(message)
  {
    if message.clrType in mappings then mappings
    else mappings[message.clrType := MessageSchemaGenerator(message)]
  }

  /** Adding the same type twice leaves the mappings as the first call did. */
  lemma WithOverrideIdempotent(mappings: TypeMappings, message: MessageDescriptor)
    ensures WithOverride(WithOverride(mappings, message), message) == WithOverride(mappings, message)
  {
  }

  /** The mappings after overriding `messages` one after the other. */
  function WithOverrides(mappings: TypeMappings, messages: seq<MessageDescriptor>): (r: TypeMappings)
    ensures r.Keys == mappings.Keys + (set m | m in messages :: m.clrType)
    ensures forall t :: t in mappings ==> r[t] == mappings[t]
    decreases |messages|
  {
    if messages == [] then mappings
    else
      var init, last := messages[..|messages| - 1], messages[|messages| - 1];
      assert messages == init + [last];
      WithOverride(WithOverrides(mappings, init), last)
  }

  lemma {:induction false} WithOverridesAppend(mappings: TypeMappings, a: seq<MessageDescriptor>, b: seq<MessageDescriptor>)
    ensures WithOverrides(mappings, a + b) == WithOverrides(WithOverrides(mappings, a), b)
    decreases |b|
  {
    if b == [] {
      assert a + b == a;
    } else {
      var init := b[..|b| - 1];
      assert (a + b)[..|a + b| - 1] == a + init;
      WithOverridesAppend(mappings, a, init);
    }
  }

  /** A type that is not yet mapped gets the generator of the FIRST message
      of that type; later messages of the same type change nothing. */
  lemma {:induction false} WithOverridesFirstWins(mappings: TypeMappings, messages: seq<MessageDescriptor>, i: int)
    requires 0 <= i < |messages| && messages[i].clrType !in mappings
    requires forall j :: 0 <= j < i ==> messages[j].clrType != messages[i].clrType
    ensures WithOverrides(mappings, messages)[messages[i].clrType] == MessageSchemaGenerator(messages[i])
    decreases |messages|
  {
    var init, last := messages[..|messages| - 1], messages[|messages| - 1];
    if i == |messages| - 1 {
      assert messages[i].clrType !in (set m | m in init :: m.clrType);
    } else {
      WithOverridesFirstWins(mappings, init, i);
    }
  }

  /** Overriding types that are all mapped already changes nothing. */
  lemma {:induction false} WithOverridesOfMapped(mappings: TypeMappings, messages: seq<MessageDescriptor>)
    requires forall m :: m in messages ==> m.clrType in mappings
    ensures WithOverrides(mappings, messages) == mappings
    decreases |messages|
  {
    if messages != [] {
      WithOverridesOfMapped(mappings, messages[..|messages| - 1]);
    }
  }

  /** Repeating a whole sequence of overrides changes nothing. */
  lemma WithOverridesIdempotent(mappings: TypeMappings, messages: seq<MessageDescriptor>)
    ensures WithOverrides(WithOverrides(mappings, messages), messages) == WithOverrides(mappings, messages)
  {
    WithOverridesOfMapped(WithOverrides(mappings, messages), messages);
  }

  /** Overriding one or two messages is one or two single overrides. */
  lemma WithOverridesShort(mappings: TypeMappings, a: MessageDescriptor, b: MessageDescriptor)
    ensures WithOverrides(mappings, [a]) == WithOverride(mappings, a)
    ensures WithOverrides(mappings, [a, b]) == WithOverride(WithOverride(mappings, a), b)
  {
    assert [a][..0] == [];
    assert [a, b][..1] == [a];
  }

  // ---------------------------------------------------------------------
  // One endpoint
  // ---------------------------------------------------------------------

  /** An endpoint that is a route endpoint and carries all three metadata
      items the provider looks up. */
  predicate HasGrpcMetadata(endpoint: Endpoint) {
    && endpoint.RouteEndpoint?
    && endpoint.metadata.grpcMethod.Some?
    && endpoint.metadata.httpRule.Some?
    && endpoint.metadata.methodDescriptor.Some?
  }

  /** The description before any parameter is added. */
  function BaseDescription(verb: string, pattern: string, methodDescriptor: MethodDescriptor): (d: ApiDescription)
    ensures d.httpMethod == verb && d.controller == methodDescriptor.service.fullName
    ensures d.relativePath == [] || d.relativePath[0] != '/'
    ensures |d.relativePath| <= |pattern| && d.relativePath == pattern[|pattern| - |d.relativePath|..]
    ensures forall i :: 0 <= i < |pattern| - |d.relativePath| ==> pattern[i] == '/'
    ensures d.requestMediaTypes == [JsonMediaType]
    ensures d.responseTypes == [ApiResponseType([JsonMediaType], methodDescriptor.outputType.clrType, 200)]
    ensures d.parameters == []
  {
    var relativePath := TrimStart(pattern, '/');
    assert |relativePath| <= |pattern| && relativePath == pattern[|pattern| - |relativePath|..];
    ApiDescription(
      verb,
      methodDescriptor.service.fullName,
      relativePath,
      [JsonMediaType],
      [ApiResponseType([JsonMediaType], methodDescriptor.outputType.clrType, 200)],
      [])
  }

  /** One path-sourced parameter per route-parameter key, in key order. */
  function PathParameters(keys: seq<string>): (ps: seq<ApiParameterDescription>)
    ensures |ps| == |keys|
    ensures forall i :: 0 <= i < |keys| ==> ps[i] == ApiParameterDescription(keys[i], None, Path)
  {
    if keys == [] then []
    else PathParameters(keys[..|keys| - 1]) + [ApiParameterDescription(keys[|keys| - 1], None, Path)]
  }

  /** One more key adds one more path parameter at the end. */
  lemma PathParametersStep(prefix: seq<ApiParameterDescription>, keys: seq<string>, k: int)
    requires 0 <= k < |keys|
    ensures prefix + PathParameters(keys[..k]) + [ApiParameterDescription(keys[k], None, Path)]
         == prefix + PathParameters(keys[..k + 1])
  {
    PrefixExtends(keys, k);
    assert PathParameters(keys[..k + 1]) == PathParameters(keys[..k]) + [ApiParameterDescription(keys[k], None, Path)];
  }

  /** The body parameter, named "Input" and typed by the body's message. */
  function BodyParameter(body: MessageDescriptor): (p: ApiParameterDescription)
    ensures p.name == "Input" && p.source == Body && p.modelType == Some(body.clrType)
  {
    ApiParameterDescription("Input", Some(body.clrType), Body)
  }

  /** What one endpoint contributes: nothing, a description, or the error it
      throws; with the message types it registers generators for, in order
      (including those registered before an exception). */
  datatype EndpointOutcome =
    | Skipped
    | Described(description: ApiDescription, schemaTypes: seq<MessageDescriptor>)
    | Failed(error: BuildError, schemaTypes: seq<MessageDescriptor>)

  /** The reference definition of one iteration of the endpoint loop. */
  function Describe(endpoint: Endpoint, resolve: FieldPathResolver, resolveBody: BodyResolver): (r: EndpointOutcome)
    ensures r.Skipped? <==> !HasGrpcMetadata(endpoint) || !TryResolvePattern(endpoint.metadata.httpRule.value).found
    ensures !r.Skipped? ==> r.schemaTypes != [] && r.schemaTypes[0] == endpoint.metadata.methodDescriptor.value.outputType
  {
    if !HasGrpcMetadata(endpoint) then Skipped
    else
      var httpRule := endpoint.metadata.httpRule.value;
      var methodDescriptor := endpoint.metadata.methodDescriptor.value;
      var resolution := TryResolvePattern(httpRule);
      if !resolution.found then Skipped
      else
        var description := BaseDescription(resolution.verb.value, resolution.pattern.value, methodDescriptor);
        DescribeRoute(endpoint.routePattern, httpRule.body, methodDescriptor, description, resolve, resolveBody)
  }

  /** The part of `Describe` after the pattern has resolved: route
      parameters first, then the body. */
  function DescribeRoute(routePattern: RoutePattern, body: string, methodDescriptor: MethodDescriptor,
                         description: ApiDescription, resolve: FieldPathResolver, resolveBody: BodyResolver)
    : (r: EndpointOutcome)
    ensures !r.Skipped? && r.schemaTypes != [] && r.schemaTypes[0] == methodDescriptor.outputType
    ensures r.Described? ==> r.description.(parameters := description.parameters) == description
    ensures r.Described? ==> description.parameters <= r.description.parameters
  {
    match ResolveRouteParameters(routePattern.parameterNames, methodDescriptor.inputType, resolve)
    case Failure(e) => Failed(RouteParameterError(e), [methodDescriptor.outputType])
    case Success(routeParameters) =>
      var withPath := description.(parameters := description.parameters + PathParameters(routeParameters.keys));
      DescribeBody(body, methodDescriptor, withPath, resolveBody)
  }

  /** The part of `Describe` after the path parameters are in place. */
  function DescribeBody(body: string, methodDescriptor: MethodDescriptor, description: ApiDescription,
                        resolveBody: BodyResolver): (r: EndpointOutcome)
    ensures !r.Skipped? && r.schemaTypes != [] && r.schemaTypes[0] == methodDescriptor.outputType
  {
    match resolveBody(body, methodDescriptor)
    case Failure(message) => Failed(BodyDescriptorError(message), [methodDescriptor.outputType])
    case Success(bodyDescriptor) =>
      match bodyDescriptor.descriptor
      case None => Described(description, [methodDescriptor.outputType])
      case Some(bodyType) =>
        Described(description.(parameters := description.parameters + [BodyParameter(bodyType)]),
                  [methodDescriptor.outputType, bodyType])
  }

  /** The parameter a resolved body adds: "Input" when it is a message. */
  function BodyParameters(body: BodyDescriptor): seq<ApiParameterDescription> {
    if body.descriptor.Some? then [BodyParameter(body.descriptor.value)] else []
  }

  /** After the pattern has resolved, a described endpoint keeps its
      description and appends the route's path parameters, then the body
      parameter if any. */
  lemma DescribeRouteShape(routePattern: RoutePattern, body: string, md: MethodDescriptor,
                           description: ApiDescription, resolve: FieldPathResolver, resolveBody: BodyResolver)
    requires DescribeRoute(routePattern, body, md, description, resolve, resolveBody).Described?
    ensures ResolveRouteParameters(routePattern.parameterNames, md.inputType, resolve).Success?
    ensures resolveBody(body, md).Success?
    ensures DescribeRoute(routePattern, body, md, description, resolve, resolveBody).description
         == description.(parameters := description.parameters + PathParameters(routePattern.parameterNames)
                                       + BodyParameters(resolveBody(body, md).value))
    ensures description.parameters == [] ==>
      DescribeRoute(routePattern, body, md, description, resolve, resolveBody).description.parameters
      == PathParameters(routePattern.parameterNames) + BodyParameters(resolveBody(body, md).value)
  {
    var names := routePattern.parameterNames;
    var route := ResolveRouteParameters(names, md.inputType, resolve);
    assert route.Success?;
    var path := PathParameters(names);
    assert route.value.keys == names;
    var withPath := description.(parameters := description.parameters + path);
    var outcome := DescribeBody(body, md, withPath, resolveBody);
    assert DescribeRoute(routePattern, body, md, description, resolve, resolveBody) == outcome;
    var resolved := resolveBody(body, md);
    assert resolved.Success?;
    if resolved.value.descriptor.Some? {
      assert outcome.description.parameters == description.parameters + path + BodyParameters(resolved.value);
    } else {
      assert outcome.description.parameters == description.parameters + path + BodyParameters(resolved.value) by {
        assert BodyParameters(resolved.value) == [];
      }
    }
    if description.parameters == [] {
      assert description.parameters + path == path;
    }
  }

  /** A described endpoint: the verb and path come from the HTTP rule, the
      path loses its leading slashes, and JSON goes in and out with a single
      200 response typed by the method's output. */
  lemma DescribedShape(endpoint: Endpoint, resolve: FieldPathResolver, resolveBody: BodyResolver)
    requires Describe(endpoint, resolve, resolveBody).Described?
    ensures HasGrpcMetadata(endpoint) && TryResolvePattern(endpoint.metadata.httpRule.value).found
    ensures var resolution := TryResolvePattern(endpoint.metadata.httpRule.value);
      var d := Describe(endpoint, resolve, resolveBody).description;
      && Some(d.httpMethod) == resolution.verb
      && d.relativePath == TrimStart(resolution.pattern.value, '/')
    ensures var md, d := endpoint.metadata.methodDescriptor.value, Describe(endpoint, resolve, resolveBody).description;
      && d.controller == md.service.fullName
      && d.requestMediaTypes == [JsonMediaType]
      && d.responseTypes == [ApiResponseType([JsonMediaType], md.outputType.clrType, 200)]
  {
    var rule, md := endpoint.metadata.httpRule.value, endpoint.metadata.methodDescriptor.value;
    var resolution := TryResolvePattern(rule);
    var base := BaseDescription(resolution.verb.value, resolution.pattern.value, md);
    assert Describe(endpoint, resolve, resolveBody)
        == DescribeRoute(endpoint.routePattern, rule.body, md, base, resolve, resolveBody);
    DescribeRouteShape(endpoint.routePattern, rule.body, md, base, resolve, resolveBody);
  }

  /** A described endpoint's parameters are its route parameters in route
      order, all bound from the path, followed by "Input" exactly when the
      rule's body resolves to a message. */
  lemma DescribedParameters(endpoint: Endpoint, resolve: FieldPathResolver, resolveBody: BodyResolver)
    requires Describe(endpoint, resolve, resolveBody).Described?
    ensures HasGrpcMetadata(endpoint)
    ensures var rule, md := endpoint.metadata.httpRule.value, endpoint.metadata.methodDescriptor.value;
      var names := endpoint.routePattern.parameterNames;
      && ResolveRouteParameters(names, md.inputType, resolve).Success?
      && resolveBody(rule.body, md).Success?
      && Describe(endpoint, resolve, resolveBody).description.parameters
         == PathParameters(names) + BodyParameters(resolveBody(rule.body, md).value)
  {
    var rule, md := endpoint.metadata.httpRule.value, endpoint.metadata.methodDescriptor.value;
    var resolution := TryResolvePattern(rule);
    var base := BaseDescription(resolution.verb.value, resolution.pattern.value, md);
    assert Describe(endpoint, resolve, resolveBody)
        == DescribeRoute(endpoint.routePattern, rule.body, md, base, resolve, resolveBody);
    DescribeRouteShape(endpoint.routePattern, rule.body, md, base, resolve, resolveBody);
  }

  /** After the pattern has resolved, the endpoint fails exactly when its
      route parameters or its body do not resolve, with the first of those
      errors. */
  lemma DescribeRouteFailure(routePattern: RoutePattern, body: string, md: MethodDescriptor,
                             description: ApiDescription, resolve: FieldPathResolver, resolveBody: BodyResolver)
    ensures var route := ResolveRouteParameters(routePattern.parameterNames, md.inputType, resolve);
      var outcome := DescribeRoute(routePattern, body, md, description, resolve, resolveBody);
      && (outcome.Failed? <==> route.Failure? || resolveBody(body, md).Failure?)
      && (route.Failure? ==> outcome == Failed(RouteParameterError(route.error), [md.outputType]))
      && (route.Success? && resolveBody(body, md).Failure? ==>
            outcome == Failed(BodyDescriptorError(resolveBody(body, md).error), [md.outputType]))
  {
  }

  /** An endpoint whose pattern resolves fails exactly when its route
      parameters or its body do not resolve, with the first of those errors. */
  lemma DescribeFailure(endpoint: Endpoint, resolve: FieldPathResolver, resolveBody: BodyResolver)
    requires HasGrpcMetadata(endpoint) && TryResolvePattern(endpoint.metadata.httpRule.value).found
    ensures var rule, md := endpoint.metadata.httpRule.value, endpoint.metadata.methodDescriptor.value;
      var route := ResolveRouteParameters(endpoint.routePattern.parameterNames, md.inputType, resolve);
      var outcome := Describe(endpoint, resolve, resolveBody);
      && (outcome.Failed? <==> route.Failure? || resolveBody(rule.body, md).Failure?)
      && (route.Failure? ==> outcome == Failed(RouteParameterError(route.error), [md.outputType]))
      && (route.Success? && resolveBody(rule.body, md).Failure? ==>
            outcome == Failed(BodyDescriptorError(resolveBody(rule.body, md).error), [md.outputType]))
  {
    var rule, md := endpoint.metadata.httpRule.value, endpoint.metadata.methodDescriptor.value;
    var resolution := TryResolvePattern(rule);
    var base := BaseDescription(resolution.verb.value, resolution.pattern.value, md);
    assert Describe(endpoint, resolve, resolveBody)
        == DescribeRoute(endpoint.routePattern, rule.body, md, base, resolve, resolveBody);
    DescribeRouteFailure(endpoint.routePattern, rule.body, md, base, resolve, resolveBody);
  }

  // ---------------------------------------------------------------------
  // All endpoints
  // ---------------------------------------------------------------------

  /** The state of the endpoint loop: the descriptions so far, the message
      types registered so far, and the exception that ended it, if any. */
  datatype Collection = Collection(
    descriptions: seq<ApiDescription>,
    schemaTypes: seq<MessageDescriptor>,
    error: Option<BuildError>)

  /** The message types an outcome registered generators for. */
  function SchemaTypes(outcome: EndpointOutcome): seq<MessageDescriptor> {
    if outcome.Skipped? then [] else outcome.schemaTypes
  }

  /** The descriptions an outcome contributes. */
  function DescribedBy(outcome: EndpointOutcome): seq<ApiDescription> {
    if outcome.Described? then [outcome.description] else []
  }

  /** The loop state after one more endpoint, when no exception has ended it. */
  function Extend(prior: Collection, outcome: EndpointOutcome): (r: Collection)
    ensures r.descriptions == prior.descriptions + DescribedBy(outcome)
    ensures r.schemaTypes == prior.schemaTypes + SchemaTypes(outcome)
    ensures r.error == if outcome.Failed? then Some(outcome.error) else prior.error
  {
    match outcome
    case Skipped => prior
    case Described(d, types) => Collection(prior.descriptions + [d], prior.schemaTypes + types, prior.error)
    case Failed(e, types) => Collection(prior.descriptions, prior.schemaTypes + types, Some(e))
  }

  /** What each endpoint, taken alone, contributes, in endpoint order. */
  function Outcomes(endpoints: seq<Endpoint>, resolve: FieldPathResolver, resolveBody: BodyResolver)
    : (r: seq<EndpointOutcome>)
    ensures |r| == |endpoints|
    ensures forall i :: 0 <= i < |endpoints| ==> r[i] == Describe(endpoints[i], resolve, resolveBody)
    decreases |endpoints|
  {
    if endpoints == [] then []
    else Outcomes(endpoints[..|endpoints| - 1], resolve, resolveBody)
         + [Describe(endpoints[|endpoints| - 1], resolve, resolveBody)]
  }

  /** The endpoint loop over the outcomes, one after the other; the first
      exception ends it. */
  function Fold(outcomes: seq<EndpointOutcome>): (r: Collection)
    ensures |r.descriptions| <= |outcomes|
    decreases |outcomes|
  {
    if outcomes == [] then Collection([], [], None)
    else
      var prior := Fold(outcomes[..|outcomes| - 1]);
      if prior.error.Some? then prior else Extend(prior, outcomes[|outcomes| - 1])
  }

  /** The reference definition of the endpoint loop. */
  function Collect(endpoints: seq<Endpoint>, resolve: FieldPathResolver, resolveBody: BodyResolver): (r: Collection)
    ensures |r.descriptions| <= |endpoints|
  {
    Fold(Outcomes(endpoints, resolve, resolveBody))
  }

  /** The single group all descriptions go into. */
  function GroupsOf(descriptions: seq<ApiDescription>): (g: ApiDescriptionGroupCollection)
    ensures g.version == 1 && |g.items| == 1
    ensures g.items[0].groupName == "Test" && g.items[0].items == descriptions
  {
    ApiDescriptionGroupCollection([ApiDescriptionGroup("Test", descriptions)], 1)
  }

  /** What `GetCollection` returns or throws for a finished loop. */
  function CollectionResult(c: Collection): (r: Result<ApiDescriptionGroupCollection, BuildError>)
    ensures r.Success? <==> c.error.None?
    ensures r.Failure? ==> Some(r.error) == c.error
    ensures r.Success? ==>
      && r.value.version == 1
      && |r.value.items| == 1
      && r.value.items[0].groupName == "Test"
      && r.value.items[0].items == c.descriptions
  {
    if c.error.Some? then Failure(c.error.value) else Success(GroupsOf(c.descriptions))
  }

  /** One more endpoint is one more step of the loop. */
  lemma CollectStep(endpoints: seq<Endpoint>, i: int, resolve: FieldPathResolver, resolveBody: BodyResolver)
    requires 0 <= i < |endpoints|
    ensures var prior := Collect(endpoints[..i], resolve, resolveBody);
      Collect(endpoints[..i + 1], resolve, resolveBody)
      == if prior.error.Some? then prior else Extend(prior, Describe(endpoints[i], resolve, resolveBody))
  {
    PrefixExtends(endpoints, i);
    var before := Outcomes(endpoints[..i], resolve, resolveBody);
    var after := Outcomes(endpoints[..i + 1], resolve, resolveBody);
    assert after == before + [Describe(endpoints[i], resolve, resolveBody)];
    assert after[..|after| - 1] == before;
  }

  /** Once the loop has thrown on a prefix of the outcomes, the rest are
      never looked at. */
  lemma {:induction false} FoldPrefixFailure(outcomes: seq<EndpointOutcome>, k: int)
    requires 0 <= k <= |outcomes| && Fold(outcomes[..k]).error.Some?
    ensures Fold(outcomes) == Fold(outcomes[..k])
    decreases |outcomes|
  {
    if k == |outcomes| {
      WholePrefix(outcomes);
    } else {
      var init := outcomes[..|outcomes| - 1];
      assert init[..k] == outcomes[..k];
      FoldPrefixFailure(init, k);
    }
  }

  /** The same, for endpoints. */
  lemma CollectPrefixFailure(endpoints: seq<Endpoint>, k: int, resolve: FieldPathResolver, resolveBody: BodyResolver)
    requires 0 <= k <= |endpoints|
    requires Collect(endpoints[..k], resolve, resolveBody).error.Some?
    ensures Collect(endpoints, resolve, resolveBody) == Collect(endpoints[..k], resolve, resolveBody)
  {
    var outcomes := Outcomes(endpoints, resolve, resolveBody);
    assert outcomes[..k] == Outcomes(endpoints[..k], resolve, resolveBody);
    FoldPrefixFailure(outcomes, k);
  }

  /** The descriptions of the described outcomes, in order: a front-to-back
      reference definition, independent of the loop. */
  function AllDescribed(outcomes: seq<EndpointOutcome>): seq<ApiDescription>
    decreases |outcomes|
  {
    if outcomes == [] then [] else DescribedBy(outcomes[0]) + AllDescribed(outcomes[1..])
  }

  lemma {:induction false} AllDescribedAppend(outcomes: seq<EndpointOutcome>, outcome: EndpointOutcome)
    ensures AllDescribed(outcomes + [outcome]) == AllDescribed(outcomes) + DescribedBy(outcome)
    decreases |outcomes|
  {
    if outcomes == [] {
      assert ([] + [outcome])[1..] == [];
    } else {
      assert (outcomes + [outcome])[1..] == outcomes[1..] + [outcome];
      AllDescribedAppend(outcomes[1..], outcome);
    }
  }

  /** No outcome is an exception. */
  predicate NoneFailed(outcomes: seq<EndpointOutcome>) {
    forall i :: 0 <= i < |outcomes| ==> !outcomes[i].Failed?
  }

  /** The loop finishes exactly when no outcome is an exception, and then
      its descriptions are those of the described outcomes, in order. */
  lemma {:induction false} FoldSucceeds(outcomes: seq<EndpointOutcome>)
    ensures Fold(outcomes).error.None? <==> NoneFailed(outcomes)
    ensures Fold(outcomes).error.None? ==> Fold(outcomes).descriptions == AllDescribed(outcomes)
    decreases |outcomes|
  {
    if outcomes != [] {
      var init, last := outcomes[..|outcomes| - 1], outcomes[|outcomes| - 1];
      assert outcomes == init + [last];
      FoldSucceeds(init);
      AllDescribedAppend(init, last);
    }
  }

  /** When the loop throws, it throws the error of the first failing outcome. */
  lemma {:induction false} FoldFailure(outcomes: seq<EndpointOutcome>)
    requires Fold(outcomes).error.Some?
    ensures exists i :: (0 <= i < |outcomes| && NoneFailed(outcomes[..i]) && outcomes[i].Failed?
                         && Fold(outcomes).error == Some(outcomes[i].error))
    decreases |outcomes|
  {
    var init := outcomes[..|outcomes| - 1];
    if Fold(init).error.Some? {
      FoldFailure(init);
      var i :| 0 <= i < |init| && NoneFailed(init[..i]) && init[i].Failed? && Fold(init).error == Some(init[i].error);
      assert init[..i] == outcomes[..i];
    } else {
      FoldSucceeds(init);
    }
  }

  /** The message types registered for a prefix of the outcomes are a prefix
      of those registered for all of them. */
  lemma {:induction false} FoldSchemaTypesGrow(outcomes: seq<EndpointOutcome>, k: int)
    requires 0 <= k <= |outcomes|
    ensures Fold(outcomes[..k]).schemaTypes <= Fold(outcomes).schemaTypes
    decreases |outcomes|
  {
    if k == |outcomes| {
      WholePrefix(outcomes);
    } else {
      var init := outcomes[..|outcomes| - 1];
      assert init[..k] == outcomes[..k];
      FoldSchemaTypesGrow(init, k);
    }
  }

  /** Every outcome the loop reaches has its message types registered, even
      the one that throws. */
  lemma FoldRegisters(outcomes: seq<EndpointOutcome>, i: int)
    requires 0 <= i < |outcomes| && NoneFailed(outcomes[..i])
    ensures forall t :: t in SchemaTypes(outcomes[i]) ==> t in Fold(outcomes).schemaTypes
  {
    var prefix := outcomes[..i + 1];
    PrefixExtends(outcomes, i);
    assert prefix[..|prefix| - 1] == outcomes[..i];
    FoldSucceeds(outcomes[..i]);
    var before := Fold(outcomes[..i]).schemaTypes;
    assert Fold(prefix).schemaTypes == before + SchemaTypes(outcomes[i]);
    FoldSchemaTypesGrow(outcomes, i + 1);
    forall t | t in SchemaTypes(outcomes[i])
      ensures t in Fold(outcomes).schemaTypes
    {
      var k :| 0 <= k < |SchemaTypes(outcomes[i])| && SchemaTypes(outcomes[i])[k] == t;
      assert Fold(prefix).schemaTypes[|before| + k] == t;
    }
  }

  /** The loop over the endpoints finishes exactly when no endpoint throws,
      and then its descriptions are those of the described endpoints, in
      endpoint order, with the skipped ones left out. */
  lemma CollectSucceeds(endpoints: seq<Endpoint>, resolve: FieldPathResolver, resolveBody: BodyResolver)
    ensures Collect(endpoints, resolve, resolveBody).error.None?
       <==> forall i :: 0 <= i < |endpoints| ==> !Describe(endpoints[i], resolve, resolveBody).Failed?
    ensures Collect(endpoints, resolve, resolveBody).error.None? ==>
      Collect(endpoints, resolve, resolveBody).descriptions == AllDescribed(Outcomes(endpoints, resolve, resolveBody))
  {
    FoldSucceeds(Outcomes(endpoints, resolve, resolveBody));
  }

  /** When the loop over the endpoints throws, the error is that of the first
      endpoint that fails. */
  lemma CollectFailure(endpoints: seq<Endpoint>, resolve: FieldPathResolver, resolveBody: BodyResolver)
    requires Collect(endpoints, resolve, resolveBody).error.Some?
    ensures exists i :: (
      && 0 <= i < |endpoints|
      && (forall j :: 0 <= j < i ==> !Describe(endpoints[j], resolve, resolveBody).Failed?)
      && Describe(endpoints[i], resolve, resolveBody).Failed?
      && Collect(endpoints, resolve, resolveBody).error == Some(Describe(endpoints[i], resolve, resolveBody).error))
  {
    var outcomes := Outcomes(endpoints, resolve, resolveBody);
    FoldFailure(outcomes);
    var i :| 0 <= i < |outcomes| && NoneFailed(outcomes[..i]) && outcomes[i].Failed?
      && Fold(outcomes).error == Some(outcomes[i].error);
    NoneFailedBefore(endpoints, outcomes, i, resolve, resolveBody);
    assert outcomes[i] == Describe(endpoints[i], resolve, resolveBody);
    assert Collect(endpoints, resolve, resolveBody).error == Some(Describe(endpoints[i], resolve, resolveBody).error);
  }

  /** No outcome before `i` fails: no endpoint before `i` fails. */
  lemma NoneFailedBefore(endpoints: seq<Endpoint>, outcomes: seq<EndpointOutcome>, i: int,
                         resolve: FieldPathResolver, resolveBody: BodyResolver)
    requires 0 <= i <= |outcomes| == |endpoints|
    requires forall k :: 0 <= k < |endpoints| ==> outcomes[k] == Describe(endpoints[k], resolve, resolveBody)
    requires NoneFailed(outcomes[..i])
    ensures forall j :: 0 <= j < i ==> !Describe(endpoints[j], resolve, resolveBody).Failed?
  {
    forall j | 0 <= j < i
      ensures !Describe(endpoints[j], resolve, resolveBody).Failed?
    {
      assert outcomes[..i][j] == outcomes[j];
    }
  }

  /** After the loop, every endpoint it reached that was not skipped has a
      generator for its output type, the one that threw included. */
  lemma OutputTypeRegistered(mappings: TypeMappings, endpoints: seq<Endpoint>, i: int,
                             resolve: FieldPathResolver, resolveBody: BodyResolver)
    requires 0 <= i < |endpoints|
    requires forall j :: 0 <= j < i ==> !Describe(endpoints[j], resolve, resolveBody).Failed?
    requires !Describe(endpoints[i], resolve, resolveBody).Skipped?
    ensures endpoints[i].metadata.methodDescriptor.value.outputType.clrType
         in WithOverrides(mappings, Collect(endpoints, resolve, resolveBody).schemaTypes)
  {
    var outcomes := Outcomes(endpoints, resolve, resolveBody);
    forall j | 0 <= j < |outcomes[..i]|
      ensures !outcomes[..i][j].Failed?
    {
      assert outcomes[..i][j] == Describe(endpoints[j], resolve, resolveBody);
    }
    FoldRegisters(outcomes, i);
    var outputType := endpoints[i].metadata.methodDescriptor.value.outputType;
    assert outputType in Fold(outcomes).schemaTypes by {
      assert outcomes[i].schemaTypes[0] == outputType;
      assert outputType in SchemaTypes(outcomes[i]);
    }
  }

  // ---------------------------------------------------------------------
  // ResolveFieldType
  // ---------------------------------------------------------------------

  /** The CLR types a scalar field can resolve to. */
  datatype PrimitiveType = DoubleType | FloatType | LongType | ULongType | IntType | UIntType | BoolType | StringType

  /** The exception thrown for a field type with no primitive type. */
  datatype FieldTypeError = UnexpectedFieldType(fieldType: FieldType)

  /** The least and greatest value of an integer CLR type. */
  function IntegerRange(t: PrimitiveType): Option<(int, int)> {
    match t
    case LongType => Some((-0x8000_0000_0000_0000, 0x7FFF_FFFF_FFFF_FFFF))
    case ULongType => Some((0, 0xFFFF_FFFF_FFFF_FFFF))
    case IntType => Some((-0x8000_0000, 0x7FFF_FFFF))
    case UIntType => Some((0, 0xFFFF_FFFF))
    case _ => None
  }

  /** The least and greatest value of an integer protobuf field type, per
      the scalar value types of the Protocol Buffers language guide: the
      fixed types are unsigned, the sfixed and sint types signed. */
  function FieldIntegerRange(t: FieldType): Option<(int, int)> {
    match t
    case Int64 | SInt64 | SFixed64 => Some((-0x8000_0000_0000_0000, 0x7FFF_FFFF_FFFF_FFFF))
    case UInt64 | Fixed64 => Some((0, 0xFFFF_FFFF_FFFF_FFFF))
    case Int32 | SInt32 | SFixed32 => Some((-0x8000_0000, 0x7FFF_FFFF))
    case UInt32 | Fixed32 => Some((0, 0xFFFF_FFFF))
    case _ => None
  }

  /** Every value a field of type `field` carries is a value of `t`. */
  predicate HoldsEveryValue(t: PrimitiveType, field: FieldType) {
    FieldIntegerRange(field).Some? ==>
      && IntegerRange(t).Some?
      && IntegerRange(t).value.0 <= FieldIntegerRange(field).value.0
      && FieldIntegerRange(field).value.1 <= IntegerRange(t).value.1
  }

  /** The CLR type of a scalar field, as the provider maps it: bytes and
      enums become strings; groups and messages have none and throw. Integer
      fields get an integer type of the same width. */
  function ResolveFieldType(field: FieldDescriptor): (r: Result<PrimitiveType, FieldTypeError>)
    ensures r.Failure? <==> field.fieldType.Group? || field.fieldType.Message?
    ensures r.Failure? ==> r.error == UnexpectedFieldType(field.fieldType)
    ensures r.Success? ==> (IntegerRange(r.value).Some? <==> FieldIntegerRange(field.fieldType).Some?)
    ensures r.Success? && FieldIntegerRange(field.fieldType).Some? ==>
      IntegerRange(r.value).value.1 - IntegerRange(r.value).value.0
      == FieldIntegerRange(field.fieldType).value.1 - FieldIntegerRange(field.fieldType).value.0
    ensures r.Success? && FieldIntegerRange(field.fieldType).Some? && !(field.fieldType.Fixed32? || field.fieldType.Fixed64?) ==>
      HoldsEveryValue(r.value, field.fieldType)
    ensures field.fieldType.Fixed32? || field.fieldType.Fixed64? ==> IntegerRange(r.value).value.0 < 0
    ensures field.fieldType.String? || field.fieldType.Bytes? || field.fieldType.Enum? ==> r == Success(StringType)
    ensures field.fieldType.Double? ==> r == Success(DoubleType)
    ensures field.fieldType.Float? ==> r == Success(FloatType)
    ensures field.fieldType.Bool? ==> r == Success(BoolType)
  {
    match field.fieldType
    case Double => Success(DoubleType)
    case Float => Success(FloatType)
    case Int64 => Success(LongType)
    case UInt64 => Success(ULongType)
    case Int32 => Success(IntType)
    case Fixed64 => Success(LongType)
    case Fixed32 => Success(IntType)
    case Bool => Success(BoolType)
    case String => Success(StringType)
    case Bytes => Success(StringType)
    case UInt32 => Success(UIntType)
    case SFixed32 => Success(IntType)
    case SFixed64 => Success(LongType)
    case SInt32 => Success(IntType)
    case SInt64 => Success(LongType)
    case Enum => Success(StringType)
    case Group => Failure(UnexpectedFieldType(field.fieldType))
    case Message => Failure(UnexpectedFieldType(field.fieldType))
  }

  /** As written, a fixed32 field resolves to `int`, which cannot hold the
      largest fixed32 value, and a fixed64 field to `long`, which cannot
      hold the largest fixed64 value. */
  lemma ResolveFieldTypeLosesUnsignedValues(field: FieldDescriptor)
    requires field.fieldType.Fixed32? || field.fieldType.Fixed64?
    ensures ResolveFieldType(field).Success?
    ensures !HoldsEveryValue(ResolveFieldType(field).value, field.fieldType)
    ensures field.fieldType.Fixed32? ==> 0xFFFF_FFFF > IntegerRange(ResolveFieldType(field).value).value.1
    ensures field.fieldType.Fixed64? ==> 0xFFFF_FFFF_FFFF_FFFF > IntegerRange(ResolveFieldType(field).value).value.1
  {
  }

  /** The mapping with the unsigned fixed types resolved to the unsigned CLR
      types; every other field type resolves as before. */
  function ResolveFieldTypeCorrected(field: FieldDescriptor): (r: Result<PrimitiveType, FieldTypeError>)
    ensures r.Failure? <==> field.fieldType.Group? || field.fieldType.Message?
    ensures r.Failure? ==> r.error == UnexpectedFieldType(field.fieldType)
    ensures r.Success? ==> HoldsEveryValue(r.value, field.fieldType)
    ensures r.Success? ==> (IntegerRange(r.value).Some? <==> FieldIntegerRange(field.fieldType).Some?)
  {
    match field.fieldType
    case Fixed64 => Success(ULongType)
    case Fixed32 => Success(UIntType)
    case _ => ResolveFieldType(field)
  }

  /** The correction changes only the two unsigned fixed types. */
  lemma ResolveFieldTypeCorrectedAgrees(field: FieldDescriptor)
    ensures ResolveFieldTypeCorrected(field) == ResolveFieldType(field)
        <==> !(field.fieldType.Fixed32? || field.fieldType.Fixed64?)
  {
  }

  /** `SchemaGeneratorOptions`, reduced to its `CustomTypeMappings`. The
      options object is shared with the schema generator that reads it. */
  class SchemaGeneratorOptions {
    var customTypeMappings: TypeMappings

    constructor (customTypeMappings: TypeMappings)
      ensures this.customTypeMappings == customTypeMappings
    {
      this.customTypeMappings := customTypeMappings;
    }
  }

  /** `EndpointDataSource`: the application's endpoints. The application may
      change them at any time; the provider reads them on every build. */
  class EndpointDataSource {
    var endpoints: seq<Endpoint>

    constructor (endpoints: seq<Endpoint>)
      ensures this.endpoints == endpoints
    {
      this.endpoints := endpoints;
    }
  }

  class GrpcHttpApiDescriptionProvider {
    const endpointDataSource: EndpointDataSource
    const swaggerGeneratorOptions: SchemaGeneratorOptions
    /** Stand-ins for the static helpers `TryResolveDescriptors` and
        `ResolveBodyDescriptor`. */
    const resolveDescriptors: FieldPathResolver
    const resolveBodyDescriptor: BodyResolver
    /** `_apiDescriptionGroups`: the cache slot, null until the first read. */
    var apiDescriptionGroups: Option<ApiDescriptionGroupCollection>

    constructor (endpointDataSource: EndpointDataSource, swaggerGeneratorOptions: SchemaGeneratorOptions,
                 resolveDescriptors: FieldPathResolver, resolveBodyDescriptor: BodyResolver)
      ensures this.endpointDataSource == endpointDataSource
      ensures this.swaggerGeneratorOptions == swaggerGeneratorOptions
      ensures this.resolveDescriptors == resolveDescriptors
      ensures this.resolveBodyDescriptor == resolveBodyDescriptor
      ensures apiDescriptionGroups == None
    {
      this.endpointDataSource := endpointDataSource;
      this.swaggerGeneratorOptions := swaggerGeneratorOptions;
      this.resolveDescriptors := resolveDescriptors;
      this.resolveBodyDescriptor := resolveBodyDescriptor;
      apiDescriptionGroups := None;
    }

    /** The `ApiDescriptionGroups` getter: builds the collection on the first
        successful read and returns the cached one on every later read. */
    method ApiDescriptionGroups() returns (r: Result<ApiDescriptionGroupCollection, BuildError>)
      modifies this, swaggerGeneratorOptions
      ensures old(apiDescriptionGroups).Some? ==>
        && r == Success(old(apiDescriptionGroups).value)
        && apiDescriptionGroups == old(apiDescriptionGroups)
        && swaggerGeneratorOptions.customTypeMappings == old(swaggerGeneratorOptions.customTypeMappings)
      ensures old(apiDescriptionGroups).None? ==>
        var c := Collect(endpointDataSource.endpoints, resolveDescriptors, resolveBodyDescriptor);
        && r == CollectionResult(c)
        && swaggerGeneratorOptions.customTypeMappings
           == WithOverrides(old(swaggerGeneratorOptions.customTypeMappings), c.schemaTypes)
      ensures r.Success? ==> apiDescriptionGroups == Some(r.value)
      ensures r.Failure? ==> apiDescriptionGroups == None
    {
      if apiDescriptionGroups.None? {
        var collection := GetCollection();
        if collection.Failure? {
          return Failure(collection.error);
        }
        apiDescriptionGroups := Some(collection.value);
      }
      r := Success(apiDescriptionGroups.value);
    }

    /** Registers a schema generator for the message's type unless the type
        already has one. */
    method AddSchemaGeneratorOverride(messageDescriptor: MessageDescriptor)
      modifies swaggerGeneratorOptions
      ensures swaggerGeneratorOptions.customTypeMappings
           == WithOverride(old(swaggerGeneratorOptions.customTypeMappings), messageDescriptor)
    {
      var messageSchemaGenerator := MessageSchemaGenerator(messageDescriptor);
      if messageDescriptor.clrType !in swaggerGeneratorOptions.customTypeMappings {
        swaggerGeneratorOptions.customTypeMappings :=
          swaggerGeneratorOptions.customTypeMappings[messageDescriptor.clrType := messageSchemaGenerator];
      }
    }

    /** The endpoint loop. */
    method GetCollection() returns (r: Result<ApiDescriptionGroupCollection, BuildError>)
      modifies swaggerGeneratorOptions
      ensures var c := Collect(endpointDataSource.endpoints, resolveDescriptors, resolveBodyDescriptor);
        && r == CollectionResult(c)
        && swaggerGeneratorOptions.customTypeMappings
           == WithOverrides(old(swaggerGeneratorOptions.customTypeMappings), c.schemaTypes)
    {
      var descriptions: seq<ApiDescription> := [];
      var endpoints := endpointDataSource.endpoints;
      ghost var mappings0 := swaggerGeneratorOptions.customTypeMappings;
      ghost var schemaTypes: seq<MessageDescriptor> := [];
      for i := 0 to |endpoints|
        invariant Collect(endpoints[..i], resolveDescriptors, resolveBodyDescriptor)
               == Collection(descriptions, schemaTypes, None)
        invariant swaggerGeneratorOptions.customTypeMappings == WithOverrides(mappings0, schemaTypes)
      {
        ghost var mappings := swaggerGeneratorOptions.customTypeMappings;
        var outcome := DescribeEndpoint(endpoints[i]);
        WithOverridesAppend(mappings0, schemaTypes, SchemaTypes(outcome));
        CollectStep(endpoints, i, resolveDescriptors, resolveBodyDescriptor);
        schemaTypes := schemaTypes + SchemaTypes(outcome);
        match outcome
        case Skipped =>
        case Described(description, _) =>
          descriptions := descriptions + [description];
        case Failed(error, _) =>
          CollectPrefixFailure(endpoints, i + 1, resolveDescriptors, resolveBodyDescriptor);
          return Failure(error);
      }
      WholePrefix(endpoints);
      r := Success(GroupsOf(descriptions));
    }

    /** The body of the endpoint loop for one endpoint: registers the
        generators the endpoint needs and says what it contributes. */
    method DescribeEndpoint(endpoint: Endpoint) returns (outcome: EndpointOutcome)
      modifies swaggerGeneratorOptions
      ensures outcome == Describe(endpoint, resolveDescriptors, resolveBodyDescriptor)
      ensures swaggerGeneratorOptions.customTypeMappings
           == WithOverrides(old(swaggerGeneratorOptions.customTypeMappings), SchemaTypes(outcome))
    {
      if !endpoint.RouteEndpoint? {
        return Skipped;
      }
      var grpcMetadata := endpoint.metadata.grpcMethod;
      var httpRule := endpoint.metadata.httpRule;
      var methodDescriptor := endpoint.metadata.methodDescriptor;
      if grpcMetadata.None? || httpRule.None? || methodDescriptor.None? {
        return Skipped;
      }
      var resolution := TryResolvePattern(httpRule.value);
      if !resolution.found {
        return Skipped;
      }
      var pattern, verb := resolution.pattern.value, resolution.verb.value;
      var apiDescription := BaseDescription(verb, pattern, methodDescriptor.value);
      outcome := DescribeRouteEndpoint(endpoint.routePattern, httpRule.value.body, methodDescriptor.value, apiDescription);
    }

    /** The rest of the loop body once the pattern has resolved: registers the
        output type, adds the path parameters, then the body parameter. */
    method DescribeRouteEndpoint(routePattern: RoutePattern, body: string, methodDescriptor: MethodDescriptor,
                                 description: ApiDescription)
      returns (outcome: EndpointOutcome)
      modifies swaggerGeneratorOptions
      ensures outcome == DescribeRoute(routePattern, body, methodDescriptor, description,
                                       resolveDescriptors, resolveBodyDescriptor)
      ensures swaggerGeneratorOptions.customTypeMappings
           == WithOverrides(old(swaggerGeneratorOptions.customTypeMappings), SchemaTypes(outcome))
    {
      var apiDescription := description;
      var outputType := methodDescriptor.outputType;
      AddSchemaGeneratorOverride(outputType);
      assert swaggerGeneratorOptions.customTypeMappings
          == WithOverrides(old(swaggerGeneratorOptions.customTypeMappings), [outputType]) by {
        WithOverridesShort(old(swaggerGeneratorOptions.customTypeMappings), outputType, outputType);
      }
      ghost var registered := swaggerGeneratorOptions.customTypeMappings;
      var routeParameters := ResolveRouteParameterDescriptors(routePattern, methodDescriptor.inputType, resolveDescriptors);
      if routeParameters.Failure? {
        return Failed(RouteParameterError(routeParameters.error), [outputType]);
      }
      var keys := routeParameters.value.keys;
      var parameters := apiDescription.parameters;
      assert parameters == description.parameters + PathParameters(keys[..0]) by {
        assert keys[..0] == [];
        assert description.parameters + [] == description.parameters;
      }
      for k := 0 to |keys|
        invariant parameters == description.parameters + PathParameters(keys[..k])
        invariant swaggerGeneratorOptions.customTypeMappings == registered
      {
        PathParametersStep(description.parameters, keys, k);
        parameters := parameters + [ApiParameterDescription(keys[k], None, Path)];
      }
      apiDescription := apiDescription.(parameters := parameters);
      WholePrefix(keys);
      outcome := DescribeBodyEndpoint(body, methodDescriptor, apiDescription);
      assert SchemaTypes(outcome) == [outputType] + outcome.schemaTypes[1..] by {
        HeadTail(outcome.schemaTypes);
      }
      WithOverridesAppend(old(swaggerGeneratorOptions.customTypeMappings), [outputType], outcome.schemaTypes[1..]);
    }

    /** The end of the loop body: resolves the request body and, when it is a
        message, registers it and adds the "Input" parameter. */
    method DescribeBodyEndpoint(body: string, methodDescriptor: MethodDescriptor, description: ApiDescription)
      returns (outcome: EndpointOutcome)
      modifies swaggerGeneratorOptions
      ensures outcome == DescribeBody(body, methodDescriptor, description, resolveBodyDescriptor)
      ensures swaggerGeneratorOptions.customTypeMappings
           == WithOverrides(old(swaggerGeneratorOptions.customTypeMappings), outcome.schemaTypes[1..])
    {
      var outputType := methodDescriptor.outputType;
      var bodyDescriptor := resolveBodyDescriptor(body, methodDescriptor);
      if bodyDescriptor.Failure? {
        return Failed(BodyDescriptorError(bodyDescriptor.error), [outputType]);
      }
      if bodyDescriptor.value.descriptor.None? {
        return Described(description, [outputType]);
      }
      var bodyType := bodyDescriptor.value.descriptor.value;
      AddSchemaGeneratorOverride(bodyType);
      WithOverridesShort(old(swaggerGeneratorOptions.customTypeMappings), bodyType, bodyType);
      var apiDescription := description.(parameters := description.parameters + [BodyParameter(bodyType)]);
      outcome := Described(apiDescription, [outputType, bodyType]);
    }
  }
}
