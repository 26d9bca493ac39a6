/** `HttpRuleHelpers`: resolving the pattern of an HTTP rule to a verb and a
    path template, and binding the parameters of a route template to chains
    of request-message fields. */
module HttpRuleHelpers {
  import opened Wrappers
  import opened Dictionaries
  import opened Descriptors
  import opened Sequences

  // ---------------------------------------------------------------------
  // TryResolvePattern
  // ---------------------------------------------------------------------

  /** The three outputs of `TryResolvePattern`: its boolean result and its
      two nullable out-parameters. */
  datatype PatternResolution = PatternResolution(found: bool, pattern: Option<string>, verb: Option<string>)

  /** The verbs of the five standard pattern cases. */
  predicate IsStandardVerb(verb: string) {
    verb == "GET" || verb == "PUT" || verb == "POST" || verb == "DELETE" || verb == "PATCH"
  }

  /** The verb and path template of a rule's pattern: each standard case
      gives its upper-case verb, a custom pattern its kind; `PatternFor` is
      the inverse (`ResolvePatternFor`, `PatternForResolution`). */
  function TryResolvePattern(http: HttpRule): (r: PatternResolution)
    ensures r.found <==> !http.pattern.PatternNotSet?
    ensures r.pattern.Some? <==> r.found
    ensures r.verb.Some? <==> r.found
    ensures r.found && !http.pattern.Custom? ==> IsStandardVerb(r.verb.value) && r.pattern == Some(http.pattern.path)
    ensures http.pattern.Custom? ==> r == PatternResolution(true, Some(http.pattern.custom.path), Some(http.pattern.custom.kind))
    ensures http.pattern.Get? ==> r.verb == Some("GET")
    ensures http.pattern.Put? ==> r.verb == Some("PUT")
    ensures http.pattern.Post? ==> r.verb == Some("POST")
    ensures http.pattern.Delete? ==> r.verb == Some("DELETE")
    ensures http.pattern.Patch? ==> r.verb == Some("PATCH")
  {
    match http.pattern
    case Get(path) => PatternResolution(true, Some(path), Some("GET"))
    case Put(path) => PatternResolution(true, Some(path), Some("PUT"))
    case Post(path) => PatternResolution(true, Some(path), Some("POST"))
    case Delete(path) => PatternResolution(true, Some(path), Some("DELETE"))
    case Patch(path) => PatternResolution(true, Some(path), Some("PATCH"))
    case Custom(custom) => PatternResolution(true, Some(custom.path), Some(custom.kind))
    case PatternNotSet => PatternResolution(false, None, None)
  }

  /** The pattern case a (verb, path template) pair is written as: one of the
      five standard cases for a standard verb, a custom pattern otherwise. */
  function PatternFor(verb: string, path: string): (p: Pattern)
    ensures !p.PatternNotSet?
    ensures p.Custom? <==> !IsStandardVerb(verb)
  {
    if verb == "GET" then Get(path)
    else if verb == "PUT" then Put(path)
    else if verb == "POST" then Post(path)
    else if verb == "DELETE" then Delete(path)
    else if verb == "PATCH" then Patch(path)
    else Custom(CustomHttpPattern(verb, path))
  }

  /** Every (verb, path template) pair is resolved back from the pattern it is
      written as, whatever the body. */
  lemma ResolvePatternFor(verb: string, path: string, body: string)
    ensures TryResolvePattern(HttpRule(PatternFor(verb, path), body))
         == PatternResolution(true, Some(path), Some(verb))
  {
  }

  /** Conversely, every set pattern is the one its resolution is written as,
      except for a custom pattern whose kind is a standard verb. */
  lemma PatternForResolution(http: HttpRule)
    requires !http.pattern.PatternNotSet?
    requires http.pattern.Custom? ==> !IsStandardVerb(http.pattern.custom.kind)
    ensures var r := TryResolvePattern(http);
            PatternFor(r.verb.value, r.pattern.value) == http.pattern
  {
  }

  /** The custom kind is not checked against the standard verbs: a custom
      pattern of kind "GET" resolves exactly like a `get` pattern. */
  lemma CustomKindNotValidated(path: string, body: string)
    ensures TryResolvePattern(HttpRule(Custom(CustomHttpPattern("GET", path)), body))
         == TryResolvePattern(HttpRule(Get(path), body))
  {
  }

  // ---------------------------------------------------------------------
  // ResolveRouteParameterDescriptors
  // ---------------------------------------------------------------------

  /** `ServiceDescriptorHelpers.TryResolveDescriptors`: resolves a dotted field
      path against a message to the chain of fields it names, or fails. Its
      definition is not part of this model; a successful resolution is a
      non-empty chain. */
  type FieldPathResolver = f: (MessageDescriptor, string) -> Option<seq<FieldDescriptor>>
    | forall m, p :: f(m, p).Some? ==> f(m, p).value != []
    witness (m: MessageDescriptor, p: string) => None

  /** What resolving route parameters throws. */
  datatype Error =
      /** The InvalidOperationException for a parameter with no matching field. */
    | RouteParameterNotFound(parameterName: string, messageName: string)
      /** The ArgumentException of `Dictionary.Add` for a repeated parameter. */
    | DuplicateRouteParameter(parameterName: string)
  {
    function Message(): string {
      match this
      case RouteParameterNotFound(p, m) =>
        "Couldn't find matching field for route parameter '" + p + "' on " + m + "."
      case DuplicateRouteParameter(p) =>
        "An item with the same key has already been added. Key: " + p
    }
  }

  /** `part` occurs in `s` at index `i`. */
  predicate OccursAt(s: string, part: string, i: int) {
    0 <= i <= |s| - |part| && s[i..i + |part|] == part
  }

  /** `part` occurs in `s`. */
  predicate Contains(s: string, part: string) {
    exists i | 0 <= i <= |s| - |part| :: OccursAt(s, part, i)
  }

  /** The not-found message names the parameter and the message type. */
  lemma RouteParameterNotFoundMessage(parameterName: string, messageName: string)
    ensures Contains(RouteParameterNotFound(parameterName, messageName).Message(), parameterName)
    ensures Contains(RouteParameterNotFound(parameterName, messageName).Message(), messageName)
  {
    var head := "Couldn't find matching field for route parameter '";
    var middle := "' on ";
    var message := RouteParameterNotFound(parameterName, messageName).Message();
    assert message == head + parameterName + middle + messageName + ".";
    assert OccursAt(message, parameterName, |head|);
    assert OccursAt(message, messageName, |head| + |parameterName| + |middle|);
  }

  /** The parameters `names[..k]` all resolve and none repeats an earlier one. */
  ghost predicate BindableUpTo(names: seq<string>, message: MessageDescriptor, resolve: FieldPathResolver, k: int)
    requires 0 <= k <= |names|
  {
    forall i :: 0 <= i < k ==> resolve(message, names[i]).Some? && names[i] !in names[..i]
  }

  /** The error thrown at parameter `i` when the ones before it were bound. */
  function ErrorAt(names: seq<string>, message: MessageDescriptor, resolve: FieldPathResolver, i: int): Error
    requires 0 <= i < |names|
  {
    if resolve(message, names[i]).None? then RouteParameterNotFound(names[i], message.name)
    else DuplicateRouteParameter(names[i])
  }

  /** Parameter `i` is the first one that cannot be bound. */
  ghost predicate FirstUnbindable(names: seq<string>, message: MessageDescriptor, resolve: FieldPathResolver, i: int)
    requires 0 <= i < |names|
  {
    && BindableUpTo(names, message, resolve, i)
    && (resolve(message, names[i]).None? || names[i] in names[..i])
  }

  /** The route-parameter dictionary built from `names`, one parameter after
      the other, or the error the first unbindable parameter throws; its
      keys are the parameter names in template order, each bound to the
      chain the resolver gives for it. */
  function ResolveRouteParameters(names: seq<string>, message: MessageDescriptor, resolve: FieldPathResolver)
    : (r: Result<Dictionary<string, seq<FieldDescriptor>>, Error>)
    ensures r.Success? ==> r.value.Valid() && r.value.keys == names
    ensures r.Success? ==> forall n :: n in names ==>
              n in r.value.items && Some(r.value.items[n]) == resolve(message, n)
    decreases |names|
  {
    if names == [] then Success(Empty())
    else
      var init, last := names[..|names| - 1], names[|names| - 1];
      assert names == init + [last];
      match ResolveRouteParameters(init, message, resolve)
      case Failure(e) => Failure(e)
      case Success(d) =>
        match resolve(message, last)
        case None => Failure(RouteParameterNotFound(last, message.name))
        case Some(chain) =>
          match d.Add(last, chain)
          case None => Failure(DuplicateRouteParameter(last))
          case Some(d') => Success(d')
  }

  lemma BindableUpToInit(names: seq<string>, message: MessageDescriptor, resolve: FieldPathResolver, k: int)
    requires 0 <= k < |names|
    ensures BindableUpTo(names[..|names| - 1], message, resolve, k) <==> BindableUpTo(names, message, resolve, k)
  {
    assert forall i :: 0 <= i < k ==> names[..|names| - 1][..i] == names[..i];
  }

  lemma BindableUpToStep(names: seq<string>, message: MessageDescriptor, resolve: FieldPathResolver, k: int)
    requires 0 <= k < |names|
    ensures BindableUpTo(names, message, resolve, k + 1)
        <==> BindableUpTo(names, message, resolve, k) && resolve(message, names[k]).Some? && names[k] !in names[..k]
  {
  }

  /** Resolution succeeds exactly when every parameter resolves and no name
      is repeated. */
  lemma {:induction false} ResolveRouteParametersSucceeds(names: seq<string>, message: MessageDescriptor, resolve: FieldPathResolver)
    ensures ResolveRouteParameters(names, message, resolve).Success?
        <==> BindableUpTo(names, message, resolve, |names|)
  {
    if names != [] {
      var init := names[..|names| - 1];
      ResolveRouteParametersSucceeds(init, message, resolve);
      BindableUpToInit(names, message, resolve, |init|);
      BindableUpToStep(names, message, resolve, |init|);
    }
  }

  /** A failed resolution throws the error of the first parameter that does
      not resolve or repeats an earlier name; no partial dictionary escapes. */
  lemma {:induction false} ResolveRouteParametersFailure(names: seq<string>, message: MessageDescriptor, resolve: FieldPathResolver)
    requires ResolveRouteParameters(names, message, resolve).Failure?
    ensures exists i :: 0 <= i < |names| && FirstUnbindable(names, message, resolve, i)
                       && ResolveRouteParameters(names, message, resolve).error == ErrorAt(names, message, resolve, i)
  {
    var init, last := names[..|names| - 1], names[|names| - 1];
    assert names[..|init|] == init;
    if ResolveRouteParameters(init, message, resolve).Failure? {
      ResolveRouteParametersFailure(init, message, resolve);
      var i :| 0 <= i < |init| && FirstUnbindable(init, message, resolve, i)
               && ResolveRouteParameters(init, message, resolve).error == ErrorAt(init, message, resolve, i);
      BindableUpToInit(names, message, resolve, i);
      assert init[..i] == names[..i];
      assert FirstUnbindable(names, message, resolve, i);
    } else {
      ResolveRouteParametersSucceeds(init, message, resolve);
      BindableUpToInit(names, message, resolve, |init|);
      assert FirstUnbindable(names, message, resolve, |init|);
    }
  }

  /** Once a prefix of the parameters fails, the whole resolution fails with
      the same error: the first exception ends the loop. */
  lemma {:induction false} ResolveRouteParametersPrefixFailure(names: seq<string>, k: int, message: MessageDescriptor, resolve: FieldPathResolver)
    requires 0 <= k <= |names|
    requires ResolveRouteParameters(names[..k], message, resolve).Failure?
    ensures ResolveRouteParameters(names, message, resolve) == ResolveRouteParameters(names[..k], message, resolve)
    decreases |names|
  {
    if k == |names| {
      assert names[..k] == names;
    } else {
      var init := names[..|names| - 1];
      assert init[..k] == names[..k];
      ResolveRouteParametersPrefixFailure(init, k, message, resolve);
    }
  }

  /** The loop of the source: each parameter is resolved, and then added to
      the dictionary; the first failure throws. */
  method ResolveRouteParameterDescriptors(pattern: RoutePattern, messageDescriptor: MessageDescriptor, resolve: FieldPathResolver)
    returns (r: Result<Dictionary<string, seq<FieldDescriptor>>, Error>)
    ensures r == ResolveRouteParameters(pattern.parameterNames, messageDescriptor, resolve)
  {
    var names := pattern.parameterNames;
    var routeParameterDescriptors: Dictionary<string, seq<FieldDescriptor>> := Empty();
    for i := 0 to |names|
      invariant ResolveRouteParameters(names[..i], messageDescriptor, resolve) == Success(routeParameterDescriptors)
    {
      var name := names[i];
      var fieldDescriptors := resolve(messageDescriptor, name);
      if fieldDescriptors.None? {
        r := Failure(RouteParameterNotFound(name, messageDescriptor.name));
        assert ResolveRouteParameters(names[..i + 1], messageDescriptor, resolve) == r by {
          PrefixExtends(names, i);
        }
        ResolveRouteParametersPrefixFailure(names, i + 1, messageDescriptor, resolve);
        return;
      }
      var added := routeParameterDescriptors.Add(name, fieldDescriptors.value);
      if added.None? {
        r := Failure(DuplicateRouteParameter(name));
        assert ResolveRouteParameters(names[..i + 1], messageDescriptor, resolve) == r by {
          PrefixExtends(names, i);
        }
        ResolveRouteParametersPrefixFailure(names, i + 1, messageDescriptor, resolve);
        return;
      }
      routeParameterDescriptors := added.value;
      assert ResolveRouteParameters(names[..i + 1], messageDescriptor, resolve) == Success(routeParameterDescriptors) by {
        PrefixExtends(names, i);
      }
    }
    WholePrefix(names);
    r := Success(routeParameterDescriptors);
  }
}
