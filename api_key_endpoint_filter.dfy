/**
 * `ApiKeyEndpointFilter`, the minimal-API endpoint filter: it either returns
 * a new 401 result without running the wrapped handler `next`, or runs `next`
 * once and returns what it returns.
 */
module EndpointFilter {

  import opened Wrappers
  import opened CaseInsensitive
  import opened Http
  import opened Config
  import opened ApiKeyCheck
  import opened UnauthorizedResult
  import AuthConstants

  datatype EndpointFilterInvocationContext = EndpointFilterInvocationContext(httpContext: HttpContext)

  /**
   * What `InvokeAsync` returns: the value of `next(context)`, a substitute 401
   * result, or the exception it throws.
   */
  datatype FilterReturn<R> =
    | FromNext(value: R)
    | Substitute(result: UnauthorizedHttpObjectResult)
    | Faulted(error: Exception)

  /**
   * `EndpointFilterDelegate`: the wrapped handler. What it computes is the
   * function `result`; the model records each context it is invoked with.
   */
  class EndpointFilterDelegate<R> {
    const result: EndpointFilterInvocationContext -> R
    var invocations: seq<EndpointFilterInvocationContext>

    constructor (result: EndpointFilterInvocationContext -> R)
      ensures this.result == result && invocations == []
    {
      this.result := result;
      invocations := [];
    }

    method Invoke(context: EndpointFilterInvocationContext) returns (v: R)
      modifies this
      ensures invocations == old(invocations) + [context]
      ensures v == result(context)
    {
      invocations := invocations + [context];
      v := result(context);
    }
  }

  /** What the filter returns for an outcome, given the value `next` would produce. */
  function ReturnFor<R>(o: Outcome, nextValue: R): FilterReturn<R>
  {
    match o
    case Allow => FromNext(nextValue)
    case Missing => Substitute(UnauthorizedHttpObjectResult(Text(AuthConstants.ApiKeyMissing)))
    case Invalid => Substitute(UnauthorizedHttpObjectResult(Text(AuthConstants.ApiKeyInvalid)))
    case NullReference => Faulted(NullReferenceException)
  }

  /** The invocations of `next` the filter makes for an outcome. */
  function CallsFor(o: Outcome, context: EndpointFilterInvocationContext): seq<EndpointFilterInvocationContext>
  {
    if o == Allow then [context] else []
  }

  /**
   * Allow returns exactly `next`'s value after one invocation; a rejection
   * returns a 401 result whose string body is the outcome's message and
   * invokes nothing; a null configured key throws and invokes nothing.
   */
  lemma ReturnForMeaning<R>(o: Outcome, nextValue: R, context: EndpointFilterInvocationContext)
    ensures ReturnFor(o, nextValue).FromNext? <==> o == Allow
    ensures o == Allow ==> ReturnFor(o, nextValue) == FromNext(nextValue) && CallsFor(o, context) == [context]
    ensures o.IsRejection() ==>
      ReturnFor(o, nextValue) == Substitute(UnauthorizedHttpObjectResult(Text(Message(o)))) &&
      ReturnFor(o, nextValue).result.StatusCode() == Status401Unauthorized &&
      CallsFor(o, context) == []
    ensures o == NullReference ==> ReturnFor(o, nextValue).Faulted? && CallsFor(o, context) == []
  {
  }

  class ApiKeyEndpointFilter {
    const configuration: Configuration

    /** Only stores the configuration; the key is read on every call. */
    constructor (configuration: Configuration)
      ensures this.configuration == configuration
    {
      this.configuration := configuration;
    }

    method InvokeAsync<R>(context: EndpointFilterInvocationContext, next: EndpointFilterDelegate<R>)
      returns (r: FilterReturn<R>)
      modifies next
      ensures var o := Decide(context.httpContext.request.headers,
                              configuration.GetValue(AuthConstants.ApiKeySectionName));
              && r == ReturnFor(o, next.result(context))
              && next.invocations == old(next.invocations) + CallsFor(o, context)
    {
      var extractedApiKey := TryGetValue(context.httpContext.request.headers, AuthConstants.ApiKeyHeaderName);
      if extractedApiKey.None? {
        return Substitute(UnauthorizedHttpObjectResult(Text(AuthConstants.ApiKeyMissing)));
      }

      var apiKey := configuration.GetValue(AuthConstants.ApiKeySectionName);
      if apiKey.None? {
        return Faulted(NullReferenceException);
      }
      if apiKey.value != extractedApiKey.value {
        return Substitute(UnauthorizedHttpObjectResult(Text(AuthConstants.ApiKeyInvalid)));
      }

      var v := next.Invoke(context);
      return FromNext(v);
    }
  }
}
