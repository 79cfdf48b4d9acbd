/**
 * `ApiKeyAuthMiddleware`, the pipeline-wide stage: it rejects a request by
 * writing a 401 and its body to the response, and lets it through by
 * invoking the next stage once.
 */
module Middleware {

  import opened Wrappers
  import opened CaseInsensitive
  import opened Http
  import opened Config
  import opened ApiKeyCheck
  import AuthConstants

  /** The writes the middleware itself makes to the response for an outcome. */
  function WritesFor(o: Outcome): seq<ResponseEvent>
  {
    match o
    case Missing => [StatusSet(401), BodyWritten(AuthConstants.ApiKeyMissing)]
    case Invalid => [StatusSet(401), BodyWritten(AuthConstants.ApiKeyInvalid)]
    case _ => []
  }

  /** The invocations of the next stage the middleware makes for an outcome. */
  function CallsFor(o: Outcome, context: HttpContext): seq<HttpContext>
  {
    if o == Allow then [context] else []
  }

  /**
   * A rejection leaves the response at 401 with its message appended and does
   * not continue; Allow continues exactly once and writes nothing; a null
   * configured key throws having done neither.
   */
  lemma WritesForMeaning(o: Outcome, before: seq<ResponseEvent>, context: HttpContext)
    ensures o.IsRejection() ==>
      StatusOf(before + WritesFor(o)) == Status401Unauthorized &&
      BodyOf(before + WritesFor(o)) == BodyOf(before) + Message(o) &&
      CallsFor(o, context) == []
    ensures o == Allow ==> WritesFor(o) == [] && CallsFor(o, context) == [context]
    ensures o == NullReference ==> WritesFor(o) == [] && CallsFor(o, context) == [] && CompletionOf(o).Threw?
  {
    if o.IsRejection() {
      StatusThenWrite(before, 401, Message(o));
    }
  }

  /** Whenever the middleware returns normally, it either rejects or continues, never both and never neither. */
  lemma ExactlyOneOfRejectOrContinue(o: Outcome, context: HttpContext)
    requires CompletionOf(o) == Returned
    ensures (WritesFor(o) != []) != (CallsFor(o, context) == [context])
  {
  }

  class ApiKeyAuthMiddleware {
    const next: RequestDelegate
    const configuration: Configuration

    constructor (next: RequestDelegate, configuration: Configuration)
      ensures this.next == next && this.configuration == configuration
    {
      this.next := next;
      this.configuration := configuration;
    }

    method InvokeAsync(context: HttpContext) returns (c: Completion)
      modifies context.response, next
      ensures var o := Decide(context.request.headers,
                              configuration.GetValue(AuthConstants.ApiKeySectionName));
              && context.response.events == old(context.response.events) + WritesFor(o)
              && next.invocations == old(next.invocations) + CallsFor(o, context)
              && c == CompletionOf(o)
    {
      var extractedApiKey := TryGetValue(context.request.headers, AuthConstants.ApiKeyHeaderName);
      if extractedApiKey.None? {
        context.response.SetStatusCode(401);
        context.response.WriteAsync(AuthConstants.ApiKeyMissing);
        return Returned;
      }

      var apiKey := configuration.GetValue(AuthConstants.ApiKeySectionName);
      if apiKey.None? {
        return Threw(NullReferenceException);
      }
      if apiKey.value != extractedApiKey.value {
        context.response.SetStatusCode(401);
        context.response.WriteAsync(AuthConstants.ApiKeyInvalid);
        return Returned;
      }

      next.Invoke(context);
      return Returned;
    }
  }
}
