/**
 * `ApiKeyAuthFilter`, the MVC authorization filter: it rejects a request by
 * assigning `context.Result` and lets it through by leaving that field alone.
 */
module AuthorizationFilter {

  import opened Wrappers
  import opened CaseInsensitive
  import opened Http
  import opened Config
  import opened ApiKeyCheck
  import AuthConstants

  /** MVC's `UnauthorizedObjectResult`, taken as an abstract "401 with this body". */
  datatype ActionResult = UnauthorizedObjectResult(value: string)
  {
    function StatusCode(): int
    {
      Status401Unauthorized
    }
  }

  /** `AuthorizationFilterContext`: the request's context and the short-circuit slot. */
  class AuthorizationFilterContext {
    const httpContext: HttpContext
    var result: Option<ActionResult>

    constructor (httpContext: HttpContext)
      ensures this.httpContext == httpContext && result == None
    {
      this.httpContext := httpContext;
      result := None;
    }
  }

  /** What `context.Result` holds after the filter, given its outcome and the value before. */
  function ResultAfter(o: Outcome, before: Option<ActionResult>): Option<ActionResult>
  {
    match o
    case Missing => Some(UnauthorizedObjectResult(AuthConstants.ApiKeyMissing))
    case Invalid => Some(UnauthorizedObjectResult(AuthConstants.ApiKeyInvalid))
    case _ => before
  }

  /** The filter rejects with a 401 carrying the outcome's message, and otherwise leaves the result as it was. */
  lemma ResultAfterMeaning(o: Outcome, before: Option<ActionResult>)
    ensures o.IsRejection() ==>
      ResultAfter(o, before).Some? &&
      ResultAfter(o, before).value.StatusCode() == Status401Unauthorized &&
      ResultAfter(o, before).value.value == Message(o)
    ensures !o.IsRejection() ==> ResultAfter(o, before) == before
  {
  }

  class ApiKeyAuthFilter {
    const configuration: Configuration

    /** Only stores the configuration; the key is read on every call. */
    constructor (configuration: Configuration)
      ensures this.configuration == configuration
    {
      this.configuration := configuration;
    }

    method OnAuthorization(context: AuthorizationFilterContext) returns (c: Completion)
      modifies context
      ensures var o := Decide(context.httpContext.request.headers,
                              configuration.GetValue(AuthConstants.ApiKeySectionName));
              context.result == ResultAfter(o, old(context.result)) && c == CompletionOf(o)
    {
      var extractedApiKey := TryGetValue(context.httpContext.request.headers, AuthConstants.ApiKeyHeaderName);
      if extractedApiKey.None? {
        context.result := Some(UnauthorizedObjectResult(AuthConstants.ApiKeyMissing));
        return Returned;
      }

      var apiKey := configuration.GetValue(AuthConstants.ApiKeySectionName);
      if apiKey.None? {
        return Threw(NullReferenceException);
      }
      if apiKey.value != extractedApiKey.value {
        context.result := Some(UnauthorizedObjectResult(AuthConstants.ApiKeyInvalid));
        return Returned;
      }

      return Returned;
    }
  }
}
