/**
 * The three adapters side by side: for the same request headers and the same
 * configuration they reach the same decision, reject with the same status and
 * body, and continue the pipeline in exactly the same cases.
 */
module CrossVariant {

  import opened Wrappers
  import opened CaseInsensitive
  import opened Http
  import opened Config
  import opened ApiKeyCheck
  import AuthConstants
  import opened UnauthorizedResult
  import AuthorizationFilter
  import Middleware
  import EndpointFilter

  /**
   * On a rejection, the MVC result the filter sets, the response the
   * middleware writes, and the response written when the endpoint filter's
   * substitute result executes all carry status 401 and the same message.
   */
  lemma RejectionsAgree<R>(headers: CaseInsensitiveMap, configured: Option<string>,
                           nextValue: R, prior: seq<ResponseEvent>)
    requires Decide(headers, configured).IsRejection()
    ensures var o := Decide(headers, configured);
            var mvc := AuthorizationFilter.ResultAfter(o, None);
            var returned := EndpointFilter.ReturnFor(o, nextValue);
            && mvc.Some? && returned.Substitute?
            && mvc.value.StatusCode() == Status401Unauthorized
            && StatusOf(prior + Middleware.WritesFor(o)) == Status401Unauthorized
            && StatusOf(prior + returned.result.Writes()) == Status401Unauthorized
            && BodyOf(prior + Middleware.WritesFor(o)) == BodyOf(prior) + mvc.value.value
            && BodyOf(prior + returned.result.Writes()) == BodyOf(prior) + mvc.value.value
  {
    var o := Decide(headers, configured);
    AuthorizationFilter.ResultAfterMeaning(o, None);
    StatusThenWrite(prior, 401, Message(o));
    var returned := EndpointFilter.ReturnFor(o, nextValue);
    UnauthorizedResult.WritesMeaning(returned.result, prior);
  }

  /**
   * The filter leaves `context.Result` unset and returns normally, the
   * middleware invokes its next stage once, and the endpoint filter invokes
   * `next` once and returns its value, each exactly when the decision is
   * Allow; otherwise neither continuation is invoked at all.
   */
  lemma ContinueExactlyWhenAllowed<R>(headers: CaseInsensitiveMap, configured: Option<string>,
                                      context: EndpointFilter.EndpointFilterInvocationContext,
                                      nextValue: R)
    ensures var o := Decide(headers, configured);
            && ((AuthorizationFilter.ResultAfter(o, None) == None &&
                 CompletionOf(o) == Returned) <==> o == Allow)
            && (Middleware.CallsFor(o, context.httpContext) == [context.httpContext] <==> o == Allow)
            && (Middleware.CallsFor(o, context.httpContext) == [] <==> o != Allow)
            && (EndpointFilter.CallsFor(o, context) == [context] <==> o == Allow)
            && (EndpointFilter.CallsFor(o, context) == [] <==> o != Allow)
            && (EndpointFilter.ReturnFor(o, nextValue) == EndpointFilter.FromNext(nextValue) <==> o == Allow)
  {
    var o := Decide(headers, configured);
    AuthorizationFilter.ResultAfterMeaning(o, None);
    EndpointFilter.ReturnForMeaning(o, nextValue, context);
  }

  /**
   * Clients of the middleware: three end-to-end requests against the
   * configured key "secret123". The right key reaches the next stage and
   * nothing is written.
   */
  method MiddlewareRightKey()
  {
    var name, section := AuthConstants.ApiKeyHeaderName, AuthConstants.ApiKeySectionName;
    assert NameEquals(name, name) && NameEquals(section, section);
    var configuration := new Configuration(map[section := "secret123"]);
    var next := new RequestDelegate();
    var middleware := new Middleware.ApiKeyAuthMiddleware(next, configuration);
    var response := new HttpResponse();
    var context := new HttpContext(HttpRequest(map[name := "secret123"]), response);
    assert configuration.GetValue(section) == Some("secret123");
    assert TryGetValue(context.request.headers, name) == Some("secret123");
    var c := middleware.InvokeAsync(context);
    assert next.invocations == [context] && response.events == [] && c == Returned;
  }

  /** No header: 401 with the missing-key body, and the next stage is not reached. */
  method MiddlewareNoKey()
  {
    var configuration := new Configuration(map[AuthConstants.ApiKeySectionName := "secret123"]);
    var next := new RequestDelegate();
    var middleware := new Middleware.ApiKeyAuthMiddleware(next, configuration);
    var response := new HttpResponse();
    var context := new HttpContext(HttpRequest(map[]), response);
    var c := middleware.InvokeAsync(context);
    assert response.events == [StatusSet(401), BodyWritten("Api Key missing")];
    assert next.invocations == [] && c == Returned;
  }

  /** A wrong key: 401 with the invalid-key body, and the next stage is not reached. */
  method MiddlewareWrongKey()
  {
    var name, section := AuthConstants.ApiKeyHeaderName, AuthConstants.ApiKeySectionName;
    assert NameEquals(name, name) && NameEquals(section, section);
    var configuration := new Configuration(map[section := "secret123"]);
    var next := new RequestDelegate();
    var middleware := new Middleware.ApiKeyAuthMiddleware(next, configuration);
    var response := new HttpResponse();
    var context := new HttpContext(HttpRequest(map[name := "wrong"]), response);
    assert configuration.GetValue(section) == Some("secret123");
    assert TryGetValue(context.request.headers, name) == Some("wrong");
    var c := middleware.InvokeAsync(context);
    assert response.events == [StatusSet(401), BodyWritten("INvalid API Key")];
    assert next.invocations == [] && c == Returned;
  }

  /**
   * A client of the authorization filter: rotating the configured key between
   * two requests changes the answer, because the key is read when the filter
   * runs and not when it is built.
   */
  method KeyRotationTakesEffect()
  {
    var name, section := AuthConstants.ApiKeyHeaderName, AuthConstants.ApiKeySectionName;
    assert NameEquals(name, name) && NameEquals(section, section);
    var configuration := new Configuration(map[section := "secret123"]);
    var filter := new AuthorizationFilter.ApiKeyAuthFilter(configuration);
    var response := new HttpResponse();
    var request := new HttpContext(HttpRequest(map[name := "secret123"]), response);

    var first := new AuthorizationFilter.AuthorizationFilterContext(request);
    var c := filter.OnAuthorization(first);
    assert first.result == None && c == Returned;

    configuration.data := map[section := "rotated"];
    var second := new AuthorizationFilter.AuthorizationFilterContext(request);
    c := filter.OnAuthorization(second);
    assert second.result == Some(AuthorizationFilter.UnauthorizedObjectResult("INvalid API Key"));
  }

  /**
   * A client of the endpoint filter: with no key configured, a request that
   * carries a key makes the comparison dereference null, so the filter throws
   * rather than answering 401, and the handler is never invoked.
   */
  method NullConfiguredKeyThrows()
  {
    var name := AuthConstants.ApiKeyHeaderName;
    assert NameEquals(name, name);
    var configuration := new Configuration(map[]);
    var filter := new EndpointFilter.ApiKeyEndpointFilter(configuration);
    var response := new HttpResponse();
    var request := new HttpContext(HttpRequest(map[name := "anything"]), response);
    var handler := new EndpointFilter.EndpointFilterDelegate((_: EndpointFilter.EndpointFilterInvocationContext) => 200);
    var r := filter.InvokeAsync(EndpointFilter.EndpointFilterInvocationContext(request), handler);
    assert r == EndpointFilter.Faulted(NullReferenceException) && handler.invocations == [];
  }
}
