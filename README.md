# API-key gate for an ASP.NET Core pipeline, in Dafny

RestApiKeyAuthEDU guards HTTP endpoints with one shared secret. A client must
send it in the `X-Api-Key` request header. The expected value is read from
the configuration key `Authentication:ApiKey`. The same check is written
three times, once for each place it can be attached:

- `ApiKeyAuthFilter`, an MVC authorization filter: it rejects by setting
  `context.Result` to a 401 `UnauthorizedObjectResult`.
- `ApiKeyAuthMiddleware`, a pipeline-wide middleware: it rejects by writing
  status 401 and a body to the response, and otherwise calls the next stage.
- `ApiKeyEndpointFilter`, a minimal-API endpoint filter: it returns either
  an `UnauthorizedHttpObjectResult` or whatever the wrapped handler returns.

Each copy does the same steps in the same order:

1. Look up the header. If it is absent, reject with `"Api Key missing"`.
2. Read the configured key.
3. Compare it ordinally with the header value. If they differ, reject with
   `"INvalid API Key"`.
4. Otherwise continue.

## Layout

- `wrappers.dfy`, module `Wrappers`: `Option`.
- `case_insensitive.dfy`, module `CaseInsensitive`: string-keyed maps whose
  keys are matched ignoring ASCII case, and their `TryGetValue`. Request
  headers and configuration both use them.
- `http.dfy`, module `Http`:
  - the request, which holds only its headers;
  - the response, kept as the ordered list of its writes, with `StatusOf`
    and `BodyOf` giving its status and body;
  - `HttpContext`;
  - the next pipeline stage, `RequestDelegate`, which records each call
    (the endpoint filter's handler, `EndpointFilterDelegate`, is recorded
    the same way);
  - the exceptions the core can raise.
- `config.dfy`, module `Config`: `IConfiguration` as a mutable object, read
  at the moment of each call.
- `auth_constants.dfy`, module `AuthConstants`: the four literals.
- `api_key_check.dfy`, module `ApiKeyCheck`: `Decide`, the check stated once.
  Every adapter is proved against it.
- `api_key_auth_filter.dfy`, `api_key_auth_middleware.dfy`,
  `api_key_endpoint_filter.dfy`, `unauthorized_http_object_result.dfy`:
  the four classes of the `Authentication` folder. Each adapter repeats the
  guards inline, as its source does.
- `cross_variant.dfy`, module `CrossVariant`: the three adapters agree. It
  also has client methods that work through three end-to-end requests, a
  key rotation and a missing configured key, using only the adapters'
  contracts.

Two details of the code that the model keeps as they are:

- The invalid-key body is `"INvalid API Key"`, with a capital N.
- The code has no branch for a missing configured key. `GetValue<string>`
  returns null, and `apiKey.Equals(...)` then throws
  `NullReferenceException`. The model turns this into the outcome
  `NullReference`. The filter and the middleware then end by throwing,
  having written nothing, and the endpoint filter returns `Faulted`. None
  of them answers 401 `Invalid`. A request without the header is still
  reported as missing, because the header is checked before the
  configuration is read.

`apiKey.Equals(extractedApiKey)` resolves to `string.Equals(string)`, through
the implicit conversion from `StringValues`. The comparison is therefore
exact and case-sensitive. The model compares the two strings with `==`.

## Model

| member | source | states |
|---|---|---|
| CaseInsensitive.TryGetValue | RestApiKeyAuthEDU/Authentication/ApiKeyAuthFilter.cs:19 | the lookup finds nothing exactly when no key matches the name ignoring case; otherwise it returns the value stored under the matching key |
| CaseInsensitive.TryGetValueIgnoresCase | RestApiKeyAuthEDU/Authentication/ApiKeyAuthMiddleware.cs:17 | looking up two spellings that differ only in case gives the same answer |
| AuthConstants.MessagesDistinct | RestApiKeyAuthEDU/Authentication/AuthConstants.cs:7-8 | the missing-key and invalid-key bodies differ |
| ApiKeyCheck.Decide | RestApiKeyAuthEDU/Authentication/ApiKeyAuthFilter.cs:19-35 | Missing iff no header matches `X-Api-Key`; NullReference iff the header is present and the configured key is null; Allow iff some matching header's value equals the configured key; Invalid iff it differs |
| ApiKeyCheck.MissingWhateverConfigured | RestApiKeyAuthEDU/Authentication/ApiKeyAuthFilter.cs:19-26 | without the header the outcome is Missing for every configuration, null included, since the header is checked first |
| ApiKeyCheck.AllowIffExactMatch | RestApiKeyAuthEDU/Authentication/ApiKeyAuthFilter.cs:26-31 | with the header present and a key configured, Allow iff the two strings are equal, and Invalid iff they are not |
| ApiKeyCheck.NullConfiguredNeverAllows | RestApiKeyAuthEDU/Authentication/ApiKeyAuthFilter.cs:26-27 | a null configured key never yields Allow or Invalid; it yields NullReference exactly when the header is present |
| ApiKeyCheck.HeaderNameIgnoresCase | RestApiKeyAuthEDU/Authentication/AuthConstants.cs:6 | under any spelling of `X-Api-Key` that differs only in case, the key is found, accepted iff it equals the configured key, and Invalid otherwise |
| ApiKeyCheck.HeaderNameSpellings | RestApiKeyAuthEDU/Authentication/ApiKeyAuthFilter.cs:19 | a key sent as `x-api-key` or `X-API-KEY` is found and accepted |
| ApiKeyCheck.ValueComparedExactly | RestApiKeyAuthEDU/Authentication/ApiKeyAuthFilter.cs:27 | a value that differs in case, has a trailing space, or is a prefix of the key is Invalid |
| Config.Configuration.GetValue | RestApiKeyAuthEDU/Authentication/ApiKeyAuthFilter.cs:26 | None (null in .NET) exactly when no key path matches ignoring case; otherwise the string stored under the matching key, as configured at the moment of the call |
| Http.BodyOfAppend | RestApiKeyAuthEDU/Authentication/ApiKeyAuthMiddleware.cs:20 | a write appends to the body and never rewrites earlier text |
| Http.StatusOfAfterSet | RestApiKeyAuthEDU/Authentication/UnauthorizedHttpObjectResult.cs:24-27 | body writes after a status assignment leave that status in place |
| Http.StatusThenWrite | RestApiKeyAuthEDU/Authentication/ApiKeyAuthMiddleware.cs:19-20 | setting a status and then writing a text leaves the response with that status and with that text appended |
| Http.HttpResponse.SetStatusCode | RestApiKeyAuthEDU/Authentication/ApiKeyAuthMiddleware.cs:19 | records the status assignment; the status is then the new code |
| Http.HttpResponse.WriteAsync | RestApiKeyAuthEDU/Authentication/ApiKeyAuthMiddleware.cs:20 | records the write; the body gains the text and the status is unchanged |
| Http.RequestDelegate.Invoke | RestApiKeyAuthEDU/Authentication/ApiKeyAuthMiddleware.cs:33 | each call to the next stage is recorded with its context |
| AuthorizationFilter.ResultAfterMeaning | RestApiKeyAuthEDU/Authentication/ApiKeyAuthFilter.cs:19-35 | on a rejection the filter's result is a 401 carrying that outcome's message; otherwise the result is left as it was |
| AuthorizationFilter.ApiKeyAuthFilter.constructor | RestApiKeyAuthEDU/Authentication/ApiKeyAuthFilter.cs:10-13 | only stores the configuration; no key is read |
| AuthorizationFilter.ApiKeyAuthFilter.OnAuthorization | RestApiKeyAuthEDU/Authentication/ApiKeyAuthFilter.cs:15-35 | `context.Result` becomes the result for `Decide` on the request headers and the key configured when the filter runs; the call throws only on a null key |
| Middleware.WritesForMeaning | RestApiKeyAuthEDU/Authentication/ApiKeyAuthMiddleware.cs:17-33 | a rejection leaves the response at 401 with its message appended and no next call; Allow makes one next call and writes nothing; a null key does neither and throws |
| Middleware.ExactlyOneOfRejectOrContinue | RestApiKeyAuthEDU/Authentication/ApiKeyAuthMiddleware.cs:17-33 | whenever the middleware returns normally it has either written a rejection or called the next stage, never both and never neither |
| Middleware.ApiKeyAuthMiddleware.constructor | RestApiKeyAuthEDU/Authentication/ApiKeyAuthMiddleware.cs:8-12 | stores the next stage and the configuration |
| Middleware.ApiKeyAuthMiddleware.InvokeAsync | RestApiKeyAuthEDU/Authentication/ApiKeyAuthMiddleware.cs:14-34 | the response gains exactly the writes for `Decide`'s outcome, the next stage gains exactly the calls for it, and the call throws only on a null key; the headers and the configuration are untouched |
| EndpointFilter.ApiKeyEndpointFilter.constructor | RestApiKeyAuthEDU/Authentication/ApiKeyEndpointFilter.cs:7-10 | only stores the configuration |
| EndpointFilter.EndpointFilterDelegate.Invoke | RestApiKeyAuthEDU/Authentication/ApiKeyEndpointFilter.cs:26 | each call to the handler is recorded with its context and returns the handler's value for it |
| EndpointFilter.ReturnForMeaning | RestApiKeyAuthEDU/Authentication/ApiKeyEndpointFilter.cs:14-26 | Allow returns exactly next's value after one invocation; a rejection returns a 401 result whose string body is the outcome's message and invokes nothing; a null key throws and invokes nothing |
| EndpointFilter.ApiKeyEndpointFilter.InvokeAsync | RestApiKeyAuthEDU/Authentication/ApiKeyEndpointFilter.cs:12-27 | the return value is the one for `Decide`'s outcome, and `next` gains exactly one invocation with this context when the outcome is Allow and none otherwise, so the handler never runs for a rejected request |
| UnauthorizedResult.StatusCodeIsUnauthorized | RestApiKeyAuthEDU/Authentication/UnauthorizedHttpObjectResult.cs:15-17 | both status views give 401 for every body |
| UnauthorizedResult.WritesMeaning | RestApiKeyAuthEDU/Authentication/UnauthorizedHttpObjectResult.cs:24-29 | executing the result leaves the response at 401 with the body appended, and a string body is appended as it is |
| UnauthorizedResult.UnauthorizedHttpObjectResult.ExecuteAsync | RestApiKeyAuthEDU/Authentication/UnauthorizedHttpObjectResult.cs:20-32 | a null context throws `ArgumentNullException` before any write; otherwise the status 401 is set first and then the body is written |
| CrossVariant.RejectionsAgree | RestApiKeyAuthEDU/Authentication/ApiKeyEndpointFilter.cs:14-24 | on a rejection, the filter's result, the middleware's response and the endpoint filter's executed result all give status 401 and the same body |
| CrossVariant.ContinueExactlyWhenAllowed | RestApiKeyAuthEDU/Authentication/ApiKeyEndpointFilter.cs:14-26 | the filter leaving the result unset, the middleware calling its next stage once, and the endpoint filter invoking `next` once and returning its value each happen exactly when the outcome is Allow; otherwise neither continuation is invoked |

## Left out

- Program.cs: startup wiring, Swagger setup and the demo endpoints. None of it makes a decision.
- Asynchrony (`Task`, `ValueTask`, `await`): each adapter is one sequential call.
- Multi-valued headers: a header holds one string. The comma-joining of `StringValues` is not modelled.
- Case-insensitive name matching folds ASCII letters only. .NET's `OrdinalIgnoreCase` also folds other Unicode letters.
- Configuration providers, sections and binding: the configuration is one case-insensitive map from key path to string.
- Response rules of the host: setting a status after the body has started, headers, and content types are not modelled.
- JSON serialization (`WriteAsJsonAsync`): a non-string body carries the JSON text it would be written as.
- Rendering of MVC's `UnauthorizedObjectResult`: it is an abstract "401 with this body".
- The work done by the next stage or the wrapped handler: the next stage and the handler record each call, and the handler's value is a function of the invocation context.
