/**
 * `UnauthorizedHttpObjectResult`, the terminal result the endpoint filter
 * returns: a 401 carrying a body fixed when the value is built.
 */
module UnauthorizedResult {

  import opened Wrappers
  import opened Http

  /**
   * The body: a string is written as it is; any other object is written as
   * JSON, carried here as the text the serializer produces for it.
   */
  datatype Body = Text(text: string) | Object(serialized: string)

  /** What `ExecuteAsync` appends to the body. */
  function Payload(body: Body): string
  {
    match body
    case Text(text) => text
    case Object(serialized) => serialized
  }

  datatype UnauthorizedHttpObjectResult = UnauthorizedHttpObjectResult(body: Body)
  {
    /** `StatusCode`: `StatusCodes.Status401Unauthorized`, whatever the body. */
    function StatusCode(): int
    {
      Status401Unauthorized
    }

    /** The `int?` view required by `IStatusCodeHttpResult`. */
    function NullableStatusCode(): Option<int>
    {
      Some(StatusCode())
    }

    /** The writes `ExecuteAsync` makes: the status first, then the body. */
    function Writes(): seq<ResponseEvent>
    {
      [StatusSet(StatusCode()), BodyWritten(Payload(body))]
    }

    /** `ExecuteAsync`: a null context is refused before anything is written. */
    method ExecuteAsync(httpContext: HttpContext?) returns (c: Completion)
      modifies if httpContext == null then {} else {httpContext.response}
      ensures httpContext == null ==> c == Threw(ArgumentNullException("httpContext"))
      ensures httpContext != null ==>
        c == Returned && httpContext.response.events == old(httpContext.response.events) + Writes()
    {
      if httpContext == null {
        return Threw(ArgumentNullException("httpContext"));
      }

      httpContext.response.SetStatusCode(StatusCode());
      if body.Text? {
        httpContext.response.WriteAsync(body.text);
        return Returned;
      }

      httpContext.response.WriteAsync(body.serialized);
      return Returned;
    }
  }

  /** Both status views give 401, for every body. */
  lemma StatusCodeIsUnauthorized(r: UnauthorizedHttpObjectResult)
    ensures r.StatusCode() == Status401Unauthorized
    ensures r.NullableStatusCode() == Some(r.StatusCode())
  {
  }

  /**
   * Executing the result leaves the response at 401 with the body appended;
   * a string body is appended as it is.
   */
  lemma WritesMeaning(r: UnauthorizedHttpObjectResult, before: seq<ResponseEvent>)
    ensures StatusOf(before + r.Writes()) == Status401Unauthorized
    ensures BodyOf(before + r.Writes()) == BodyOf(before) + Payload(r.body)
    ensures r.body.Text? ==> BodyOf(before + r.Writes()) == BodyOf(before) + r.body.text
  {
    StatusThenWrite(before, r.StatusCode(), Payload(r.body));
  }
}
