/**
 * The slice of the host's HTTP abstractions that the API-key check touches:
 * a request with its header dictionary, a response whose status and body are
 * written in order, the per-request context, the next pipeline stage, and the
 * exceptions the core can raise.
 */
module Http {

  import opened Wrappers
  import opened CaseInsensitive

  /** `StatusCodes.Status200OK`, a response's status until something sets it. */
  const Status200OK: int := 200
  /** `StatusCodes.Status401Unauthorized` (section 15.5.2 of RFC 9110). */
  const Status401Unauthorized: int := 401

  datatype Exception =
    | NullReferenceException
    | ArgumentNullException(paramName: string)

  /** How a call ends: normally, or by throwing. */
  datatype Completion = Returned | Threw(error: Exception)

  /** One write to a response, in the order the response receives them. */
  datatype ResponseEvent = StatusSet(code: int) | BodyWritten(text: string)

  /** The status a response carries after `events`: the last one set, else 200. */
  function StatusOf(events: seq<ResponseEvent>): int
  {
    if events == [] then Status200OK
    else match events[|events| - 1]
      case StatusSet(code) => code
      case BodyWritten(_) => StatusOf(events[..|events| - 1])
  }

  /** The body a response carries after `events`: every write, in order. */
  function BodyOf(events: seq<ResponseEvent>): string
  {
    if events == [] then ""
    else
      (match events[0]
         case StatusSet(_) => ""
         case BodyWritten(text) => text)
      + BodyOf(events[1..])
  }

  predicate OnlyWrites(events: seq<ResponseEvent>)
  {
    forall i :: 0 <= i < |events| ==> events[i].BodyWritten?
  }

  /** Writing more appends to the body and never rewrites what was written. */
  lemma {:induction false} BodyOfAppend(e: seq<ResponseEvent>, f: seq<ResponseEvent>)
    ensures BodyOf(e + f) == BodyOf(e) + BodyOf(f)
  {
    if e == [] {
      assert e + f == f;
    } else {
      assert (e + f)[0] == e[0];
      assert (e + f)[1..] == e[1..] + f;
      BodyOfAppend(e[1..], f);
    }
  }

  /** Body writes that follow a status leave that status in place. */
  lemma {:induction false} StatusOfAfterSet(e: seq<ResponseEvent>, code: int, f: seq<ResponseEvent>)
    requires OnlyWrites(f)
    ensures StatusOf(e + [StatusSet(code)] + f) == code
  {
    if f == [] {
      assert e + [StatusSet(code)] + f == e + [StatusSet(code)];
    } else {
      var g := e + [StatusSet(code)] + f;
      assert g[|g| - 1] == f[|f| - 1];
      assert g[..|g| - 1] == e + [StatusSet(code)] + f[..|f| - 1];
      StatusOfAfterSet(e, code, f[..|f| - 1]);
    }
  }

  /** Setting a status and then writing a text: the response carries that status and ends with that text. */
  lemma StatusThenWrite(before: seq<ResponseEvent>, code: int, text: string)
    ensures StatusOf(before + [StatusSet(code), BodyWritten(text)]) == code
    ensures BodyOf(before + [StatusSet(code), BodyWritten(text)]) == BodyOf(before) + text
  {
    var w := [BodyWritten(text)];
    assert before + [StatusSet(code), BodyWritten(text)] == before + [StatusSet(code)] + w;
    StatusOfAfterSet(before, code, w);
    BodyOfAppend(before, [StatusSet(code), BodyWritten(text)]);
    assert [StatusSet(code), BodyWritten(text)][1..] == w && w[1..] == [];
    assert BodyOf(w) == text + BodyOf([]);
  }

  /** The request as the core sees it: only its headers, which it never changes. */
  datatype HttpRequest = HttpRequest(headers: CaseInsensitiveMap)

  /** `HttpResponse`: the status and body written so far, kept as the writes themselves. */
  class HttpResponse {
    var events: seq<ResponseEvent>

    constructor ()
      ensures events == []
    {
      events := [];
    }

    function StatusCode(): int
      reads this
    {
      StatusOf(events)
    }

    function Body(): string
      reads this
    {
      BodyOf(events)
    }

    /** Assignment to `Response.StatusCode`. */
    method SetStatusCode(code: int)
      modifies this
      ensures events == old(events) + [StatusSet(code)]
      ensures StatusCode() == code
    {
      events := events + [StatusSet(code)];
    }

    /** `Response.WriteAsync(text)`: appends `text` to the body, status unchanged. */
    method WriteAsync(text: string)
      modifies this
      ensures events == old(events) + [BodyWritten(text)]
      ensures Body() == old(Body()) + text
      ensures StatusCode() == old(StatusCode())
    {
      BodyOfAppend(events, [BodyWritten(text)]);
      assert BodyOf([BodyWritten(text)]) == text + BodyOf([]);
      events := events + [BodyWritten(text)];
      assert events[..|events| - 1] == old(events);
    }
  }

  /** `HttpContext`: the request and its response, for one request. */
  class HttpContext {
    const request: HttpRequest
    const response: HttpResponse

    constructor (request: HttpRequest, response: HttpResponse)
      ensures this.request == request && this.response == response
    {
      this.request := request;
      this.response := response;
    }
  }

  /**
   * `RequestDelegate`: the rest of the pipeline. Its own effects lie outside
   * the core; the model records each context it is invoked with.
   */
  class RequestDelegate {
    var invocations: seq<HttpContext>

    constructor ()
      ensures invocations == []
    {
      invocations := [];
    }

    method Invoke(context: HttpContext)
      modifies this
      ensures invocations == old(invocations) + [context]
    {
      invocations := invocations + [context];
    }
  }
}
