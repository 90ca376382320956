/**
 * What a request handler leaves behind: the response it wrote, the failure
 * it reported to the router, or the hand-over to the index page. The
 * `RoutingContext` class is the mutable per-request object the handlers
 * drive step by step; `Outcome()` reads off what it ended with.
 */
module Web {
  import opened Wrappers

  /** A value put into the context's template data. */
  datatype Value = Text(text: string) | Number(number: int) | Flag(flag: bool)

  /** An entry of the `pages` array of `GET /api/pages`. */
  datatype PageSummary = PageSummary(id: int, name: string)

  /** The `page` object of `GET /api/pages/:id`. */
  datatype PageView = PageView(name: string, id: int, markdown: string, html: string)

  /** The JSON documents the API answers with. */
  datatype ApiBody =
    | Success
    | SuccessPages(pages: seq<PageSummary>)
    | SuccessPage(page: PageView)
    | Error(error: string)

  /** The claims of an API token; an absent claim is `None`. */
  datatype Claims = Claims(username: Option<string>, canCreate: Option<bool>, canDelete: Option<bool>, canUpdate: Option<bool>)

  /** The signing options of an API token. */
  datatype JwtOptions = JwtOptions(subject: string, issuer: string)

  /** A response body: nothing, JSON, an HTML page, or the token signed for the given claims. */
  datatype Body =
    | NoBody
    | JsonBody(json: ApiBody)
    | HtmlBody(html: string)
    | TokenBody(claims: Claims, options: JwtOptions)

  /** The throwables a handler reports with `context.fail(t)`. */
  datatype Fault =
    | StoreFault(message: string)
    | NumberFormat(input: Option<string>)
    | Unauthorized(authority: string)
    | AuthorizationFault(message: string)
    | TemplateFault(message: string)
    | ClientFault(message: string)
    | MalformedBody

  /** `context.fail(statusCode)` or `context.fail(throwable)`. */
  datatype Cause = Status(code: int) | Thrown(fault: Fault)

  /** How a request ends. */
  datatype Outcome =
    | Responded(status: int, headers: map<string, string>, body: Body)
    | RoutingFailed(cause: Cause)
    | ToIndex(data: map<string, Value>)
    | Unanswered(status: int)

  const JsonHeaders: map<string, string> := map["Content-Type" := "application/json"]
  const HtmlHeaders: map<string, string> := map["Content-Type" := "text/html"]
  const TextHeaders: map<string, string> := map["Content-Type" := "text/plain"]

  /** A JSON answer. */
  function Json(status: int, json: ApiBody): Outcome {
    Responded(status, JsonHeaders, JsonBody(json))
  }

  /** A `303 See Other` redirect. */
  function SeeOther(location: string): Outcome {
    Responded(303, map["Location" := location], NoBody)
  }

  /** An HTML page with the default status. */
  function Html(html: string): Outcome {
    Responded(200, HtmlHeaders, HtmlBody(html))
  }

  /** The request's context and its response. */
  class RoutingContext {
    var status: int
    var headers: map<string, string>
    var body: Body
    var ended: bool
    var failure: Option<Cause>
    var data: map<string, Value>
    var forwarded: bool

    /** A context as the router hands it to a handler. */
    ghost predicate Pristine()
      reads this
    {
      status == 200 && headers == map[] && body == NoBody && !ended && failure.None? && data == map[] && !forwarded
    }

    /** Nothing has ended the request yet. */
    predicate Open()
      reads this
    {
      !ended && failure.None? && !forwarded
    }

    constructor ()
      ensures Pristine()
    {
      status := 200;
      headers := map[];
      body := NoBody;
      ended := false;
      failure := None;
      data := map[];
      forwarded := false;
    }

    function Outcome(): Outcome
      reads this
    {
      if failure.Some? then RoutingFailed(failure.value)
      else if ended then Responded(status, headers, body)
      else if forwarded then ToIndex(data)
      else Unanswered(status)
    }

    /** `response().setStatusCode(code)`. */
    method SetStatusCode(code: int)
      requires Open()
      modifies this`status
      ensures status == code
    {
      status := code;
    }

    /** `response().putHeader(name, value)`. */
    method PutHeader(name: string, value: string)
      requires Open()
      modifies this`headers
      ensures headers == old(headers)[name := value]
    {
      headers := headers[name := value];
    }

    /** `response().end(...)`. */
    method End(b: Body)
      requires Open()
      modifies this`body, this`ended
      ensures body == b && ended
    {
      body := b;
      ended := true;
    }

    /** `context.fail(...)`. */
    method Fail(cause: Cause)
      requires Open()
      modifies this`failure
      ensures failure == Some(cause)
    {
      failure := Some(cause);
    }

    /** `context.put(key, value)`. */
    method Put(key: string, value: Value)
      requires Open()
      modifies this`data
      ensures data == old(data)[key := value]
    {
      data := data[key := value];
    }

    /** Hands the request on to the index page handler. */
    method ForwardToIndex()
      requires Open()
      modifies this`forwarded
      ensures forwarded
    {
      forwarded := true;
    }
  }

  /** Sets the status and the JSON content type, then ends the response with `json`. */
  method SendJson(ctx: RoutingContext, status: int, json: ApiBody)
    requires ctx.Pristine()
    modifies ctx
    ensures ctx.Outcome() == Json(status, json)
  {
    ctx.SetStatusCode(status);
    ctx.PutHeader("Content-Type", "application/json");
    ctx.End(JsonBody(json));
  }

  /** Answers `303` with the given location. */
  method Redirect(ctx: RoutingContext, location: string)
    requires ctx.Pristine()
    modifies ctx
    ensures ctx.Outcome() == SeeOther(location)
  {
    ctx.SetStatusCode(303);
    ctx.PutHeader("Location", location);
    ctx.End(NoBody);
  }

  /** Puts the HTML content type and ends the response with the rendered page. */
  method SendHtml(ctx: RoutingContext, html: string)
    requires ctx.Open() && ctx.status == 200 && ctx.headers == map[]
    modifies ctx
    ensures ctx.Outcome() == Html(html)
  {
    ctx.PutHeader("Content-Type", "text/html");
    ctx.End(HtmlBody(html));
  }
}
