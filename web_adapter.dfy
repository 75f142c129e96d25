/**
 * The decision logic of the HTML adapter: the status-code table, the error-page
 * handlers, and the query-argument parsing of `make_entry` and
 * `make_chat_completion`.  Rendering templates and Flask itself are left out.
 */
module WebAdapter {
  import opened Wrappers
  import opened Config
  import PyText

  /** Every HTTP code the HTML adapter can answer with. */
  const WebCodes: set<int> := {200, 201, 204, 400, 401, 403, 404, 405, 413, 429, 500, 501}

  /** `_map_response_status`: a service status to an HTTP status code. */
  function MapStatus(s: ResponseStatus): (code: int)
    ensures code in WebCodes
    ensures code == 500 <==> s == InternalServerError || s.Value() >= 12
    ensures code < 300 <==> s in {Ok, Created, NoContent}
  {
    match s
    case Ok => 200
    case BadRequest => 400
    case Created => 201
    case Forbidden => 403
    case InternalServerError => 500
    case NoContent => 204
    case NotAllowed => 405
    case NotFound => 404
    case NotImplemented => 501
    case PayloadTooLarge => 413
    case TooManyRequests => 429
    case Unauthorized => 401
    case _ => 500
  }

  /** The twelve generic statuses get twelve different HTTP codes. */
  lemma MapStatusGenericInjective(a: ResponseStatus, b: ResponseStatus)
    requires a.Value() <= 11 && b.Value() <= 11
    ensures MapStatus(a) == MapStatus(b) <==> a == b
  {
    StatusValuesDistinct(a, b);
  }

  /**
   * `_map_response_status` applied to a plain integer: the IntEnum comparisons
   * succeed only for the integer value of a member, otherwise 500.
   */
  function MapCode(n: int): (code: int)
    ensures code in WebCodes
    ensures !(0 <= n <= 11) ==> code == 500
    ensures forall s: ResponseStatus :: s.Value() == n ==> code == MapStatus(s)
  {
    match StatusOf(n)
    case Some(s) =>
      assert forall t: ResponseStatus :: t.Value() == n ==> t == s by {
        forall t: ResponseStatus | t.Value() == n ensures t == s {
          StatusValuesDistinct(t, s);
        }
      }
      MapStatus(s)
    case None => 500
  }

  /** The `description` an aborted request carries into an error handler. */
  datatype Description =
    | DictError(code: int, message: string)   // the service's error dictionary
    | TextError(message: string)              // any other description, such as Flask's own

  /** The six registered error handlers and the HTTP code each one is written for. */
  datatype Handler = BadRequestPage | ForbiddenPage | NotAllowedPage | NotFoundPage | UnauthorizedPage | InternalServerPage
  {
    function Literal(): int
    {
      match this
      case BadRequestPage => 400
      case ForbiddenPage => 403
      case NotAllowedPage => 405
      case NotFoundPage => 404
      case UnauthorizedPage => 401
      case InternalServerPage => 500
    }
  }

  /** The rendered error page: the status it is served with and the message it shows. */
  datatype ErrorPage = ErrorPage(status: int, message: string)

  /**
   * An `error_*` handler as written: a text description makes the handler pass
   * its own literal HTTP code to `_map_response_status`, which compares it with
   * the service statuses 0..21 and so always falls through to 500.
   */
  function HandleAsWritten(h: Handler, d: Description): (page: ErrorPage)
    ensures page.message == d.message
    ensures d.TextError? ==> page.status == 500
    ensures d.DictError? ==> page.status == MapCode(d.code)
  {
    var code := if d.DictError? then d.code else h.Literal();
    ErrorPage(MapCode(code), d.message)
  }

  /** Every handler but the 500 one serves a text description with the wrong status. */
  lemma HandlerLosesLiteral(h: Handler, message: string)
    ensures HandleAsWritten(h, TextError(message)).status == 500
    ensures h != InternalServerPage ==> HandleAsWritten(h, TextError(message)).status != h.Literal()
  {
  }

  /** The handler as evidently intended: a text description is served with the handler's own code. */
  function Handle(h: Handler, d: Description): (page: ErrorPage)
    ensures page.message == d.message
    ensures d.TextError? ==> page.status == h.Literal()
    ensures d.DictError? ==> page == HandleAsWritten(h, d)
  {
    if d.DictError? then ErrorPage(MapCode(d.code), d.message) else ErrorPage(h.Literal(), d.message)
  }

  /** The `reset` query argument of `make_chat_completion`: only the text "0" keeps the history. */
  function ParseReset(raw: Option<string>): (reset: bool)
    ensures !reset <==> raw == Some("0")
    ensures raw.None? ==> reset
  {
    !(raw.Some? && raw.value == "0")
  }

  /**
   * The `proficiency` query argument of `make_entry`: an absent or empty value,
   * a failed `int()` or a value outside 1..3 all fall back to INTERMEDIATE.
   */
  function ParseProficiency(raw: Option<string>): (p: Proficiency)
    ensures raw.Some? && PyText.ParseInt(raw.value).Some? && 1 <= PyText.ParseInt(raw.value).value <= 3 ==>
              p.Value() == PyText.ParseInt(raw.value).value
    ensures !(raw.Some? && PyText.ParseInt(raw.value).Some? && 1 <= PyText.ParseInt(raw.value).value <= 3) ==>
              p == Intermediate
  {
    if raw.None? || raw.value == [] then Intermediate
    else
      match PyText.ParseInt(raw.value)
      case None => Intermediate
      case Some(n) => ProficiencyOf(n).GetOr(Intermediate)
  }

  /** Every level survives being written out as its number and parsed back. */
  lemma ParseProficiencyRoundTrip(q: Proficiency)
    ensures ParseProficiency(Some(PyText.IntText(q.Value()))) == q
  {
    PyText.ParseIntText(q.Value());
    ProficiencyPromptsDistinct(q, ParseProficiency(Some(PyText.IntText(q.Value()))));
  }
}
