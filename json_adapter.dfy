/** The status-code table of the JSON adapter. */
module JsonAdapter {
  import opened Config
  import WebAdapter

  /** Every HTTP code the JSON adapter can answer with. */
  const JsonCodes: set<int> := {200, 400, 401, 403, 404, 413, 429, 500, 501}

  /** `_map_response_status` of the JSON adapter, which has no branch for CREATED, NO_CONTENT or NOT_ALLOWED. */
  function MapStatus(s: ResponseStatus): (code: int)
    ensures code in JsonCodes
    ensures code == 500 <==> s in {InternalServerError, Created, NoContent, NotAllowed} || s.Value() >= 12
  {
    match s
    case Ok => 200
    case BadRequest => 400
    case Forbidden => 403
    case InternalServerError => 500
    case NotFound => 404
    case NotImplemented => 501
    case PayloadTooLarge => 413
    case TooManyRequests => 429
    case Unauthorized => 401
    case _ => 500
  }

  /** The two tables agree except on the three statuses the JSON table has no branch for. */
  lemma AgreesWithWeb(s: ResponseStatus)
    ensures s !in {Created, NoContent, NotAllowed} ==> MapStatus(s) == WebAdapter.MapStatus(s)
    ensures s in {Created, NoContent, NotAllowed} ==> MapStatus(s) == 500 != WebAdapter.MapStatus(s)
  {
  }
}
