/** The HTTP status codes the route handlers answer with. */
module Http {

  datatype Status =
    | Ok                // 200
    | Created           // 201
    | BadRequest        // 400
    | Unauthorized      // 401
    | Forbidden         // 403
    | NotFound          // 404
    | Conflict          // 409
    | Gone              // 410
    | TooManyRequests   // 429
    | InternalError     // 500
  {
    function Code(): (c: int)
      ensures 200 <= c < 600
      ensures c < 300 <==> (this == Ok || this == Created)
    {
      match this
      case Ok => 200
      case Created => 201
      case BadRequest => 400
      case Unauthorized => 401
      case Forbidden => 403
      case NotFound => 404
      case Conflict => 409
      case Gone => 410
      case TooManyRequests => 429
      case InternalError => 500
    }
  }

  /** Different statuses have different codes. */
  lemma CodeInjective(a: Status, b: Status)
    ensures a.Code() == b.Code() ==> a == b
  {
  }
}
