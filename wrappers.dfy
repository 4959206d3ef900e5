/** Option: a nullable column, a missing lookup, a JavaScript `null`. */
module Wrappers {

  datatype Option<+T> = None | Some(value: T) {

    /** The value, or `default` when there is none (C#'s GetValueOrDefault). */
    function GetOr(default: T): T {
      match this
      case Some(v) => v
      case None => default
    }
  }
}

/**
 * The results an endpoint answers with: ASP.NET's Results.Ok / NotFound /
 * BadRequest, each carrying the `info` text the controllers put in their
 * anonymous objects, plus Fault for an unhandled exception (HTTP 500).
 */
module Http {

  datatype Response<+T> =
    | Ok(info: string, payload: T)
    | NotFound(info: string)
    | BadRequest(info: string)
    | Fault(info: string)
}
