/** Optional values and the failure answers shared by every handler of the model. */
module Results {

  /** A value that may be absent: a missing request field or a null document field. */
  datatype Option<+T> = None | Some(value: T) {
    function GetOr(default: T): T {
      match this
      case Some(v) => v
      case None => default
    }
  }

  /** How a handler refuses a request. */
  datatype Failure =
    | BadRequest    // a check in the controller itself refused the request (HTTP 400)
    | Forbidden     // the caller lacks the role the action needs (HTTP 403)
    | NotFound      // the addressed document does not exist or is not visible (HTTP 404)
    | SaveRejected  // a schema validator, a pre-save hook or a unique index refused the write (HTTP 500)
    | ServerError   // the handler itself failed, e.g. on a document it assumed to exist (HTTP 500)

  /** The outcome of a handler: the document it answers with, or why it refused. */
  datatype Result<+T> = Ok(value: T) | Fail(failure: Failure)
}
