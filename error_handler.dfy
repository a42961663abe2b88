/**
 * The Express error middleware of middleware/error.js: every error passed to
 * `next(err)` ends here and is turned into an HTTP status and the failure
 * envelope `{ success: false, error }`.
 */
module ErrorMiddleware {
  import opened Wrappers

  /**
   * An error as the middleware sees it: its `name`, its `message` and its
   * optional `statusCode`. The status code is a JavaScript value used with
   * `||`, so both `undefined` (None) and 0 are falsy.
   */
  datatype ErrorRecord = ErrorRecord(name: string, message: string, statusCode: Option<int>)

  /** The failure envelope sent as the JSON body. */
  datatype ErrorEnvelope = ErrorEnvelope(success: bool, error: string)

  /** What the middleware sends: `res.status(status).json(body)`. */
  datatype ErrorReply = ErrorReply(status: int, body: ErrorEnvelope)

  const CastErrorName := "CastError"
  const CastErrorMessage := "Error, resource not found"
  const ServerErrorMessage := "Server Error"
  const DefaultStatus := 500

  /**
   * `new errorResponse(message, statusCode)`: a subclass of `Error`, so its
   * name is "Error", carrying the message and the status code it was given.
   */
  function ErrorResponse(message: string, statusCode: Option<int>): (e: ErrorRecord)
    ensures e.name != CastErrorName
    ensures e.message == message && e.statusCode == statusCode
  {
    ErrorRecord("Error", message, statusCode)
  }

  /** JavaScript truthiness of an optional status code. */
  function Truthy(code: Option<int>): (t: bool)
    ensures code.None? ==> !t
    ensures code.Some? ==> (t <==> code.value != 0)
  {
    code.Some? && code.value != 0
  }

  /**
   * The local `error` the handler builds: `{ ...err }` with `message` put
   * back, which keeps err's message and status code (the only fields the
   * reply reads; the inherited `name` and the stack that the spread drops are
   * not read again), replaced by a 404 "resource not found" error when `err`
   * is a CastError.
   */
  function Normalised(err: ErrorRecord): (error: ErrorRecord)
    ensures err.name == CastErrorName ==> error.message == CastErrorMessage && error.statusCode == Some(404)
    ensures err.name != CastErrorName ==> error == err
  {
    if err.name == CastErrorName then ErrorResponse(CastErrorMessage, Some(404)) else err
  }

  /** `errorHandler(err, req, res, next)`: the status and envelope sent for `err`. */
  function ErrorHandler(err: ErrorRecord): (reply: ErrorReply)
    // the envelope always reports failure, with a non-empty text and a truthy status
    ensures !reply.body.success
    ensures reply.body.error != "" && reply.status != 0
    // a Mongoose CastError is a 404, whatever it said or carried
    ensures err.name == CastErrorName ==> reply.status == 404 && reply.body.error == CastErrorMessage
    // any other error keeps a truthy status code, or falls back to 500
    ensures err.name != CastErrorName && Truthy(err.statusCode) ==> reply.status == err.statusCode.value
    ensures err.name != CastErrorName && !Truthy(err.statusCode) ==> reply.status == DefaultStatus
    // and keeps a non-empty message, or falls back to "Server Error"
    ensures err.name != CastErrorName && err.message != "" ==> reply.body.error == err.message
    ensures err.name != CastErrorName && err.message == "" ==> reply.body.error == ServerErrorMessage
  {
    var error := Normalised(err);
    var status := if Truthy(error.statusCode) then error.statusCode.value else DefaultStatus;
    var text := if error.message != "" then error.message else ServerErrorMessage;
    ErrorReply(status, ErrorEnvelope(false, text))
  }

  /** Two CastErrors get the same reply whatever their messages and codes. */
  lemma CastErrorsAreIndistinguishable(e1: ErrorRecord, e2: ErrorRecord)
    requires e1.name == CastErrorName && e2.name == CastErrorName
    ensures ErrorHandler(e1) == ErrorHandler(e2)
  {
  }

  /**
   * Raising the reply again as an `errorResponse` with the sent text and
   * status reproduces the same reply: the mapping is a fixpoint on its output.
   */
  lemma ReplyIsStable(err: ErrorRecord)
    ensures var reply := ErrorHandler(err);
            ErrorHandler(ErrorResponse(reply.body.error, Some(reply.status))) == reply
  {
  }

  /** Only the name "CastError" rewrites the message; every other error only defaults it. */
  lemma MessageKeptUnlessCastError(err: ErrorRecord)
    requires err.message != ""
    ensures ErrorHandler(err).body.error == err.message <==> (err.name != CastErrorName || err.message == CastErrorMessage)
  {
  }
}
