/** The error middleware (server/middleware/error.js): it copies the thrown error,
    overwrites the copy for each kind of error it recognises, and answers with the
    copy's status (500 by default) and message. */
module ErrorHandler {
  import opened Common
  import opened Http

  /** The parts of a thrown error the middleware reads. `validationMessages` are the
      messages of a validation error's `errors` map, in order. */
  datatype ThrownError = ThrownError(name: string, code: Option<int>, value: string, message: Option<string>,
                                     statusCode: Option<int>, validationMessages: seq<string>)

  /** The JSON body the middleware sends, with the status it sends it under. */
  datatype ErrorReply = ErrorReply(status: int, success: bool, error: string)

  const DuplicateKey := 11000
  const DefaultMessage := "Server Error"

  /** A missing message renders as `undefined` inside a template string. */
  function MessageText(m: Option<string>): string
  {
    if m.Some? then m.value else "undefined"
  }

  /** The response the recognised kinds of error are turned into: the last rule of the
      middleware that matches decides. */
  function Recognised(err: ThrownError): (r: Option<ErrorResponse>)
    ensures err.name == "MulterError" ==>
      r == Some(ErrorResponse("File upload error: " + MessageText(err.message), BadRequest))
    ensures err.name == "TokenExpiredError" ==>
      r == Some(ErrorResponse("Session expired, please login again", Unauthorized))
    ensures err.name == "JsonWebTokenError" ==>
      r == Some(ErrorResponse("Not authorized, token failed", Unauthorized))
    ensures err.name == "ValidationError" ==>
      r == Some(ErrorResponse(Join(err.validationMessages, ","), BadRequest))
    ensures err.name !in {"MulterError", "TokenExpiredError", "JsonWebTokenError", "ValidationError"} ==>
      (err.code == Some(DuplicateKey) ==> r == Some(ErrorResponse("Duplicate field value entered", BadRequest)))
      && (err.code != Some(DuplicateKey) && err.name == "CastError" ==>
            r == Some(ErrorResponse("Resource not found with id of " + err.value, NotFound)))
      && (err.code != Some(DuplicateKey) && err.name != "CastError" ==> r.None?)
  {
    if err.name == "MulterError" then Some(ErrorResponse("File upload error: " + MessageText(err.message), BadRequest))
    else if err.name == "TokenExpiredError" then Some(ErrorResponse("Session expired, please login again", Unauthorized))
    else if err.name == "JsonWebTokenError" then Some(ErrorResponse("Not authorized, token failed", Unauthorized))
    else if err.name == "ValidationError" then Some(ErrorResponse(Join(err.validationMessages, ","), BadRequest))
    else if err.code == Some(DuplicateKey) then Some(ErrorResponse("Duplicate field value entered", BadRequest))
    else if err.name == "CastError" then Some(ErrorResponse("Resource not found with id of " + err.value, NotFound))
    else None
  }

  /** The reply the middleware sends for `err`: a recognised error's status and message,
      otherwise the error's own status (500 when it has none) and message. */
  function Answer(err: ThrownError): (r: ErrorReply)
    ensures !r.success
    ensures Recognised(err).Some? ==> r.status == Recognised(err).value.statusCode
    ensures Recognised(err).None? ==> (r.status == ServerError <==> err.statusCode.None? || err.statusCode.value in {0, ServerError})
  {
    if Recognised(err).Some? then
      var e := Recognised(err).value;
      ErrorReply(e.statusCode, false, if e.message != "" then e.message else DefaultMessage)
    else
      ErrorReply(if err.statusCode.Some? && err.statusCode.value != 0 then err.statusCode.value else ServerError, false,
                 if TruthyStr(err.message) then err.message.value else DefaultMessage)
  }

  /** `errorHandler(err, req, res, next)`. */
  method HandleError(err: ThrownError) returns (reply: ErrorReply)
    ensures reply == Answer(err)
    ensures !reply.success
    ensures Recognised(err).Some? ==>
      reply == ErrorReply(Recognised(err).value.statusCode, false,
                          if Recognised(err).value.message != "" then Recognised(err).value.message else DefaultMessage)
    ensures Recognised(err).None? ==>
      reply.status == (if err.statusCode.Some? && err.statusCode.value != 0 then err.statusCode.value else ServerError)
      && reply.error == (if TruthyStr(err.message) then err.message.value else DefaultMessage)
  {
    var status := err.statusCode;
    var message := err.message;
    if err.name == "CastError" {
      status, message := Some(NotFound), Some("Resource not found with id of " + err.value);
    }
    if err.code == Some(DuplicateKey) {
      status, message := Some(BadRequest), Some("Duplicate field value entered");
    }
    if err.name == "ValidationError" {
      status, message := Some(BadRequest), Some(Join(err.validationMessages, ","));
    }
    if err.name == "JsonWebTokenError" {
      status, message := Some(Unauthorized), Some("Not authorized, token failed");
    }
    if err.name == "TokenExpiredError" {
      status, message := Some(Unauthorized), Some("Session expired, please login again");
    }
    if err.name == "MulterError" {
      status, message := Some(BadRequest), Some("File upload error: " + MessageText(err.message));
    }
    reply := ErrorReply(if status.Some? && status.value != 0 then status.value else ServerError, false,
                        if TruthyStr(message) then message.value else DefaultMessage);
  }

  /** Every recognised error is answered with a client-error status, never a 500. */
  lemma RecognisedAreClientErrors(err: ThrownError)
    requires Recognised(err).Some?
    ensures Recognised(err).value.statusCode in {BadRequest, Unauthorized, NotFound}
  {
  }

  /** An error handed to `next` reaches the client as the error middleware answers it. */
  function Answered(err: ThrownError): (e: ErrorResponse)
    ensures e.statusCode == Answer(err).status && e.message == Answer(err).error
  {
    var reply := Answer(err);
    ErrorResponse(reply.error, reply.status)
  }
}
