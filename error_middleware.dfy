/** The two Express middlewares of middleware/errorMiddleware.js: the
    catch-all for unknown routes and the final error handler. The response
    object is replaced by what each middleware decides to send. */
module ErrorMiddleware {
  import opened Common

  // ---------------------------------------------------------------------------
  // notFound

  const WellKnownPrefix := "/.well-known"
  const NotFoundPrefix := "Not Found - "

  /** What `notFound` does with a request: end it with 204 and no body, or set
      the status and pass an error on to the error handler. */
  datatype NotFoundOutcome = NoContent | Forward(status: nat, error: AppError)

  /** `notFound(req, res, next)` for `req.originalUrl == url`. */
  function NotFound(url: string): (o: NotFoundOutcome)
    ensures o.NoContent? <==> WellKnownPrefix <= url
    ensures o.Forward? ==> o.status == 404 && o.error.message == NotFoundPrefix + url
    ensures o.Forward? ==> !IsBadObjectId(o.error) && o.error.multer.NotMulter?
  {
    if WellKnownPrefix <= url then NoContent
    else Forward(404, PlainError(NotFoundPrefix + url))
  }

  // ---------------------------------------------------------------------------
  // errorHandler

  /** Whether the error is an instance of `multer.MulterError`, and its `code`. */
  datatype MulterInfo = NotMulter | MulterError(code: Option<string>)

  /** The parts of a thrown error the handler reads. */
  datatype AppError = AppError(name: string, kind: Option<string>, message: string,
                               stack: Option<string>, multer: MulterInfo)

  /** `new Error(message)`. */
  function PlainError(message: string): (e: AppError)
    ensures e.message == message && e.name == "Error" && e.multer.NotMulter?
  {
    AppError("Error", None, message, None, NotMulter)
  }

  /** The status and message the handler settles on. */
  datatype Reply = Reply(status: nat, message: string)

  const ResourceNotFound := "Resource not found"
  const FileTooLarge := "File too large. Maximum size is 2MB"
  const TooManyFiles := "Too many files uploaded"
  const FileUploadError := "File upload error"

  /** A Mongoose cast failure on an object identifier. */
  predicate IsBadObjectId(err: AppError) {
    err.name == "CastError" && err.kind == Some("ObjectId")
  }

  /** The message for a Multer error, chosen by its code. */
  function MulterMessage(code: Option<string>): (m: string)
    ensures m == FileTooLarge <==> code == Some("LIMIT_FILE_SIZE")
    ensures m == TooManyFiles <==> code == Some("LIMIT_FILE_COUNT")
    ensures m in {FileTooLarge, TooManyFiles, FileUploadError}
  {
    if code == Some("LIMIT_FILE_SIZE") then FileTooLarge
    else if code == Some("LIMIT_FILE_COUNT") then TooManyFiles
    else FileUploadError
  }

  /** The successive reassignments of `statusCode` and `message` in
      `errorHandler`, given the status already set on the response. */
  function SelectReply(err: AppError, currentStatus: nat): (r: Reply)
    // a Multer error always answers 400, whatever else matched
    ensures err.multer.MulterError? ==> r == Reply(400, MulterMessage(err.multer.code))
    // a bad object identifier that is not a Multer error answers 404
    ensures err.multer.NotMulter? && IsBadObjectId(err) ==> r == Reply(404, ResourceNotFound)
    // anything else keeps the error's message and the status already set, except that 200 becomes 500
    ensures err.multer.NotMulter? && !IsBadObjectId(err) ==>
      r.message == err.message && (r.status == 500 <==> currentStatus in {200, 500})
    ensures err.multer.NotMulter? && !IsBadObjectId(err) && currentStatus != 200 ==> r.status == currentStatus
  {
    var base := Reply(if currentStatus == 200 then 500 else currentStatus, err.message);
    var afterCast := if IsBadObjectId(err) then Reply(404, ResourceNotFound) else base;
    if err.multer.MulterError? then Reply(400, MulterMessage(err.multer.code)) else afterCast
  }

  /** The two ways the handler answers. */
  datatype Response =
    | ErrorView(status: nat, message: string)
    | JsonError(status: nat, message: string, stack: Option<string>)

  /** `errorHandler(err, req, res, next)`: `currentStatus` is `res.statusCode`,
      `acceptsHtml` the outcome of `req.accepts('html')` and `nodeEnv` the
      value of `NODE_ENV`. Logging the error is left out. */
  function ErrorHandler(err: AppError, currentStatus: nat, acceptsHtml: bool, nodeEnv: Option<string>): (resp: Response)
    ensures resp.ErrorView? <==> acceptsHtml
    ensures resp.status == SelectReply(err, currentStatus).status
    ensures resp.message == SelectReply(err, currentStatus).message
    // the stack is exposed only in development, and then it is the error's own
    ensures resp.JsonError? ==> (resp.stack.Some? ==> nodeEnv == Some("development"))
    ensures resp.JsonError? && nodeEnv == Some("development") ==> resp.stack == err.stack
  {
    var reply := SelectReply(err, currentStatus);
    if acceptsHtml then ErrorView(reply.status, reply.message)
    else JsonError(reply.status, reply.message, if nodeEnv == Some("development") then err.stack else None)
  }

  /** The handler never answers 200: an error left on a response still marked
      200 is turned into a 500. */
  lemma HandlerNeverAnswersOk(err: AppError, currentStatus: nat, acceptsHtml: bool, nodeEnv: Option<string>)
    ensures ErrorHandler(err, currentStatus, acceptsHtml, nodeEnv).status != 200
  {
  }

  /** The Multer rule is applied after the object-identifier rule, so an error
      matching both answers as a Multer error. */
  lemma MulterWinsOverCast(err: AppError, currentStatus: nat)
    requires IsBadObjectId(err) && err.multer.MulterError?
    ensures SelectReply(err, currentStatus).status == 400
    ensures SelectReply(err, currentStatus).message != ResourceNotFound
  {
  }

  /** An unknown route ends up, through the handler, as a 404 whose message
      names the URL; only `/.well-known` paths are answered with no content. */
  lemma UnknownRouteAnswers404(url: string, acceptsHtml: bool, nodeEnv: Option<string>)
    requires !(WellKnownPrefix <= url)
    ensures var o := NotFound(url);
      o.Forward? &&
      var resp := ErrorHandler(o.error, o.status, acceptsHtml, nodeEnv);
      resp.status == 404 && resp.message == NotFoundPrefix + url
  {
  }
}
