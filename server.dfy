/** The application's two fallbacks: the 404 handler for unmatched routes and
    the global error handler. */
module Server {
  import opened Js
  import opened Http

  /** The fields of a thrown error that the handler reads. */
  datatype AppError = AppError(name: Value, code: Value, message: Value)

  /** `app.use('*', ...)` */
  function NotFound(): (r: Response)
    ensures r.status == 404 && r.body == ErrorBody(Str("Route not found"))
  {
    Fail(404, "Route not found")
  }

  /** The global error handler; `nodeEnv` is `process.env.NODE_ENV`. */
  function HandleError(err: AppError, nodeEnv: Value): (r: Response)
    ensures r.status in {400, 409, 500}
    ensures r.status == 400 ==> r.body == ErrorBody(err.message)
    ensures r.status == 409 ==> r.body == ErrorBody(Str("Duplicate entry"))
  {
    if err.name == Str("ValidationError") then Response(400, ErrorBody(err.message))
    else if err.code == Str("ER_DUP_ENTRY") then Fail(409, "Duplicate entry")
    else if nodeEnv == Str("production") then Fail(500, "Internal server error")
    else Response(500, ErrorBody(err.message))
  }

  /** A validation error is a 400 carrying its own message, whatever its code. */
  lemma ValidationFirst(err: AppError, nodeEnv: Value)
    requires err.name == Str("ValidationError")
    ensures HandleError(err, nodeEnv) == Response(400, ErrorBody(err.message))
  {
  }

  /** The status depends only on the error's name and code. */
  lemma StatusClassification(err: AppError, nodeEnv: Value)
    ensures HandleError(err, nodeEnv).status == 400 <==> err.name == Str("ValidationError")
    ensures HandleError(err, nodeEnv).status == 409 <==> err.name != Str("ValidationError") && err.code == Str("ER_DUP_ENTRY")
    ensures HandleError(err, nodeEnv).status == 500
        <==> err.name != Str("ValidationError") && err.code != Str("ER_DUP_ENTRY")
  {
  }

  /** In production a 500 never reveals the error's message; elsewhere it is the message. */
  lemma ProductionHidesMessage(err: AppError, nodeEnv: Value)
    requires HandleError(err, nodeEnv).status == 500
    ensures HandleError(err, nodeEnv).body
         == ErrorBody(if nodeEnv == Str("production") then Str("Internal server error") else err.message)
  {
  }
}
