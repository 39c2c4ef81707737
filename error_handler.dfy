/**
 * The global error handler: every error handed on with `next(error)` is
 * answered exactly once, by classifying it.
 */
module ErrorHandler {
  import opened Options
  import opened Http

  /** The status that goes with each code the handler uses. */
  function StatusFor(code: string): nat {
    if code == CONFLICT then 409
    else if code == NOT_FOUND then 404
    else if code == VALIDATION_ERROR then 400
    else 500
  }

  /** `process.env.NODE_ENV === "production"` */
  predicate IsProduction(nodeEnv: Option<string>) {
    nodeEnv == Some("production")
  }

  /** `errorHandler(err, req, res, next)`: the one response written for `err`. */
  function HandleError(err: Failure, nodeEnv: Option<string>): (r: Response)
    ensures r.body.ErrorBody? && r.body.code.Some? && r.body.details.None?
    ensures r.body.code.value in {CONFLICT, NOT_FOUND, VALIDATION_ERROR, INTERNAL_ERROR}
    ensures r.status == StatusFor(r.body.code.value)
    ensures r.body.code == Some(CONFLICT) <==> err.KnownRequestError? && err.code == "P2002"
    ensures r.body.code == Some(NOT_FOUND) <==> err.KnownRequestError? && err.code == "P2025"
    ensures r.body.code == Some(VALIDATION_ERROR) <==> err.PrismaValidationError?
    ensures r.status == 500 ==>
      r.body.error == (if IsProduction(nodeEnv) then "Internal server error" else err.message)
  {
    if err.KnownRequestError? && err.code == "P2002" then Error(409, "Resource already exists", CONFLICT)
    else if err.KnownRequestError? && err.code == "P2025" then Error(404, "Resource not found", NOT_FOUND)
    else if err.PrismaValidationError? then Error(400, "Invalid data provided", VALIDATION_ERROR)
    else Error(500, if IsProduction(nodeEnv) then "Internal server error" else err.message, INTERNAL_ERROR)
  }

  /** A known database error with a code other than P2002 and P2025 is an internal error. */
  lemma OtherKnownCodesAreInternal(code: string, message: string, nodeEnv: Option<string>)
    requires code != "P2002" && code != "P2025"
    ensures HandleError(KnownRequestError(code, message), nodeEnv).status == 500
    ensures HandleError(KnownRequestError(code, message), nodeEnv).body.code == Some(INTERNAL_ERROR)
  {
  }
}
