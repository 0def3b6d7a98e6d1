/**
 * The error-handling middleware (backend/src/middleware/errorHandler.ts): the
 * ApiError class, the mapping from whatever a route passes to next(error) to a
 * status code and JSON body, and the handler for unmatched routes. Logging to the
 * console is not part of the model.
 */
module ErrorHandler {
  import opened Llm

  /** An error a route raises on purpose, with its own status and code. */
  datatype ApiError = ApiError(message: string, statusCode: int, code: string)

  /** `new ApiError(message, statusCode?, code?)` with the constructor's defaults. */
  function NewApiError(message: string, statusCode: int := 500, code: string := "INTERNAL_ERROR"): ApiError {
    ApiError(message, statusCode, code)
  }

  /** The defaults of the ApiError constructor. */
  lemma ApiErrorDefaults(message: string)
    ensures NewApiError(message).statusCode == 500
    ensures NewApiError(message).code == "INTERNAL_ERROR"
    ensures NewApiError(message).message == message
  {
  }

  /** What reaches the error handler, by the class of the thrown value. */
  datatype AppError =
    | LlmFailure(llmError: LLMError)
    | ApiFailure(apiError: ApiError)
    | SyntaxFailure(hasBody: bool, message: string)  // a SyntaxError; hasBody: it carries a `body` property
    | OtherFailure(message: string)                  // any other Error, such as one the database throws

  /** A status code and the JSON body `{ error, message, code }`. */
  datatype ErrorResponse = ErrorResponse(statusCode: int, error: string, message: string, code: string)

  const GENERIC_MESSAGE := "An unexpected error occurred. Please try again later."

  /** The errors whose details the client never sees. */
  predicate IsInternal(e: AppError) {
    e.OtherFailure? || (e.SyntaxFailure? && !e.hasBody)
  }

  /** errorHandler: the checks in their order, then the generic 500. */
  function HandleError(e: AppError): (r: ErrorResponse)
    ensures e.LlmFailure? ==>
      r.statusCode == e.llmError.statusCode && r.message == e.llmError.code.Message() && r.code == e.llmError.code.Name()
    ensures e.ApiFailure? ==>
      r.statusCode == e.apiError.statusCode && r.message == e.apiError.message && r.code == e.apiError.code
    ensures e.SyntaxFailure? && e.hasBody ==>
      r == ErrorResponse(400, "Bad Request", "Invalid JSON in request body", "INVALID_JSON")
    ensures IsInternal(e) <==> r.error == "Internal Server Error"
    ensures IsInternal(e) ==> r.statusCode == 500 && r.message == GENERIC_MESSAGE && r.code == "INTERNAL_ERROR"
  {
    match e
    case LlmFailure(x) => ErrorResponse(x.statusCode, "AI Service Error", x.code.Message(), x.code.Name())
    case ApiFailure(x) => ErrorResponse(x.statusCode, "API Error", x.message, x.code)
    case SyntaxFailure(hasBody, _) =>
      if hasBody then ErrorResponse(400, "Bad Request", "Invalid JSON in request body", "INVALID_JSON")
      else ErrorResponse(500, "Internal Server Error", GENERIC_MESSAGE, "INTERNAL_ERROR")
    case OtherFailure(_) => ErrorResponse(500, "Internal Server Error", GENERIC_MESSAGE, "INTERNAL_ERROR")
  }

  /** An unexpected error's own message never reaches the client: all of them look alike. */
  lemma {:induction false} InternalErrorsIndistinguishable(e1: AppError, e2: AppError)
    requires IsInternal(e1) && IsInternal(e2)
    ensures HandleError(e1) == HandleError(e2)
  {
  }

  /** Every response the handler gives says which of four kinds of error it was. */
  lemma {:induction false} ErrorLabels(e: AppError)
    ensures HandleError(e).error in {"AI Service Error", "API Error", "Bad Request", "Internal Server Error"}
    ensures HandleError(e).error == "AI Service Error" <==> e.LlmFailure?
    ensures HandleError(e).error == "API Error" <==> e.ApiFailure?
  {
  }

  /** notFoundHandler: any route no router matched. */
  function NotFound(httpMethod: string, path: string): (r: ErrorResponse)
    ensures r.statusCode == 404 && r.error == "Not Found" && r.code == "NOT_FOUND"
    ensures r.message == "Route " + httpMethod + " " + path + " not found"
  {
    ErrorResponse(404, "Not Found", "Route " + httpMethod + " " + path + " not found", "NOT_FOUND")
  }
}
