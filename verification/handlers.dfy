/**
 * The three exception handlers registered by `register_exception_handlers`
 * (app/core/handlers.py), as one total function from a sandbox error to the JSON
 * response they build. The response body has the shape of `ErrorResponse`
 * (app/schemas/execution.py).
 */
module Handlers {
  import opened Wrappers
  import opened Exceptions

  datatype ErrorResponse = ErrorResponse(errorType: string, detail: string, forbiddenItem: Option<string>)

  datatype JsonResponse = JsonResponse(statusCode: int, content: ErrorResponse)

  const BadRequest: int := 400
  const InternalServerError: int := 500

  /** The handler FastAPI picks by the exception's class. `detail` is `str(exc)`;
      only the security handler passes a `forbidden_item`, the other two leave the
      field at its default `None`. */
  function Handle(e: SandboxError): (r: JsonResponse)
    ensures r.content.detail == Str(Sandbox(e))
    ensures r.statusCode == InternalServerError <==> e.RuntimeError?
    ensures r.statusCode == BadRequest <==> !e.RuntimeError?
    ensures r.content.forbiddenItem.Some? ==> r.content.errorType == "security"
    ensures e.SecurityError? ==> r.content.forbiddenItem == e.forbiddenItem
    ensures r.content.errorType in {"security", "syntax", "runtime"}
  {
    match e
    case SecurityError(message, item) =>
      JsonResponse(BadRequest, ErrorResponse("security", Str(Sandbox(e)), item))
    case SyntaxError(_) =>
      JsonResponse(BadRequest, ErrorResponse("syntax", Str(Sandbox(e)), None))
    case RuntimeError(_) =>
      JsonResponse(InternalServerError, ErrorResponse("runtime", Str(Sandbox(e)), None))
  }

  /** Reading the category back from a response body. */
  function KindOfErrorType(errorType: string): (k: Option<ErrorKind>)
  {
    if errorType == "security" then Some(Security)
    else if errorType == "syntax" then Some(Syntax)
    else if errorType == "runtime" then Some(Runtime)
    else None
  }

  /** Every error gets exactly one category, and the category names its kind: the
      error kind can be read back from the response. */
  lemma CategoryIdentifiesKind(e: SandboxError)
    ensures KindOfErrorType(Handle(e).content.errorType) == Some(KindOf(e))
  {
  }

  /** Two errors get the same category exactly when they are of the same kind. */
  lemma SameCategoryIffSameKind(e1: SandboxError, e2: SandboxError)
    ensures Handle(e1).content.errorType == Handle(e2).content.errorType <==> KindOf(e1) == KindOf(e2)
  {
    CategoryIdentifiesKind(e1);
    CategoryIdentifiesKind(e2);
  }
}
