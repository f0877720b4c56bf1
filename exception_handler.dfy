/** GlobalExceptionHandler of org.mentalk.common.exception: every exception that
    reaches the web boundary becomes a failure envelope with the status, code and
    message of one ErrorCode. */
module ExceptionHandling {
  import opened Wrappers
  import opened ErrorCodes
  import Responses

  /** What the services and libraries throw. An ApiException carries its
      ErrorCode; every other exception is known only by its class's simple name,
      which is all the generic handler inspects. JwtException stands for the
      jjwt exception family, which JwtUtil.validateToken catches. */
  datatype Exception =
    | ApiException(errorCode: ErrorCode)
    | JwtException(simpleName: string)
    | OtherException(simpleName: string)

  const DataIntegrityViolationException := OtherException("DataIntegrityViolationException")
  const MethodArgumentNotValidException := OtherException("MethodArgumentNotValidException")
  const HttpMessageNotReadableException := OtherException("HttpMessageNotReadableException")
  const HttpMessageConversionException := OtherException("HttpMessageConversionException")

  /** A status code with a body, as a ResponseEntity. */
  datatype HttpResponse<T> = HttpResponse(status: int, body: Responses.ApiResponse<T>)

  /** The error kind the boundary reports for an exception: an ApiException's
      own code, four framework exceptions by name, UNEXPECTED_ERROR otherwise. */
  function ErrorCodeOf(e: Exception): ErrorCode
  {
    if e.ApiException? then e.errorCode
    else
      var name := e.simpleName;
      if name == "DataIntegrityViolationException" then DATA_INTEGRITY_VIOLATION
      else if name == "MethodArgumentNotValidException" then METHOD_ARG_NOT_VALID
      else if name == "HttpMessageNotReadableException" then HTTP_MESSAGE_NOT_READABLE
      else if name == "HttpMessageConversionException" then HTTP_MESSAGE_CONVERSION
      else UNEXPECTED_ERROR
  }

  /** The failure response of one ErrorCode. */
  function FailureResponse<T>(code: ErrorCode): HttpResponse<T>
  {
    HttpResponse(Status(code), Responses.Failure(Code(code), Message(code)))
  }

  /** `handleApiException`. */
  function HandleApiException<T>(code: ErrorCode): HttpResponse<T>
  {
    FailureResponse(code)
  }

  /** The switch of `handleExceptions` on the exception class's simple name. */
  function CodeForSimpleName(name: string): ErrorCode
  {
    match name
    case "DataIntegrityViolationException" => DATA_INTEGRITY_VIOLATION
    case "MethodArgumentNotValidException" => METHOD_ARG_NOT_VALID
    case "HttpMessageNotReadableException" => HTTP_MESSAGE_NOT_READABLE
    case "HttpMessageConversionException" => HTTP_MESSAGE_CONVERSION
    case _ => UNEXPECTED_ERROR
  }

  function SimpleName(e: Exception): string
  {
    match e
    case ApiException(_) => "ApiException"
    case JwtException(name) => name
    case OtherException(name) => name
  }

  /** `handleExceptions`, the catch-all handler. */
  function HandleExceptions<T>(e: Exception): HttpResponse<T>
  {
    FailureResponse(CodeForSimpleName(SimpleName(e)))
  }

  /** Handler resolution: an ApiException goes to the more specific handler,
      everything else to the catch-all. The response is the failure envelope of
      the exception's error kind, from which a client reads that kind back. */
  function Handle<T>(e: Exception): (r: HttpResponse<T>)
    ensures !r.body.success && Responses.WellFormed(r.body)
    ensures r.body.payload.ErrorBody? && FromCode(r.body.payload.code) == Some(ErrorCodeOf(e))
    ensures r.status == Status(ErrorCodeOf(e)) && r.body.payload.message == Message(ErrorCodeOf(e))
  {
    FromCodeOfCode(ErrorCodeOf(e));
    if e.ApiException? then HandleApiException(e.errorCode)
    else SwitchAgrees(e); HandleExceptions(e)
  }

  /** The catch-all's switch on class names reports the same kind as the table. */
  lemma SwitchAgrees(e: Exception)
    requires !e.ApiException?
    ensures CodeForSimpleName(SimpleName(e)) == ErrorCodeOf(e)
  {
    var name := SimpleName(e);
    if name == "DataIntegrityViolationException" {
    } else if name == "MethodArgumentNotValidException" {
    } else if name == "HttpMessageNotReadableException" {
    } else if name == "HttpMessageConversionException" {
    } else {
      assert CodeForSimpleName(name) == UNEXPECTED_ERROR;
    }
  }

  /** An ApiException is answered with its own code's status, code and message. */
  lemma ApiExceptionKeepsItsCode<T>(code: ErrorCode)
    ensures Handle<T>(ApiException(code)) == HttpResponse(Status(code), Responses.Failure(Code(code), Message(code)))
  {
  }

  /** The four framework exceptions the switch names, and the 500 fallback. */
  lemma FrameworkExceptions<T>(name: string)
    ensures Handle<T>(DataIntegrityViolationException).status == BAD_REQUEST
    ensures Handle<T>(DataIntegrityViolationException).body.payload.code == Code(DATA_INTEGRITY_VIOLATION)
    ensures Handle<T>(MethodArgumentNotValidException).body.payload.code == Code(METHOD_ARG_NOT_VALID)
    ensures Handle<T>(HttpMessageNotReadableException).body.payload.code == Code(HTTP_MESSAGE_NOT_READABLE)
    ensures Handle<T>(HttpMessageConversionException).body.payload.code == Code(HTTP_MESSAGE_CONVERSION)
    ensures name !in {"DataIntegrityViolationException", "MethodArgumentNotValidException",
                      "HttpMessageNotReadableException", "HttpMessageConversionException"} ==>
              Handle<T>(OtherException(name)) == HttpResponse(INTERNAL_SERVER_ERROR, Responses.Failure(Code(UNEXPECTED_ERROR), Message(UNEXPECTED_ERROR)))
  {
  }
}
