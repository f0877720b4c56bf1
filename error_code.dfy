/** The ErrorCode enum of org.mentalk.common.enums: every domain and global
    failure kind with its HTTP status, its stable code string and its message. */
module ErrorCodes {
  import opened Wrappers

  datatype ErrorCode =
    | UNEXPECTED_ERROR
    | DATA_INTEGRITY_VIOLATION
    | METHOD_ARG_NOT_VALID
    | HTTP_MESSAGE_NOT_READABLE
    | HTTP_MESSAGE_CONVERSION
    | UNAUTHORIZED
    | FORBIDDEN
    | INVALID_PASSWORD
    | EMAIL_NOT_FOUND
    | MEMBER_NOT_FOUND
    | ACCOUNT_NOT_FOUND
    | ALREADY_EMAIL_IN_USE
    | ALREADY_ACCOUNT_REGISTERED
    | JWT_CREATION_ERROR

  /** HTTP status codes used by the table. */
  const BAD_REQUEST := 400
  const UNAUTHORIZED_STATUS := 401
  const FORBIDDEN_STATUS := 403
  const NOT_FOUND := 404
  const CONFLICT := 409
  const INTERNAL_SERVER_ERROR := 500

  /** The `status` column. */
  function Status(e: ErrorCode): int
  {
    match e
    case UNEXPECTED_ERROR => INTERNAL_SERVER_ERROR
    case DATA_INTEGRITY_VIOLATION => BAD_REQUEST
    case METHOD_ARG_NOT_VALID => BAD_REQUEST
    case HTTP_MESSAGE_NOT_READABLE => BAD_REQUEST
    case HTTP_MESSAGE_CONVERSION => BAD_REQUEST
    case UNAUTHORIZED => UNAUTHORIZED_STATUS
    case FORBIDDEN => FORBIDDEN_STATUS
    case INVALID_PASSWORD => UNAUTHORIZED_STATUS
    case EMAIL_NOT_FOUND => NOT_FOUND
    case MEMBER_NOT_FOUND => NOT_FOUND
    case ACCOUNT_NOT_FOUND => NOT_FOUND
    case ALREADY_EMAIL_IN_USE => CONFLICT
    case ALREADY_ACCOUNT_REGISTERED => CONFLICT
    case JWT_CREATION_ERROR => INTERNAL_SERVER_ERROR
  }

  /** The `code` column: a stable machine-readable identifier. */
  function Code(e: ErrorCode): string
  {
    match e
    case UNEXPECTED_ERROR => "G001"
    case DATA_INTEGRITY_VIOLATION => "G002"
    case METHOD_ARG_NOT_VALID => "G003"
    case HTTP_MESSAGE_NOT_READABLE => "G004"
    case HTTP_MESSAGE_CONVERSION => "G005"
    case UNAUTHORIZED => "G006"
    case FORBIDDEN => "G007"
    case INVALID_PASSWORD => "A001"
    case EMAIL_NOT_FOUND => "N001"
    case MEMBER_NOT_FOUND => "N002"
    case ACCOUNT_NOT_FOUND => "N003"
    case ALREADY_EMAIL_IN_USE => "C001"
    case ALREADY_ACCOUNT_REGISTERED => "C002"
    case JWT_CREATION_ERROR => "S001"
  }

  /** The `message` column (human-readable, shown to clients). */
  function Message(e: ErrorCode): string
  {
    match e
    case UNEXPECTED_ERROR => "예기치 않은 오류가 발생했습니다."
    case DATA_INTEGRITY_VIOLATION => "데이터 무결성 위반 문제가 발생했습니다."
    case METHOD_ARG_NOT_VALID => "요청 데이터가 유효하지 않습니다."
    case HTTP_MESSAGE_NOT_READABLE => "요청 본문이 잘못된 형식입니다."
    case HTTP_MESSAGE_CONVERSION => "요청 본문의 값 중 일부가 변환에 실패했습니다."
    case UNAUTHORIZED => "인증에 실패했습니다."
    case FORBIDDEN => "접근 권한이 없습니다."
    case INVALID_PASSWORD => "비밀번호가 일치하지 않습니다."
    case EMAIL_NOT_FOUND => "가입되지 않은 이메일입니다."
    case MEMBER_NOT_FOUND => "회원 정보를 찾을 수 없습니다."
    case ACCOUNT_NOT_FOUND => "계정 정보를 찾을 수 없습니다."
    case ALREADY_EMAIL_IN_USE => "이미 사용 중인 이메일입니다."
    case ALREADY_ACCOUNT_REGISTERED => "이미 계정이 등록된 회원입니다."
    case JWT_CREATION_ERROR => "JWT 생성 중 오류가 발생했습니다."
  }

  /** The error kind a code string stands for, if any: a client reads the kind
      back from the `code` field of a failure response. */
  function FromCode(code: string): (r: Option<ErrorCode>)
    ensures r.Some? ==> Code(r.value) == code
  {
    match code
    case "G001" => Some(UNEXPECTED_ERROR)
    case "G002" => Some(DATA_INTEGRITY_VIOLATION)
    case "G003" => Some(METHOD_ARG_NOT_VALID)
    case "G004" => Some(HTTP_MESSAGE_NOT_READABLE)
    case "G005" => Some(HTTP_MESSAGE_CONVERSION)
    case "G006" => Some(UNAUTHORIZED)
    case "G007" => Some(FORBIDDEN)
    case "A001" => Some(INVALID_PASSWORD)
    case "N001" => Some(EMAIL_NOT_FOUND)
    case "N002" => Some(MEMBER_NOT_FOUND)
    case "N003" => Some(ACCOUNT_NOT_FOUND)
    case "C001" => Some(ALREADY_EMAIL_IN_USE)
    case "C002" => Some(ALREADY_ACCOUNT_REGISTERED)
    case "S001" => Some(JWT_CREATION_ERROR)
    case _ => None
  }

  /** Reading a code back gives the kind that produced it. */
  lemma FromCodeOfCode(e: ErrorCode)
    ensures FromCode(Code(e)) == Some(e)
  {
  }

  /** Every constant has its own code string. */
  lemma CodesDistinct(a: ErrorCode, b: ErrorCode)
    ensures Code(a) == Code(b) <==> a == b
  {
    FromCodeOfCode(a);
    FromCodeOfCode(b);
  }

  /** The 4xx/5xx classes of the table, kind by kind. */
  lemma StatusClasses(e: ErrorCode)
    ensures Status(e) == NOT_FOUND <==> e in {EMAIL_NOT_FOUND, MEMBER_NOT_FOUND, ACCOUNT_NOT_FOUND}
    ensures Status(e) == CONFLICT <==> e in {ALREADY_EMAIL_IN_USE, ALREADY_ACCOUNT_REGISTERED}
    ensures Status(e) == UNAUTHORIZED_STATUS <==> e in {UNAUTHORIZED, INVALID_PASSWORD}
    ensures Status(e) == FORBIDDEN_STATUS <==> e == FORBIDDEN
    ensures Status(e) == BAD_REQUEST <==>
              e in {DATA_INTEGRITY_VIOLATION, METHOD_ARG_NOT_VALID, HTTP_MESSAGE_NOT_READABLE, HTTP_MESSAGE_CONVERSION}
    ensures Status(e) == INTERNAL_SERVER_ERROR <==> e in {UNEXPECTED_ERROR, JWT_CREATION_ERROR}
  {
  }
}
