/**
 * The backend's error type and how each variant becomes an HTTP response:
 * a status code and a JSON body `{ success: false, msg }`.
 */
module ApiErrors {
  /**
   * The variants of `ApiError`. The detail carried by `Database` and
   * `JwtError` stands for the wrapped library error, reduced to its text.
   */
  datatype ApiError =
    | Database(detail: string)
    | Unauthorized(msg: string)
    | BadRequest(msg: string)
    | InternalError(msg: string)
    | JwtError(detail: string)
    | PasswordHashError
    | SystemError(msg: string)

  /** The body every error response carries. */
  datatype ErrorResponse = ErrorResponse(success: bool, msg: string)

  datatype Response = Response(status: nat, body: ErrorResponse)

  const BadRequestStatus: nat := 400
  const UnauthorizedStatus: nat := 401
  const InternalServerErrorStatus: nat := 500

  /** The variants whose detail never leaves the server. */
  predicate HidesDetail(e: ApiError) {
    e.Database? || e.JwtError? || e.PasswordHashError?
  }

  /** The variants reported as a server fault. */
  predicate IsServerFault(e: ApiError) {
    e.Database? || e.InternalError? || e.PasswordHashError? || e.SystemError?
  }

  /** `into_response`: the status and message chosen for each variant. */
  function IntoResponse(e: ApiError): (r: Response)
    ensures !r.body.success
    ensures r.status in {BadRequestStatus, UnauthorizedStatus, InternalServerErrorStatus}
    ensures r.status == InternalServerErrorStatus <==> IsServerFault(e)
    ensures r.status == UnauthorizedStatus <==> e.Unauthorized? || e.JwtError?
    ensures r.status == BadRequestStatus <==> e.BadRequest?
    ensures !HidesDetail(e) ==> r.body.msg == e.msg
  {
    var (status, message) := match e
      case Database(_) => (InternalServerErrorStatus, "Database error")
      case Unauthorized(msg) => (UnauthorizedStatus, msg)
      case BadRequest(msg) => (BadRequestStatus, msg)
      case InternalError(msg) => (InternalServerErrorStatus, msg)
      case JwtError(_) => (UnauthorizedStatus, "Invalid token")
      case PasswordHashError => (InternalServerErrorStatus, "Authentication error")
      case SystemError(msg) => (InternalServerErrorStatus, msg);
    Response(status, ErrorResponse(false, message))
  }

  /**
   * Two errors of a hiding variant produce the same response whatever their
   * details, so the response reveals nothing about the detail.
   */
  lemma HiddenDetailIsNotObservable(e1: ApiError, e2: ApiError)
    requires HidesDetail(e1) && HidesDetail(e2)
    requires e1.Database? == e2.Database? && e1.JwtError? == e2.JwtError?
    ensures IntoResponse(e1) == IntoResponse(e2)
  {
  }

  /** The fixed messages that stand in for a hidden detail. */
  lemma HiddenDetailMessages(d: string)
    ensures IntoResponse(Database(d)).body.msg == "Database error"
    ensures IntoResponse(JwtError(d)).body.msg == "Invalid token"
    ensures IntoResponse(PasswordHashError).body.msg == "Authentication error"
  {
  }

  /** The fixed prefix of each variant's display text. */
  function DisplayPrefix(e: ApiError): string {
    match e
    case Database(_) => "Database error: "
    case Unauthorized(_) => "Authentication failed: "
    case BadRequest(_) => "Invalid input: "
    case InternalError(_) => "Internal server error: "
    case JwtError(_) => "JWT error: "
    case PasswordHashError => "Password hashing error"
    case SystemError(_) => "System error: "
  }

  /** The text a variant carries, the empty text for `PasswordHashError`. */
  function Detail(e: ApiError): string {
    match e
    case Database(d) => d
    case JwtError(d) => d
    case PasswordHashError => ""
    case _ => e.msg
  }

  /** The `Display` text: the variant's prefix followed by what it carries. */
  function Display(e: ApiError): (r: string)
    ensures |r| == |DisplayPrefix(e)| + |Detail(e)|
    ensures r[..|DisplayPrefix(e)|] == DisplayPrefix(e)
  {
    match e
    case Database(d) => "Database error: " + d
    case Unauthorized(m) => "Authentication failed: " + m
    case BadRequest(m) => "Invalid input: " + m
    case InternalError(m) => "Internal server error: " + m
    case JwtError(d) => "JWT error: " + d
    case PasswordHashError => "Password hashing error"
    case SystemError(m) => "System error: " + m
  }

  /** Dropping the prefix from the display text gives back what the variant carries. */
  lemma DisplayRecoversDetail(e: ApiError)
    ensures Display(e)[|DisplayPrefix(e)|..] == Detail(e)
  {
  }

  /** Where the response passes a message through, it is the display text without its prefix. */
  lemma ResponseIsDisplayWithoutPrefix(e: ApiError)
    requires !HidesDetail(e)
    ensures IntoResponse(e).body.msg == Display(e)[|DisplayPrefix(e)|..]
  {
    DisplayRecoversDetail(e);
  }
}
