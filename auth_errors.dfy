/**
 * The identity-service error taxonomy: the AuthError record, its default
 * user messages, the mapping from a provider error body and HTTP status to an
 * AuthError, the parse fallback for error bodies that are not JSON, and the
 * classification of whatever a request throws.
 */
module AuthErrors {
  import opened Wrappers
  import JsStrings

  /** The codes an AuthError carries. */
  datatype ErrorCode =
    | InvalidCredentials | EmailNotConfirmed | TooManyRequests | UserNotFound | WeakPassword
    | EmailAlreadyExists | NetworkError | ServerError | Unauthorized | SessionExpired
    | ValidationError | RateLimited | Forbidden | BadRequest | ParseError | Timeout | UnknownError
  {
    /** The code as the application spells it. */
    function Name(): string
    {
      match this
      case InvalidCredentials => "INVALID_CREDENTIALS"
      case EmailNotConfirmed => "EMAIL_NOT_CONFIRMED"
      case TooManyRequests => "TOO_MANY_REQUESTS"
      case UserNotFound => "USER_NOT_FOUND"
      case WeakPassword => "WEAK_PASSWORD"
      case EmailAlreadyExists => "EMAIL_ALREADY_EXISTS"
      case NetworkError => "NETWORK_ERROR"
      case ServerError => "SERVER_ERROR"
      case Unauthorized => "UNAUTHORIZED"
      case SessionExpired => "SESSION_EXPIRED"
      case ValidationError => "VALIDATION_ERROR"
      case RateLimited => "RATE_LIMITED"
      case Forbidden => "FORBIDDEN"
      case BadRequest => "BAD_REQUEST"
      case ParseError => "PARSE_ERROR"
      case Timeout => "TIMEOUT"
      case UnknownError => "UNKNOWN_ERROR"
    }
  }

  datatype AuthError = AuthError(message: string, code: ErrorCode, statusCode: int, userMessage: string)

  /** JavaScript truthiness of an optional string: present and non-empty. */
  predicate Truthy(o: Option<string>)
  {
    o.Some? && o.value != ""
  }

  // ---------------------------------------------------------------------------
  // Default user messages

  const GenericUserMessage := "An unexpected error occurred. Please try again later."

  /**
   * `getDefaultUserMessage(code)`: the message table of the AuthError
   * constructor; UNKNOWN_ERROR has no entry and gets the generic message.
   */
  function DefaultUserMessage(code: ErrorCode): string
  {
    match code
    case InvalidCredentials => "Invalid email or password. Please check your credentials and try again."
    case EmailNotConfirmed => "Your account needs to be verified. Please check your email."
    case TooManyRequests => "Too many login attempts. Please wait a few minutes before trying again."
    case UserNotFound => "No account found with this email address."
    case WeakPassword => "Password must be at least 6 characters long."
    case EmailAlreadyExists => "An account with this email already exists."
    case NetworkError => "Connection error. Please check your internet connection."
    case ServerError => "Server error. Please try again later."
    case Unauthorized => "You do not have permission to perform this action."
    case SessionExpired => "Your session has expired. Please sign in again."
    case ValidationError => "The provided data is invalid. Please check your information."
    case RateLimited => "Too many requests. Please wait a moment before trying again."
    case Forbidden => "You do not have permission to perform this action."
    case BadRequest => "Invalid request data. Please verify your information."
    case ParseError => "Unable to process server response. Please try again."
    case Timeout => "Request timeout. Please check your connection and try again."
    case UnknownError => GenericUserMessage
  }

  /**
   * `new AuthError(message, code, statusCode, userMessage)`: the user message
   * is the one given when it is truthy, otherwise the default for the code.
   */
  function NewAuthError(message: string, code: ErrorCode, statusCode: int, userMessage: Option<string>): (e: AuthError)
    ensures e.message == message && e.code == code && e.statusCode == statusCode
    ensures Truthy(userMessage) ==> e.userMessage == userMessage.value
    ensures !Truthy(userMessage) ==> e.userMessage == DefaultUserMessage(code)
  {
    AuthError(message, code, statusCode, if Truthy(userMessage) then userMessage.value else DefaultUserMessage(code))
  }

  // ---------------------------------------------------------------------------
  // Mapping a provider error body

  /** The JSON error body of the provider; every field may be missing. */
  datatype SupabaseAuthError = SupabaseAuthError(
    code: Option<int>,
    error_code: Option<string>,
    msg: Option<string>,
    message: Option<string>,
    error: Option<string>,
    error_description: Option<string>)

  /**
   * The technical message `msg || message || error || error_description ||
   * 'Unknown error'`: the first field that is present and non-empty.
   */
  function ErrorText(e: SupabaseAuthError): (m: string)
    ensures m != ""
    ensures Truthy(e.msg) ==> m == e.msg.value
    ensures !Truthy(e.msg) && Truthy(e.message) ==> m == e.message.value
    ensures !Truthy(e.msg) && !Truthy(e.message) && Truthy(e.error) ==> m == e.error.value
    ensures !Truthy(e.msg) && !Truthy(e.message) && !Truthy(e.error) && Truthy(e.error_description) ==>
              m == e.error_description.value
    ensures !Truthy(e.msg) && !Truthy(e.message) && !Truthy(e.error) && !Truthy(e.error_description) ==>
              m == "Unknown error"
  {
    if Truthy(e.msg) then e.msg.value
    else if Truthy(e.message) then e.message.value
    else if Truthy(e.error) then e.error.value
    else if Truthy(e.error_description) then e.error_description.value
    else "Unknown error"
  }

  /** The AuthError code fixed by a recognised provider `error_code`, or None for any other value. */
  function ProviderCode(errorCode: Option<string>): Option<ErrorCode>
  {
    var c := errorCode.GetOr("");
    if errorCode.None? then None
    else if c == "invalid_credentials" then Some(InvalidCredentials)
    else if c == "email_not_confirmed" then Some(EmailNotConfirmed)
    else if c == "too_many_requests" then Some(TooManyRequests)
    else if c == "user_not_found" then Some(UserNotFound)
    else if c == "weak_password" then Some(WeakPassword)
    else if c == "email_already_exists" || c == "signup_disabled" then Some(EmailAlreadyExists)
    else if c == "invalid_request" then Some(ValidationError)
    else None
  }

  /** The user message that goes with a code chosen from the provider's `error_code`. */
  function ProviderMessage(code: ErrorCode): string
  {
    match code
    case InvalidCredentials => "Invalid email or password. Please verify that your credentials are correct."
    case EmailNotConfirmed => "Your account needs to be verified. Please check your email and click the confirmation link."
    case TooManyRequests => "Too many login attempts. Please wait a few minutes before trying again."
    case UserNotFound => "No account found with this email. Please verify the email or create a new account."
    case WeakPassword => "Password must be at least 6 characters long and more secure."
    case EmailAlreadyExists => "An account with this email already exists. Try signing in or recovering your password."
    case ValidationError => "Invalid request. Please check your information and try again."
    case _ => GenericUserMessage
  }

  /** The AuthError code chosen by the HTTP status alone. */
  function StatusCode(status: int): ErrorCode
  {
    if status == 400 then BadRequest
    else if status == 401 then Unauthorized
    else if status == 403 then Forbidden
    else if status == 422 then ValidationError
    else if status == 429 then RateLimited
    else if status == 500 || status == 502 || status == 503 || status == 504 then ServerError
    else UnknownError
  }

  /** The user message that goes with a code chosen from the HTTP status. */
  function StatusMessage(code: ErrorCode): string
  {
    match code
    case BadRequest => "Invalid request data. Please verify your information and try again."
    case Unauthorized => "Invalid credentials or expired session. Please sign in again."
    case Forbidden => "You do not have permission to perform this action."
    case ValidationError => "The provided data is invalid. Please verify your information."
    case RateLimited => "Too many requests. Please wait a few minutes before trying again."
    case ServerError => "Server error. Please try again later or contact support."
    case _ => GenericUserMessage
  }

  /**
   * `mapSupabaseError(errorData, statusCode)`: a recognised provider code
   * decides the AuthError, otherwise the status does. The result always
   * carries the status it was given and the first non-empty technical message.
   * Every case passes a non-empty user message, so the constructor keeps it.
   */
  function MapSupabaseError(e: SupabaseAuthError, status: int): (r: AuthError)
    ensures r.statusCode == status
    ensures r.message == ErrorText(e)
    ensures ProviderCode(e.error_code).Some? ==>
              r.code == ProviderCode(e.error_code).value && r.userMessage == ProviderMessage(r.code)
    ensures ProviderCode(e.error_code).None? ==>
              r.code == StatusCode(status) && r.userMessage == StatusMessage(r.code)
  {
    match ProviderCode(e.error_code)
    case Some(c) => AuthError(ErrorText(e), c, status, ProviderMessage(c))
    case None => AuthError(ErrorText(e), StatusCode(status), status, StatusMessage(StatusCode(status)))
  }

  /** A recognised provider code decides the AuthError code whatever the status. */
  lemma RecognisedCodeIgnoresStatus(e: SupabaseAuthError, s1: int, s2: int)
    requires ProviderCode(e.error_code).Some?
    ensures MapSupabaseError(e, s1).code == MapSupabaseError(e, s2).code
    ensures MapSupabaseError(e, s1).userMessage == MapSupabaseError(e, s2).userMessage
  {
  }

  /** 'signup_disabled' is reported exactly like 'email_already_exists'. */
  lemma SignupDisabledIsEmailExists(e: SupabaseAuthError, status: int)
    requires e.error_code == Some("signup_disabled")
    ensures ProviderCode(e.error_code) == ProviderCode(Some("email_already_exists")) == Some(EmailAlreadyExists)
    ensures MapSupabaseError(e, status).code == EmailAlreadyExists
  {
  }

  /** The status table used when the provider code is not recognised. */
  lemma StatusDecides(status: int)
    ensures var c := StatusCode(status);
      && (status == 400 <==> c == BadRequest)
      && (status == 401 <==> c == Unauthorized)
      && (status == 403 <==> c == Forbidden)
      && (status == 422 <==> c == ValidationError)
      && (status == 429 <==> c == RateLimited)
      && (status == 500 || status == 502 || status == 503 || status == 504 <==> c == ServerError)
      && (status !in {400, 401, 403, 422, 429, 500, 502, 503, 504} <==> c == UnknownError)
  {
  }

  // ---------------------------------------------------------------------------
  // handleResponse

  /** The body of a response as far as the client can read it. */
  datatype Body<P> =
    | JsonError(error: SupabaseAuthError)   // an error body that JSON.parse accepts
    | JsonPayload(payload: P)               // a success body that response.json() parses
    | Unparsable(syntaxMessage: string)     // text that JSON.parse (or response.json) rejects

  datatype Response<P> = Response(
    status: int,
    statusText: string,
    contentLength: Option<string>,
    contentType: Option<string>,
    body: Body<P>)

  /** What a successful request yields: the parsed payload, or the stock `{ message: 'Success' }`. */
  datatype Payload<P> = Parsed(payload: P) | SuccessMessage

  /** What a request raises, as seen by the catch block of makeRequest. */
  datatype Thrown =
    | ThrownAuthError(authError: AuthError)
    | ThrownError(isTypeError: bool, name: string, message: string)
    | ThrownNonError

  /** The error structure built when an error body is not JSON. */
  function ParseFallback(status: int, statusText: string): (e: SupabaseAuthError)
    ensures e.error_code == Some("PARSE_ERROR")
    ensures ErrorText(e) == if statusText != "" then statusText else "Unknown error"
  {
    SupabaseAuthError(Some(status), Some("PARSE_ERROR"),
      Some(if statusText != "" then statusText else "Unknown error"), None, None, None)
  }

  /** A PARSE_ERROR body matches no provider case, so only the status decides. */
  lemma ParseFallbackUsesStatus(status: int, statusText: string)
    ensures ProviderCode(ParseFallback(status, statusText).error_code) == None
    ensures MapSupabaseError(ParseFallback(status, statusText), status).code == StatusCode(status)
  {
  }

  /**
   * `handleResponse(response)`: a status outside 200-299 throws the mapped
   * AuthError (through the parse fallback for a non-JSON body); 204 or a zero
   * content-length yields the stock success message; a JSON content type
   * yields the parsed payload (a body that does not parse throws a
   * SyntaxError); anything else yields the stock success message.
   */
  function HandleResponse<P>(r: Response<P>): (out: Result<Payload<P>, Thrown>)
    ensures !(200 <= r.status <= 299) ==>
              out.Failure? && out.error.ThrownAuthError? && out.error.authError.statusCode == r.status
    ensures (200 <= r.status <= 299) && (r.status == 204 || r.contentLength == Some("0")) ==>
              out == Success(SuccessMessage)
    ensures out.Success? && out.value.Parsed? ==> r.body == JsonPayload(out.value.payload)
  {
    if !(200 <= r.status <= 299) then
      var data := match r.body
        case JsonError(e) => e
        case _ => ParseFallback(r.status, r.statusText);
      Failure(ThrownAuthError(MapSupabaseError(data, r.status)))
    else if r.status == 204 || r.contentLength == Some("0") then
      Success(SuccessMessage)
    else if r.contentType.Some? && JsStrings.Includes(r.contentType.value, "application/json") then
      match r.body
      case JsonPayload(p) => Success(Parsed(p))
      case Unparsable(m) => Failure(ThrownError(false, "SyntaxError", m))
      case JsonError(_) => Success(SuccessMessage)
    else
      Success(SuccessMessage)
  }

  // ---------------------------------------------------------------------------
  // makeRequest

  /**
   * The catch block of makeRequest: an AuthError is rethrown unchanged, an
   * AbortError becomes TIMEOUT/408, a TypeError mentioning 'fetch' becomes
   * NETWORK_ERROR/0, anything else UNKNOWN_ERROR/500. Each case passes a
   * non-empty user message, which the AuthError constructor keeps.
   */
  function ClassifyException(t: Thrown): (e: AuthError)
    ensures t.ThrownAuthError? ==> e == t.authError
    ensures t.ThrownError? && t.name == "AbortError" ==> e.code == Timeout && e.statusCode == 408
    ensures t.ThrownError? && t.name != "AbortError" && t.isTypeError && JsStrings.Includes(t.message, "fetch") ==>
              e.code == NetworkError && e.statusCode == 0
    ensures t.ThrownNonError? ==> e.code == UnknownError && e.statusCode == 500 && e.message == "Unknown error"
    ensures t.ThrownError? && t.name != "AbortError" && !(t.isTypeError && JsStrings.Includes(t.message, "fetch")) ==>
              e.code == UnknownError && e.statusCode == 500 && e.message == t.message
  {
    match t
    case ThrownAuthError(a) => a
    case ThrownError(isTypeError, name, message) =>
      if name == "AbortError" then
        AuthError("Request timeout", Timeout, 408,
          "The request is taking too long. Please check your internet connection.")
      else if isTypeError && JsStrings.Includes(message, "fetch") then
        AuthError("Network error", NetworkError, 0,
          "Could not connect to the server. Please check your internet connection.")
      else
        AuthError(message, UnknownError, 500, GenericUserMessage)
    case ThrownNonError =>
      AuthError("Unknown error", UnknownError, 500, GenericUserMessage)
  }

  /** How the fetch itself ended: with a response, or by throwing. */
  datatype FetchOutcome<P> = Responded(response: Response<P>) | FetchThrew(thrown: Thrown)

  /**
   * `makeRequest(url, options, operation)`: the fetched response goes
   * through handleResponse, and anything thrown on the way is turned into an
   * AuthError, so a failed request always rejects with an AuthError.
   */
  function MakeRequest<P>(f: FetchOutcome<P>): (r: Result<Payload<P>, AuthError>)
    ensures f.Responded? && !(200 <= f.response.status <= 299) ==>
              r.Failure? && r.error.statusCode == f.response.status
    ensures f.Responded? && f.response.body.JsonError? && !(200 <= f.response.status <= 299) ==>
              r == Failure(MapSupabaseError(f.response.body.error, f.response.status))
    ensures f.FetchThrew? ==> r == Failure(ClassifyException(f.thrown))
  {
    var handled := match f
      case Responded(resp) => HandleResponse(resp)
      case FetchThrew(t) => Failure(t);
    match handled
    case Success(p) => Success(p)
    case Failure(t) => Failure(ClassifyException(t))
  }

  /** An error status never comes back as a success, and its AuthError is never rewrapped. */
  lemma ErrorStatusKeepsMapping<P>(resp: Response<P>)
    requires !(200 <= resp.status <= 299)
    ensures var data := if resp.body.JsonError? then resp.body.error else ParseFallback(resp.status, resp.statusText);
      MakeRequest(Responded(resp)) == Failure(MapSupabaseError(data, resp.status))
  {
  }

  /**
   * `formatErrorMessage(error)`: an AuthError shows its user message, any
   * other Error its message, anything else a fixed text.
   */
  function FormatErrorMessage(t: Thrown): (m: string)
    ensures t.ThrownAuthError? ==> m == t.authError.userMessage
    ensures t.ThrownError? ==> m == t.message
    ensures t.ThrownNonError? ==> m == "An unexpected error occurred"
  {
    match t
    case ThrownAuthError(a) => a.userMessage
    case ThrownError(_, _, message) => message
    case ThrownNonError => "An unexpected error occurred"
  }
}
