/** `AppError` and its `IntoResponse`: the closed set of application errors, the
    message each one displays and the HTTP status each one is answered with. */
module Errors {
  import opened Wrappers
  import opened Http

  /** The six variants; each carries a static description. */
  datatype AppError =
    | Generic(detail: string)
    | InvalidInput(detail: string)
    | DatabaseError(detail: string)
    | NetworkError(detail: string)
    | AuthenticationError(detail: string)
    | AuthorizationError(detail: string)

  /** The fixed text that the `#[error]` attribute of each variant puts before the
      payload. */
  function Prefix(e: AppError): string
  {
    match e
    case Generic(_) => "An error occurred: "
    case InvalidInput(_) => "Invalid input: "
    case DatabaseError(_) => "Database error: "
    case NetworkError(_) => "Network error: "
    case AuthenticationError(_) => "Authentication failed: "
    case AuthorizationError(_) => "Authorization failed: "
  }

  /** The same variant carrying another payload. */
  function WithDetail(e: AppError, d: string): (e': AppError)
    ensures e'.detail == d
  {
    match e
    case Generic(_) => Generic(d)
    case InvalidInput(_) => InvalidInput(d)
    case DatabaseError(_) => DatabaseError(d)
    case NetworkError(_) => NetworkError(d)
    case AuthenticationError(_) => AuthenticationError(d)
    case AuthorizationError(_) => AuthorizationError(d)
  }

  /** `self.to_string()`: the variant's prefix followed by the payload. The
      payload is kept whole at the end, after a non-empty prefix ending in ": ". */
  function Message(e: AppError): (m: string)
    ensures |m| > |e.detail|
    ensures m[|m| - |e.detail|..] == e.detail
  {
    Prefix(e) + e.detail
  }

  /** The status each variant is answered with, read backwards: which variants
      produce each code. Generic and DatabaseError share 500. */
  function StatusOf(e: AppError): (s: StatusCode)
    ensures s == BAD_REQUEST <==> e.InvalidInput?
    ensures s == UNAUTHORIZED <==> e.AuthenticationError?
    ensures s == FORBIDDEN <==> e.AuthorizationError?
    ensures s == INTERNAL_SERVER_ERROR <==> e.Generic? || e.DatabaseError?
    ensures s == SERVICE_UNAVAILABLE <==> e.NetworkError?
  {
    match e
    case Generic(_) => INTERNAL_SERVER_ERROR
    case InvalidInput(_) => BAD_REQUEST
    case DatabaseError(_) => INTERNAL_SERVER_ERROR
    case NetworkError(_) => SERVICE_UNAVAILABLE
    case AuthenticationError(_) => UNAUTHORIZED
    case AuthorizationError(_) => FORBIDDEN
  }

  /** Every variant is an error status: the ones about the caller's input or
      credentials are client errors, the others server errors; none is 2xx. */
  lemma StatusIsError(e: AppError)
    ensures !IsSuccess(StatusOf(e))
    ensures IsClientError(StatusOf(e)) <==> e.InvalidInput? || e.AuthenticationError? || e.AuthorizationError?
    ensures IsServerError(StatusOf(e)) <==> e.Generic? || e.DatabaseError? || e.NetworkError?
  {
  }

  /** The status depends on the variant only, never on the payload, while the
      message carries the new payload after the same prefix. */
  lemma StatusIgnoresPayload(e: AppError, d: string)
    ensures StatusOf(WithDetail(e, d)) == StatusOf(e)
    ensures Message(WithDetail(e, d)) == Prefix(e) + d
  {
  }

  /** The part of `ApiResponse::<()>::failure(status, message)` this model
      speaks of: the code and the message placed in the JSON envelope. */
  datatype Envelope = Envelope(statusCode: int, message: string)

  /** `(status, Json(envelope)).into_response()`. */
  datatype ErrorResponse = ErrorResponse(status: StatusCode, envelope: Envelope)

  /** `AppError::into_response`: the envelope repeats the HTTP status of the
      response it travels in, and carries the displayed message. */
  function IntoResponse(e: AppError): (r: ErrorResponse)
    ensures r.envelope.statusCode == r.status as int
    ensures r.status == StatusOf(e) && !IsSuccess(r.status)
    ensures r.envelope.message == Message(e)
  {
    var status := StatusOf(e);
    ErrorResponse(status, Envelope(status as int, Message(e)))
  }

  /** Recovers the error from a displayed message, the inverse of `Message`. The
      first character tells the prefixes apart, then the second and the fifth
      among those that start with 'A'. */
  function ParseMessage(m: string): (r: Option<AppError>)
    ensures r.Some? ==> Message(r.value) == m
  {
    if |m| < 5 then None
    else
      var probe :=
        if m[0] == 'I' then InvalidInput("")
        else if m[0] == 'D' then DatabaseError("")
        else if m[0] == 'N' then NetworkError("")
        else if m[1] == 'n' then Generic("")
        else if m[4] == 'e' then AuthenticationError("")
        else AuthorizationError("");
      var p := Prefix(probe);
      if p <= m then
        assert m == p + m[|p|..];
        Some(WithDetail(probe, m[|p|..]))
      else None
  }

  /** No prefix is a prefix of another, so the message names its variant and
      its payload. */
  lemma MessageRoundTrip(e: AppError)
    ensures ParseMessage(Message(e)) == Some(e)
  {
    var m := Message(e);
    var p := Prefix(e);
    assert p <= m && m[|p|..] == e.detail;
    match e
    case Generic(_) => assert m[0] == 'A' && m[1] == 'n';
    case InvalidInput(_) => assert m[0] == 'I';
    case DatabaseError(_) => assert m[0] == 'D';
    case NetworkError(_) => assert m[0] == 'N';
    case AuthenticationError(_) => assert m[0] == 'A' && m[1] == 'u' && m[4] == 'e';
    case AuthorizationError(_) => assert m[0] == 'A' && m[1] == 'u' && m[4] == 'o';
  }

  /** Distinct errors display distinct messages. */
  lemma MessageInjective(e1: AppError, e2: AppError)
    requires Message(e1) == Message(e2)
    ensures e1 == e2
  {
    MessageRoundTrip(e1);
    MessageRoundTrip(e2);
  }
}
