/** HTTP status codes and their classes, as section 15 of RFC 9110 defines them. */
module Http {

  /** `http::StatusCode`: a three-digit code. */
  newtype StatusCode = c: int | 100 <= c <= 999 witness 100

  const BAD_REQUEST: StatusCode := 400
  const UNAUTHORIZED: StatusCode := 401
  const FORBIDDEN: StatusCode := 403
  const INTERNAL_SERVER_ERROR: StatusCode := 500
  const SERVICE_UNAVAILABLE: StatusCode := 503

  /** 2xx (Successful), section 15.3 of RFC 9110. */
  predicate IsSuccess(s: StatusCode)
  {
    200 <= s <= 299
  }

  /** 4xx (Client Error), section 15.5 of RFC 9110. */
  predicate IsClientError(s: StatusCode)
  {
    400 <= s <= 499
  }

  /** 5xx (Server Error), section 15.6 of RFC 9110. */
  predicate IsServerError(s: StatusCode)
  {
    500 <= s <= 599
  }
}
