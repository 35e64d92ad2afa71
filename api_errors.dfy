/**
 * `APIErrorFactory`: the fixed table of errors the provider client raises,
 * each a record of a code, a user-facing message, an HTTP status and whether
 * the caller may retry. Long messages are written as a concatenation of
 * short pieces; the message is the text they spell together.
 */
module ApiErrors {
  import opened Wrappers

  datatype ErrorCode =
    | InvalidApiKey
    | Forbidden
    | RateLimitExceeded
    | ServerError
    | InvalidRequest
    | Timeout
    | NetworkError
    | ParseError
    | InvalidResponse
    | ServiceMisconfigured
    | UnknownError

  /** The `code` string of each error. */
  function CodeName(c: ErrorCode): string {
    match c
    case InvalidApiKey => "INVALID_API_KEY"
    case Forbidden => "FORBIDDEN"
    case RateLimitExceeded => "RATE_LIMIT_EXCEEDED"
    case ServerError => "SERVER_ERROR"
    case InvalidRequest => "INVALID_REQUEST"
    case Timeout => "TIMEOUT"
    case NetworkError => "NETWORK_ERROR"
    case ParseError => "PARSE_ERROR"
    case InvalidResponse => "INVALID_RESPONSE"
    case ServiceMisconfigured => "SERVICE_MISCONFIGURED"
    case UnknownError => "UNKNOWN_ERROR"
  }

  /** Distinct codes have distinct names, so the string form loses nothing. */
  lemma CodeNameInjective(a: ErrorCode, b: ErrorCode)
    ensures CodeName(a) == CodeName(b) ==> a == b
  {
  }

  /** The `APIError` record. */
  datatype ApiError = ApiError(code: ErrorCode, message: string, statusCode: int, retryable: bool)

  /**
   * What every factory guarantees: a message, a non-zero status (both truthy,
   * so the error passes the route's and the client's shape tests) and a
   * retry flag that agrees with the code.
   */
  predicate WellFormed(e: ApiError) {
    e.message != "" && e.statusCode != 0 && e.retryable == IsRetryable(e.code)
  }

  const DEFAULT_UNKNOWN_MESSAGE := "An unexpected " + "error occurred " + "during analysis"

  /**
   * `createAuthError(status)`: 401 and 403 have their own non-retryable
   * errors; any other status becomes an unknown error carrying that status.
   */
  function CreateAuthError(status: int): (e: ApiError)
    ensures status == 401 ==> e.code == InvalidApiKey && e.statusCode == 401
    ensures status == 403 ==> e.code == Forbidden && e.statusCode == 403
    ensures status != 401 && status != 403 ==>
              e == CreateUnknownError(Some(status), None)
              && e.statusCode == (if status == 0 then 500 else status)
              && e.message == DEFAULT_UNKNOWN_MESSAGE
    ensures !e.retryable && !IsRetryable(e.code)
    ensures WellFormed(e)
  {
    if status == 401 then
      ApiError(InvalidApiKey, "API key is " + "invalid or " + "expired. Please " + "check your " + "Together AI API " + "key.", 401, false)
    else if status == 403 then
      ApiError(Forbidden, "Access " + "forbidden. Your " + "API key may not " + "have the " + "required " + "permissions.", 403, false)
    else
      CreateUnknownError(Some(status), None)
  }

  function CreateRateLimitError(): (e: ApiError)
    ensures e.code == RateLimitExceeded && e.statusCode == 429 && e.retryable == IsRetryable(e.code)
    ensures WellFormed(e)
  {
    ApiError(RateLimitExceeded, "Rate limit " + "exceeded. " + "Please try " + "again in a few " + "minutes.", 429, true)
  }

  /** `createServerError(status)`: the status argument is not used, the result is always 503. */
  function CreateServerError(status: int): (e: ApiError)
    ensures e.code == ServerError && e.statusCode == 503 && e.retryable == IsRetryable(e.code)
    ensures WellFormed(e)
  {
    ApiError(ServerError, "Together AI " + "service is " + "temporarily " + "unavailable. " + "Please try " + "again later.", 503, true)
  }

  function CreateValidationError(): (e: ApiError)
    ensures e.code == InvalidRequest && e.statusCode == 422 && e.retryable == IsRetryable(e.code)
    ensures WellFormed(e)
  {
    ApiError(InvalidRequest, "Invalid request " + "format or " + "parameters.", 422, false)
  }

  function CreateTimeoutError(): (e: ApiError)
    ensures e.code == Timeout && e.statusCode == 408 && e.retryable == IsRetryable(e.code)
    ensures WellFormed(e)
  {
    ApiError(Timeout, "Request timed " + "out. The " + "analysis is " + "taking too " + "long. Please " + "try again.", 408, true)
  }

  function CreateNetworkError(): (e: ApiError)
    ensures e.code == NetworkError && e.statusCode == 503 && e.retryable == IsRetryable(e.code)
    ensures WellFormed(e)
  {
    ApiError(NetworkError, "Network error. " + "Please check " + "your internet " + "connection and " + "try again.", 503, true)
  }

  function CreateParseError(): (e: ApiError)
    ensures e.code == ParseError && e.statusCode == 502 && e.retryable == IsRetryable(e.code)
    ensures WellFormed(e)
  {
    ApiError(ParseError, "Failed to parse " + "AI response. " + "The response " + "may be " + "malformed.", 502, true)
  }

  function CreateInvalidResponseError(): (e: ApiError)
    ensures e.code == InvalidResponse && e.statusCode == 502 && e.retryable == IsRetryable(e.code)
    ensures WellFormed(e)
  {
    ApiError(InvalidResponse, "Invalid " + "response format " + "from AI service", 502, true)
  }

  function CreateConfigurationError(): (e: ApiError)
    ensures e.code == ServiceMisconfigured && e.statusCode == 503 && e.retryable == IsRetryable(e.code)
    ensures WellFormed(e)
  {
    ApiError(ServiceMisconfigured, "AI service is " + "not properly " + "configured. " + "Please contact " + "support.", 503, false)
  }

  /**
   * `createUnknownError(status?, message?)`: `message || default` and
   * `status || 500`, so an absent or empty message and an absent or zero
   * status fall back to the defaults.
   */
  function CreateUnknownError(status: Option<int>, message: Option<string>): (e: ApiError)
    ensures e.code == UnknownError && e.retryable == IsRetryable(e.code)
    ensures e.message == if message.Some? && message.value != "" then message.value else DEFAULT_UNKNOWN_MESSAGE
    ensures e.statusCode == if status.Some? && status.value != 0 then status.value else 500
    ensures WellFormed(e)
  {
    ApiError(
      UnknownError,
      if message.Some? && message.value != "" then message.value else DEFAULT_UNKNOWN_MESSAGE,
      if status.Some? && status.value != 0 then status.value else 500,
      false)
  }

  /**
   * The retry taxonomy: transient failures (rate limiting, the provider being
   * down or slow, the network, a malformed reply) may be retried; failures
   * that repeat on every attempt may not.
   */
  predicate IsRetryable(c: ErrorCode) {
    || c == RateLimitExceeded || c == ServerError || c == Timeout
    || c == NetworkError || c == ParseError || c == InvalidResponse
  }

  /** The non-retryable codes are exactly the credential, request, configuration and unknown failures. */
  lemma NonRetryableCodes(c: ErrorCode)
    ensures !IsRetryable(c) <==>
              c == InvalidApiKey || c == Forbidden || c == InvalidRequest || c == ServiceMisconfigured || c == UnknownError
  {
  }
}
