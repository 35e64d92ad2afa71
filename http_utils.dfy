/**
 * `HTTPUtils`: the JSON responses of the analysis endpoint, as records of a
 * status, a JSON body and the extra headers set on the response.
 */
module HttpUtils {
  import opened Wrappers
  import Js
  import ApiErrors
  import ContractValidator

  datatype Response = Response(status: int, body: Js.Value, headers: seq<(string, string)>)

  /** The body `{ error, code, retryable }` every error response starts with. */
  function ErrorFields(message: string, code: string, retryable: bool): seq<(string, Js.Value)> {
    [("error", Js.Str(message)), ("code", Js.Str(code)), ("retryable", Js.Bool(retryable))]
  }

  /** The three members of an error body, read back from it, also when more fields follow. */
  lemma ErrorFieldsRead(message: string, code: string, retryable: bool, more: seq<(string, Js.Value)>)
    ensures var body := Js.Obj(ErrorFields(message, code, retryable) + more);
            && Js.Get(body, "error") == Js.Str(message)
            && Js.Get(body, "code") == Js.Str(code)
            && Js.Get(body, "retryable") == Js.Bool(retryable)
  {
    var fields := ErrorFields(message, code, retryable) + more;
    Js.LookupFirst(fields, "code", 1);
    Js.LookupFirst(fields, "retryable", 2);
  }

  /** `createErrorResponse(error)`: the error's own status, message, code and retry flag. */
  function CreateErrorResponse(error: ApiErrors.ApiError): (r: Response)
    ensures r.status == error.statusCode && r.headers == []
    ensures Js.Get(r.body, "error") == Js.Str(error.message)
    ensures Js.Get(r.body, "code") == Js.Str(ApiErrors.CodeName(error.code))
    ensures Js.Get(r.body, "retryable") == Js.Bool(error.retryable)
  {
    ErrorFieldsRead(error.message, ApiErrors.CodeName(error.code), error.retryable, []);
    Response(error.statusCode, Js.Obj(ErrorFields(error.message, ApiErrors.CodeName(error.code), error.retryable) + []), [])
  }

  /** `createValidationErrorResponse(error)`: the error's status, message and code; never retryable. */
  function CreateValidationErrorResponse(error: ContractValidator.ContractValidationError): (r: Response)
    ensures r.status == error.statusCode && r.headers == []
    ensures Js.Get(r.body, "error") == Js.Str(error.message)
    ensures Js.Get(r.body, "code") == Js.Str(ContractValidator.CodeName(error.code))
    ensures Js.Get(r.body, "retryable") == Js.Bool(false)
  {
    ErrorFieldsRead(error.message, ContractValidator.CodeName(error.code), false, []);
    Response(error.statusCode, Js.Obj(ErrorFields(error.message, ContractValidator.CodeName(error.code), false) + []), [])
  }

  /** The headers that keep a successful analysis out of every cache. */
  const NO_CACHE_HEADERS: seq<(string, string)> :=
    [("Cache-Control", "no-cache, no-store, must-revalidate"), ("Pragma", "no-cache"), ("Expires", "0")]

  /** The value of a header, the first one of that name. */
  function Header(headers: seq<(string, string)>, name: string): Option<string> {
    if headers == [] then None
    else if headers[0].0 == name then Some(headers[0].1)
    else Header(headers[1..], name)
  }

  /** `createSuccessResponse(data)`: status 200, the data as it is, and the no-cache headers. */
  function CreateSuccessResponse(data: Js.Value): (r: Response)
    ensures r.status == 200 && r.body == data
    ensures Header(r.headers, "Cache-Control") == Some("no-cache, no-store, must-revalidate")
    ensures Header(r.headers, "Pragma") == Some("no-cache")
    ensures Header(r.headers, "Expires") == Some("0")
    ensures |r.headers| == 3
  {
    assert Header(NO_CACHE_HEADERS[2..], "Expires") == Some("0");
    Response(200, data, NO_CACHE_HEADERS)
  }

  const INVALID_JSON_MESSAGE := "Invalid JSON in request body"

  /** `createJSONParseErrorResponse()`: 400 INVALID_JSON, not retryable. */
  function CreateJsonParseErrorResponse(): (r: Response)
    ensures r.status == 400 && r.headers == []
    ensures Js.Get(r.body, "error") == Js.Str("Invalid JSON in request body")
    ensures Js.Get(r.body, "code") == Js.Str("INVALID_JSON")
    ensures Js.Get(r.body, "retryable") == Js.Bool(false)
  {
    ErrorFieldsRead(INVALID_JSON_MESSAGE, "INVALID_JSON", false, []);
    Response(400, Js.Obj(ErrorFields(INVALID_JSON_MESSAGE, "INVALID_JSON", false) + []), [])
  }

  /**
   * `createInternalErrorResponse(error, isDevelopment)`: 500 INTERNAL_ERROR,
   * not retryable, with the default analysis message. `details` holds
   * `error.message` in development only; `JSON.stringify` drops it when it
   * is `undefined`, so it is absent otherwise.
   */
  function CreateInternalErrorResponse(message: Option<string>, isDevelopment: bool): (r: Response)
    ensures r.status == 500 && r.headers == []
    ensures Js.Get(r.body, "error") == Js.Str(ApiErrors.DEFAULT_UNKNOWN_MESSAGE)
    ensures Js.Get(r.body, "code") == Js.Str("INTERNAL_ERROR")
    ensures Js.Get(r.body, "retryable") == Js.Bool(false)
    ensures Js.Get(r.body, "details") == if isDevelopment && message.Some? then Js.Str(message.value) else Js.Undefined
  {
    var details := if isDevelopment && message.Some? then [("details", Js.Str(message.value))] else [];
    var fields := ErrorFields(ApiErrors.DEFAULT_UNKNOWN_MESSAGE, "INTERNAL_ERROR", false) + details;
    ErrorFieldsRead(ApiErrors.DEFAULT_UNKNOWN_MESSAGE, "INTERNAL_ERROR", false, details);
    if details == [] then Response(500, Js.Obj(fields), [])
    else
      Js.LookupFirst(fields, "details", 3);
      Response(500, Js.Obj(fields), [])
  }

  /** Only the internal error response can carry `details`, and only in development. */
  lemma DetailsOnlyInDevelopment(message: Option<string>)
    ensures Js.Get(CreateInternalErrorResponse(message, false).body, "details") == Js.Undefined
    ensures message.Some? ==> Js.Get(CreateInternalErrorResponse(message, true).body, "details") == Js.Str(message.value)
  {
  }
}
