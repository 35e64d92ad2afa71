/**
 * `TogetherAIService`: the client of the chat-completions endpoint. The
 * network call is a parameter `fetch` from the request to its outcome;
 * `JSON.stringify` is `encode`, `JSON.parse` is `decode` and `String(v)` is
 * `show`. The abort timer around the call is not modelled.
 */
module TogetherAi {
  import opened Wrappers
  import Js
  import Text
  import ApiErrors
  import AuditPrompt
  import opened Exceptions

  const API_URL: string := "https://api.together.xyz/v1/chat/completions"
  const MODEL: string := "meta-llama/Llama-3-70b-chat-hf"
  const TIMEOUT_MS: nat := 60000

  /** A constructed service; its key is never empty. */
  datatype Service = Service(apiKey: string)

  /** `new TogetherAIService(apiKey)`: an empty key throws the configuration error. */
  function NewService(apiKey: string): (r: Result<Service, Thrown>)
    ensures r.Failure? <==> apiKey == ""
    ensures r.Failure? ==> r.error == ApiFailure(ApiErrors.CreateConfigurationError())
    ensures r.Success? ==> r.value.apiKey == apiKey
  {
    if apiKey == "" then Failure(ApiFailure(ApiErrors.CreateConfigurationError()))
    else Success(Service(apiKey))
  }

  /** `buildHeaders()`: a bearer token and the JSON content type. */
  function BuildHeaders(service: Service): (h: seq<(string, string)>)
    ensures |h| == 2
    ensures h[0] == ("Authorization", "Bearer " + service.apiKey)
    ensures h[1] == ("Content-Type", "application/json")
  {
    [("Authorization", "Bearer " + service.apiKey), ("Content-Type", "application/json")]
  }

  /** `buildRequest(prompt)`: the fixed model, one user message holding the prompt, a JSON-object reply format. */
  function BuildRequest(prompt: string): (v: Js.Value)
    ensures Js.Get(v, "model") == Js.Str(MODEL)
    ensures Js.Get(v, "messages") == Js.Arr([Js.Obj([("role", Js.Str("user")), ("content", Js.Str(prompt))])])
  {
    var fields := [
      ("model", Js.Str(MODEL)),
      ("messages", Js.Arr([Js.Obj([("role", Js.Str("user")), ("content", Js.Str(prompt))])])),
      ("response_format", Js.Obj([("type", Js.Str("json_object"))])),
      ("temperature", Js.Num(0.3))
    ];
    Js.LookupFirst(fields, "messages", 1);
    Js.Obj(fields)
  }

  /** The request asks for a JSON object as the reply. */
  lemma BuildRequestFormat(prompt: string)
    ensures Js.Get(Js.Get(BuildRequest(prompt), "response_format"), "type") == Js.Str("json_object")
  {
    Js.LookupFirst(BuildRequest(prompt).fields, "response_format", 2);
  }

  /** The request samples at temperature 0.3. */
  lemma BuildRequestTemperature(prompt: string)
    ensures Js.Get(BuildRequest(prompt), "temperature") == Js.Num(0.3)
  {
    Js.LookupFirst(BuildRequest(prompt).fields, "temperature", 3);
  }

  /** The request `fetch` receives. */
  datatype HttpRequest = HttpRequest(url: string, verb: string, headers: seq<(string, string)>, body: string)

  /** What `response.json()` gives: a decoded value, or the `SyntaxError` message of a body that is not JSON. */
  datatype Body = JsonBody(value: Js.Value) | Unparseable(message: string)

  datatype HttpReply = HttpReply(status: int, statusText: string, body: Body)

  /** The provider outcome: a reply with any status, or a rejected `fetch` (an abort, a network code, anything else). */
  datatype Outcome =
    | Delivered(reply: HttpReply)
    | Rejected(name: string, code: string, message: string)

  /** The statuses `handleAPIError` maps to an error of their own. */
  predicate MappedStatus(status: int) {
    || status == 401 || status == 403 || status == 429 || status == 422
    || status == 500 || status == 502 || status == 503 || status == 504
  }

  /** `response.ok`. */
  predicate Ok(status: int) {
    200 <= status <= 299
  }

  /** The call `analyzeContract(contract)` makes. */
  function RequestFor(service: Service, contract: string, encode: Js.Value -> string): (q: HttpRequest)
    ensures q.url == API_URL && q.verb == "POST" && q.headers == BuildHeaders(service)
    ensures q.body == encode(BuildRequest(AuditPrompt.BuildAuditPrompt(contract)))
  {
    HttpRequest(API_URL, "POST", BuildHeaders(service), encode(BuildRequest(AuditPrompt.BuildAuditPrompt(contract))))
  }

  const UNKNOWN_ERROR_BODY: Js.Value := Js.Obj([("error", Js.Obj([("message", Js.Str("Unknown error"))]))])

  /**
   * The message of an unmapped status: a truthy `error.message` of the body,
   * else "HTTP <status>: <statusText>".
   */
  function FallbackMessage(errorData: Js.Value, status: int, statusText: string, show: Js.Value -> string): (m: string)
    requires !errorData.Null?
    ensures var message := Js.Get(Js.Get(errorData, "error"), "message");
            && (message.Str? && message.s != "" ==> m == message.s)
            && (!Js.Truthy(message) ==> m == "HTTP " + Text.IntToString(status) + ": " + statusText)
  {
    var message := Js.Get(Js.Get(errorData, "error"), "message");
    if Js.Truthy(message) then (if message.Str? then message.s else show(message))
    else "HTTP " + Text.IntToString(status) + ": " + statusText
  }

  /** The error `handleAPIError` picks by status alone, for the mapped statuses. */
  function MappedError(status: int): (r: Option<ApiErrors.ApiError>)
    ensures r.Some? <==> MappedStatus(status)
    ensures status == 401 || status == 403 ==> r == Some(ApiErrors.CreateAuthError(status))
    ensures status == 429 ==> r == Some(ApiErrors.CreateRateLimitError())
    ensures status == 422 ==> r == Some(ApiErrors.CreateValidationError())
    ensures status == 500 || status == 502 || status == 503 || status == 504 ==>
              r == Some(ApiErrors.CreateServerError(status))
    ensures r.Some? ==> ApiErrors.WellFormed(r.value)
  {
    if status == 401 || status == 403 then Some(ApiErrors.CreateAuthError(status))
    else if status == 429 then Some(ApiErrors.CreateRateLimitError())
    else if status == 422 then Some(ApiErrors.CreateValidationError())
    else if status == 500 || status == 502 || status == 503 || status == 504 then
      Some(ApiErrors.CreateServerError(status))
    else None
  }

  /**
   * `handleAPIError(response)`, awaited: the APIError for a reply that is not
   * ok, or the `TypeError` it rejects with when the body is JSON `null` and
   * the status is not one of the mapped ones.
   */
  function HandleApiError(reply: HttpReply, show: Js.Value -> string): (r: Result<ApiErrors.ApiError, Thrown>)
    ensures MappedStatus(reply.status) ==> r == Success(MappedError(reply.status).value)
    ensures !MappedStatus(reply.status) ==>
              match reply.body
              case Unparseable(_) => r == Success(ApiErrors.CreateUnknownError(Some(reply.status), Some("Unknown error")))
              case JsonBody(v) =>
                if v.Null? then r == Failure(PropertyOfNullish(true, "error"))
                else r.Success? && r.value.code == ApiErrors.UnknownError
                     && r.value.statusCode == (if reply.status == 0 then 500 else reply.status)
    ensures !MappedStatus(reply.status) && reply.body.JsonBody? && !reply.body.value.Null? ==>
              r == Success(ApiErrors.CreateUnknownError(Some(reply.status),
                     Some(FallbackMessage(reply.body.value, reply.status, reply.statusText, show))))
    ensures r.Success? ==> ApiErrors.WellFormed(r.value)
  {
    var errorData := match reply.body
      case JsonBody(v) => v
      case Unparseable(_) => UNKNOWN_ERROR_BODY;
    var status := reply.status;
    match MappedError(status)
    case Some(e) => Success(e)
    case None =>
      if errorData.Null? then Failure(PropertyOfNullish(true, "error"))
      else Success(ApiErrors.CreateUnknownError(Some(status), Some(FallbackMessage(errorData, status, reply.statusText, show))))
  }

  /** An unmapped status with an unparseable body reports "Unknown error". */
  lemma UnparseableBodyMessage(status: int, statusText: string, message: string, show: Js.Value -> string)
    requires !MappedStatus(status)
    ensures HandleApiError(HttpReply(status, statusText, Unparseable(message)), show).Success?
    ensures HandleApiError(HttpReply(status, statusText, Unparseable(message)), show).value.message == "Unknown error"
  {
    var m := FallbackMessage(UNKNOWN_ERROR_BODY, status, statusText, show);
    assert Js.Get(Js.Get(UNKNOWN_ERROR_BODY, "error"), "message") == Js.Str("Unknown error");
    assert m == "Unknown error";
  }

  /** An unmapped status whose body carries no error message reports the status line. */
  lemma StatusLineMessage(status: int, statusText: string, v: Js.Value, show: Js.Value -> string)
    requires !MappedStatus(status)
    requires !v.Null? && !Js.Truthy(Js.Get(Js.Get(v, "error"), "message"))
    ensures HandleApiError(HttpReply(status, statusText, JsonBody(v)), show)
         == Success(ApiErrors.CreateUnknownError(Some(status), Some("HTTP " + Text.IntToString(status) + ": " + statusText)))
  {
  }

  /**
   * `parseResponse(data)`: the array the model's reply content decodes to;
   * INVALID_RESPONSE when the envelope lacks a truthy `choices`, `choices[0]`,
   * `message` or `content`, or the content decodes to something other than an
   * array; PARSE_ERROR when it does not decode.
   */
  function ParseResponse(data: Js.Value, decode: Js.Value -> Option<Js.Value>): (r: Result<seq<Js.Value>, Thrown>)
    ensures Js.Nullish(data) ==> r == Failure(PropertyOfNullish(data.Null?, "choices"))
    ensures r.Success? ==>
              var content := Js.Get(Js.Get(Js.First(Js.Get(data, "choices")), "message"), "content");
              && Js.Truthy(Js.Get(data, "choices"))
              && Js.Truthy(Js.First(Js.Get(data, "choices")))
              && Js.Truthy(Js.Get(Js.First(Js.Get(data, "choices")), "message"))
              && Js.Truthy(content)
              && decode(content) == Some(Js.Arr(r.value))
    ensures !Js.Nullish(data) ==>
              var choices := Js.Get(data, "choices");
              var message := Js.Get(Js.First(choices), "message");
              var content := Js.Get(message, "content");
              if !Js.Truthy(choices) || !Js.Truthy(Js.First(choices)) || !Js.Truthy(message) || !Js.Truthy(content) then
                r == Failure(ApiFailure(ApiErrors.CreateInvalidResponseError()))
              else if decode(content).None? then r == Failure(ApiFailure(ApiErrors.CreateParseError()))
              else if !decode(content).value.Arr? then r == Failure(ApiFailure(ApiErrors.CreateInvalidResponseError()))
              else r.Success?
  {
    if Js.Nullish(data) then Failure(PropertyOfNullish(data.Null?, "choices"))
    else
      var choices := Js.Get(data, "choices");
      var first := Js.First(choices);
      var message := Js.Get(first, "message");
      var content := Js.Get(message, "content");
      if !Js.Truthy(choices) || !Js.Truthy(first) || !Js.Truthy(message) || !Js.Truthy(content) then
        Failure(ApiFailure(ApiErrors.CreateInvalidResponseError()))
      else match decode(content)
        case None => Failure(ApiFailure(ApiErrors.CreateParseError()))
        case Some(result) =>
          if !result.Arr? then Failure(ApiFailure(ApiErrors.CreateInvalidResponseError()))
          else Success(result.items)
  }

  /** The envelope of a reply whose first choice's message has the given content. */
  function Envelope(content: Js.Value): Js.Value {
    Js.Obj([("choices", Js.Arr([Js.Obj([("message", Js.Obj([("content", content)]))])]))])
  }

  /** Content given back in an envelope is decoded and returned unchanged when it is an array. */
  lemma ParseEnvelope(content: Js.Value, decode: Js.Value -> Option<Js.Value>)
    requires Js.Truthy(content)
    ensures decode(content).None? ==> ParseResponse(Envelope(content), decode) == Failure(ApiFailure(ApiErrors.CreateParseError()))
    ensures decode(content).Some? && !decode(content).value.Arr? ==>
              ParseResponse(Envelope(content), decode) == Failure(ApiFailure(ApiErrors.CreateInvalidResponseError()))
    ensures decode(content).Some? && decode(content).value.Arr? ==>
              ParseResponse(Envelope(content), decode) == Success(decode(content).value.items)
  {
    var e := Envelope(content);
    assert Js.Get(e, "choices") == Js.Arr([Js.Obj([("message", Js.Obj([("content", content)]))])]);
    assert Js.Get(Js.Get(Js.First(Js.Get(e, "choices")), "message"), "content") == content;
  }

  /** An envelope whose content is empty, or which has no choices, is an invalid response. */
  lemma EmptyEnvelopeInvalid(decode: Js.Value -> Option<Js.Value>)
    ensures ParseResponse(Envelope(Js.Str("")), decode) == Failure(ApiFailure(ApiErrors.CreateInvalidResponseError()))
    ensures ParseResponse(Js.Obj([("choices", Js.Arr([]))]), decode) == Failure(ApiFailure(ApiErrors.CreateInvalidResponseError()))
  {
    var e := Envelope(Js.Str(""));
    assert Js.Get(Js.Get(Js.First(Js.Get(e, "choices")), "message"), "content") == Js.Str("");
  }

  /**
   * `handleError(error)`, in this order: an abort is a timeout; the codes
   * ENOTFOUND and ECONNREFUSED are network errors; a value with a truthy
   * `code` and `statusCode` is passed on as it is; anything else becomes an
   * unknown error carrying the value's own message.
   */
  function HandleError(t: Thrown): (r: Thrown)
    ensures Name(t) == "AbortError" ==> r == ApiFailure(ApiErrors.CreateTimeoutError())
    ensures Name(t) != "AbortError" && (Code(t) == "ENOTFOUND" || Code(t) == "ECONNREFUSED") ==>
              r == ApiFailure(ApiErrors.CreateNetworkError())
    ensures Name(t) != "AbortError" && Code(t) != "ENOTFOUND" && Code(t) != "ECONNREFUSED" ==>
              if Code(t) != "" && StatusCode(t) != 0 then r == t
              else r == ApiFailure(ApiErrors.CreateUnknownError(None, Message(t)))
  {
    if Name(t) == "AbortError" then ApiFailure(ApiErrors.CreateTimeoutError())
    else if Code(t) == "ENOTFOUND" || Code(t) == "ECONNREFUSED" then ApiFailure(ApiErrors.CreateNetworkError())
    else if Code(t) != "" && StatusCode(t) != 0 then t
    else ApiFailure(ApiErrors.CreateUnknownError(None, Message(t)))
  }

  /** Every factory error is passed on unchanged: its code is never a network code and its status is not 0. */
  lemma HandleErrorKeepsApiErrors(e: ApiErrors.ApiError)
    requires ApiErrors.WellFormed(e)
    ensures HandleError(ApiFailure(e)) == ApiFailure(e)
  {
    assert ApiErrors.CodeName(e.code) != "";
    assert ApiErrors.CodeName(e.code) != "ENOTFOUND" && ApiErrors.CodeName(e.code) != "ECONNREFUSED";
  }

  /** `handleError` only ever yields a well-formed API error, or a value that already passed its shape test. */
  lemma HandleErrorYieldsApiError(t: Thrown)
    requires t.ApiFailure? ==> ApiErrors.WellFormed(t.api)
    requires !t.ValidationFailure?
    ensures HandleError(t).ApiFailure? && ApiErrors.WellFormed(HandleError(t).api)
  {
    if t.ApiFailure? {
      HandleErrorKeepsApiErrors(t.api);
    }
  }

  /** The `Error` a rejected `fetch` throws. */
  function RejectionError(outcome: Outcome): Thrown
    requires outcome.Rejected?
  {
    RuntimeError(outcome.name, outcome.code, outcome.message)
  }

  /**
   * What `analyzeContract` makes of the provider outcome, with
   * `handleAPIError` awaited before its result is thrown, which is what line
   * 34 evidently intends. Every failure is a well-formed API error.
   */
  function Settle(outcome: Outcome, decode: Js.Value -> Option<Js.Value>, show: Js.Value -> string)
    : (r: Result<seq<Js.Value>, Thrown>)
    ensures r.Failure? ==> r.error.ApiFailure? && ApiErrors.WellFormed(r.error.api)
  {
    match outcome
    case Rejected(_, _, _) =>
      HandleErrorYieldsApiError(RejectionError(outcome));
      Failure(HandleError(RejectionError(outcome)))
    case Delivered(reply) =>
      if !Ok(reply.status) then
        match HandleApiError(reply, show)
        case Success(e) =>
          HandleErrorKeepsApiErrors(e);
          Failure(HandleError(ApiFailure(e)))
        case Failure(t) =>
          HandleErrorYieldsApiError(t);
          Failure(HandleError(t))
      else match reply.body
        case Unparseable(message) =>
          HandleErrorYieldsApiError(RuntimeError("SyntaxError", "", message));
          Failure(HandleError(RuntimeError("SyntaxError", "", message)))
        case JsonBody(data) =>
          match ParseResponse(data, decode)
          case Success(items) => Success(items)
          case Failure(t) =>
            HandleErrorYieldsApiError(t);
            Failure(HandleError(t))
  }

  /**
   * The same, as written: line 34 throws the Promise that the `async`
   * `handleAPIError` returns, without awaiting it.
   */
  function SettleAsWritten(outcome: Outcome, decode: Js.Value -> Option<Js.Value>, show: Js.Value -> string)
    : (r: Result<seq<Js.Value>, Thrown>)
    ensures r.Failure? ==> r.error.ApiFailure?
  {
    if outcome.Delivered? && !Ok(outcome.reply.status) then Failure(HandleError(PendingPromise))
    else Settle(outcome, decode, show)
  }

  /** `analyzeContract(contract)`: the prompt is sent, and the outcome settled. */
  function AnalyzeContract(service: Service, contract: string, fetch: HttpRequest -> Outcome,
                           encode: Js.Value -> string, decode: Js.Value -> Option<Js.Value>,
                           show: Js.Value -> string): Result<seq<Js.Value>, Thrown>
  {
    Settle(fetch(RequestFor(service, contract, encode)), decode, show)
  }

  /** `analyzeContract(contract)` as written. */
  function AnalyzeContractAsWritten(service: Service, contract: string, fetch: HttpRequest -> Outcome,
                                    encode: Js.Value -> string, decode: Js.Value -> Option<Js.Value>,
                                    show: Js.Value -> string): Result<seq<Js.Value>, Thrown>
  {
    SettleAsWritten(fetch(RequestFor(service, contract, encode)), decode, show)
  }

  /** The error every reply that is not ok ends in, as written. */
  const PROMISE_OUTCOME: ApiErrors.ApiError := ApiErrors.CreateUnknownError(None, None)

  /**
   * As written, every reply that is not ok, whatever its status and body,
   * surfaces as UNKNOWN_ERROR with status 500 and the default message; the
   * two versions agree on every other outcome.
   */
  lemma AsWrittenLosesStatus(outcome: Outcome, decode: Js.Value -> Option<Js.Value>, show: Js.Value -> string)
    ensures outcome.Delivered? && !Ok(outcome.reply.status) ==>
              SettleAsWritten(outcome, decode, show) == Failure(ApiFailure(PROMISE_OUTCOME))
    ensures !(outcome.Delivered? && !Ok(outcome.reply.status)) ==>
              SettleAsWritten(outcome, decode, show) == Settle(outcome, decode, show)
    ensures PROMISE_OUTCOME == ApiErrors.ApiError(ApiErrors.UnknownError, ApiErrors.DEFAULT_UNKNOWN_MESSAGE, 500, false)
  {
  }

  /** A 401 reply: as written the client reports an unknown 500 error, the intended version an invalid key. */
  lemma InvalidKeyReply(statusText: string, body: Body, decode: Js.Value -> Option<Js.Value>, show: Js.Value -> string)
    ensures SettleAsWritten(Delivered(HttpReply(401, statusText, body)), decode, show)
         == Failure(ApiFailure(PROMISE_OUTCOME))
    ensures Settle(Delivered(HttpReply(401, statusText, body)), decode, show)
         == Failure(ApiFailure(ApiErrors.CreateAuthError(401)))
    ensures ApiErrors.CreateAuthError(401).code == ApiErrors.InvalidApiKey
    ensures ApiErrors.CreateAuthError(401).statusCode == 401
  {
    HandleErrorKeepsApiErrors(ApiErrors.CreateAuthError(401));
  }

  /** A reply that is not ok ends in the error its status maps to, passed on by `handleError`. */
  lemma NotOkReplyKeepsItsError(reply: HttpReply, decode: Js.Value -> Option<Js.Value>, show: Js.Value -> string)
    requires !Ok(reply.status)
    requires HandleApiError(reply, show).Success?
    ensures Settle(Delivered(reply), decode, show) == Failure(ApiFailure(HandleApiError(reply, show).value))
  {
    HandleErrorKeepsApiErrors(HandleApiError(reply, show).value);
  }

  /** The client succeeds exactly on an ok reply whose JSON envelope parses, and returns the parsed array. */
  lemma SettleSucceedsIff(outcome: Outcome, decode: Js.Value -> Option<Js.Value>, show: Js.Value -> string)
    ensures Settle(outcome, decode, show).Success? <==>
              && outcome.Delivered? && Ok(outcome.reply.status) && outcome.reply.body.JsonBody?
              && ParseResponse(outcome.reply.body.value, decode).Success?
    ensures Settle(outcome, decode, show).Success? ==>
              Settle(outcome, decode, show) == ParseResponse(outcome.reply.body.value, decode)
  {
  }

  /** An ok reply whose envelope `parseResponse` rejects with an API error ends in that same error. */
  lemma OkReplyParseFailureKept(reply: HttpReply, decode: Js.Value -> Option<Js.Value>, show: Js.Value -> string)
    requires Ok(reply.status) && reply.body.JsonBody?
    requires ParseResponse(reply.body.value, decode).Failure?
    requires ParseResponse(reply.body.value, decode).error.ApiFailure?
    ensures Settle(Delivered(reply), decode, show) == ParseResponse(reply.body.value, decode)
  {
    var e := ParseResponse(reply.body.value, decode).error.api;
    assert e == ApiErrors.CreateInvalidResponseError() || e == ApiErrors.CreateParseError();
    HandleErrorKeepsApiErrors(e);
  }

  /** On an ok reply with a JSON `null` body, `parseResponse` throws reading `choices`, which surfaces as an unknown error carrying that message. */
  lemma OkNullBody(status: int, statusText: string, decode: Js.Value -> Option<Js.Value>, show: Js.Value -> string)
    requires Ok(status)
    ensures Settle(Delivered(HttpReply(status, statusText, JsonBody(Js.Null))), decode, show)
         == Failure(ApiFailure(ApiErrors.CreateUnknownError(None, Some("Cannot read properties of null (reading 'choices')"))))
  {
    var t := PropertyOfNullish(true, "choices");
    assert ParseResponse(Js.Null, decode) == Failure(t);
    assert t.message == "Cannot read properties of " + "null" + " (reading '" + "choices" + "')";
    assert t.message == "Cannot read properties of null (reading 'choices')";
    assert HandleError(t) == ApiFailure(ApiErrors.CreateUnknownError(None, Message(t)));
  }

  /** On an unmapped status with a JSON `null` body, `handleAPIError` throws reading `error`, which surfaces as an unknown error carrying that message. */
  lemma UnmappedNullBody(status: int, statusText: string, decode: Js.Value -> Option<Js.Value>, show: Js.Value -> string)
    requires !Ok(status) && !MappedStatus(status)
    ensures Settle(Delivered(HttpReply(status, statusText, JsonBody(Js.Null))), decode, show)
         == Failure(ApiFailure(ApiErrors.CreateUnknownError(None, Some("Cannot read properties of null (reading 'error')"))))
  {
    var t := PropertyOfNullish(true, "error");
    assert HandleApiError(HttpReply(status, statusText, JsonBody(Js.Null)), show) == Failure(t);
    assert t.message == "Cannot read properties of " + "null" + " (reading '" + "error" + "')";
    assert t.message == "Cannot read properties of null (reading 'error')";
    assert HandleError(t) == ApiFailure(ApiErrors.CreateUnknownError(None, Message(t)));
  }

  /** A rejected `fetch` surfaces as a timeout, a network error or an unknown error with the rejection's message. */
  lemma RejectedFetch(name: string, code: string, message: string,
                      decode: Js.Value -> Option<Js.Value>, show: Js.Value -> string)
    ensures var r := Settle(Rejected(name, code, message), decode, show);
            && (name == "AbortError" ==> r == Failure(ApiFailure(ApiErrors.CreateTimeoutError())))
            && (name != "AbortError" && (code == "ENOTFOUND" || code == "ECONNREFUSED") ==>
                  r == Failure(ApiFailure(ApiErrors.CreateNetworkError())))
            && (name != "AbortError" && code != "ENOTFOUND" && code != "ECONNREFUSED" ==>
                  r == Failure(ApiFailure(ApiErrors.CreateUnknownError(None, Some(message)))))
  {
  }

  /** An ok reply whose body is not JSON surfaces as an unknown error carrying the `SyntaxError` message. */
  lemma UnparseableOkReply(status: int, statusText: string, message: string,
                           decode: Js.Value -> Option<Js.Value>, show: Js.Value -> string)
    requires Ok(status)
    ensures Settle(Delivered(HttpReply(status, statusText, Unparseable(message))), decode, show)
         == Failure(ApiFailure(ApiErrors.CreateUnknownError(None, Some(message))))
  {
  }

  /** Whatever the contract, a provider that answers 401 makes the client report the unknown error as written, and the invalid key when awaited. */
  lemma RejectedKeyClient(service: Service, contract: string, fetch: HttpRequest -> Outcome, encode: Js.Value -> string,
                          decode: Js.Value -> Option<Js.Value>, show: Js.Value -> string, statusText: string, body: Body)
    requires forall q :: fetch(q) == Delivered(HttpReply(401, statusText, body))
    ensures AnalyzeContractAsWritten(service, contract, fetch, encode, decode, show) == Failure(ApiFailure(PROMISE_OUTCOME))
    ensures AnalyzeContract(service, contract, fetch, encode, decode, show) == Failure(ApiFailure(ApiErrors.CreateAuthError(401)))
  {
    var q := RequestFor(service, contract, encode);
    assert fetch(q) == Delivered(HttpReply(401, statusText, body));
    InvalidKeyReply(statusText, body, decode, show);
  }
}
