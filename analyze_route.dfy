/**
 * `POST /api/analyze`: parse the body, take its `contract`, build the
 * service from the environment, analyse, and map every thrown value to a
 * response in the order of the `catch` block. `request.json()` is the
 * parsed `body` parameter, `process.env` the `env` map, and `NODE_ENV ===
 * 'development'` the flag `isDevelopment`.
 */
module AnalyzeRoute {
  import opened Wrappers
  import Js
  import Text
  import ApiErrors
  import ContractValidator
  import AuditService
  import TogetherAi
  import opened Exceptions
  import opened HttpUtils

  /** What `request.json()` gives: a JSON value, or a body that is not JSON. */
  datatype RequestBody = Parsed(value: Js.Value) | Malformed

  /**
   * The `catch` block: a validation error first, then anything with a
   * truthy code, status and message, then the internal error.
   */
  function Respond(error: Thrown, isDevelopment: bool): (r: Response)
    ensures error.ValidationFailure? ==> r == CreateValidationErrorResponse(error.error)
    ensures !error.ValidationFailure? && HasErrorShape(error) ==> error.ApiFailure? && r == CreateErrorResponse(error.api)
    ensures !error.ValidationFailure? && !HasErrorShape(error) ==>
              r == CreateInternalErrorResponse(Message(error), isDevelopment)
  {
    if error.ValidationFailure? then CreateValidationErrorResponse(error.error)
    else if HasErrorShape(error) then
      ErrorShapeCarriers(error);
      CreateErrorResponse(error.api)
    else CreateInternalErrorResponse(Message(error), isDevelopment)
  }

  /** `POST(request)`. */
  function Post(body: RequestBody, env: map<string, string>, provider: AuditService.Provider, isDevelopment: bool)
    : (r: Response)
    ensures body.Malformed? ==> r == CreateJsonParseErrorResponse()
    ensures body.Parsed? && Js.Nullish(body.value) ==>
              r == CreateInternalErrorResponse(Message(DestructureNullish(body.value.Null?, "contract", "body")), isDevelopment)
    ensures body.Parsed? && !Js.Nullish(body.value) ==>
              match AuditService.Create(env)
              case Failure(error) => r == Respond(error, isDevelopment)
              case Success(service) =>
                match AuditService.AnalyzeContract(service, Js.Get(body.value, "contract"), provider)
                case Success(result) => r == CreateSuccessResponse(Js.Arr(result))
                case Failure(error) => r == Respond(error, isDevelopment)
  {
    match body
    case Malformed => CreateJsonParseErrorResponse()
    case Parsed(value) =>
      if Js.Nullish(value) then Respond(DestructureNullish(value.Null?, "contract", "body"), isDevelopment)
      else
        var contract := Js.Get(value, "contract");
        match AuditService.Create(env)
        case Failure(error) => Respond(error, isDevelopment)
        case Success(auditService) =>
          match AuditService.AnalyzeContract(auditService, contract, provider)
          case Success(result) => CreateSuccessResponse(Js.Arr(result))
          case Failure(error) => Respond(error, isDevelopment)
  }

  /** A body that is not JSON is answered with 400 INVALID_JSON before any service exists. */
  lemma MalformedBodyRejected(env: map<string, string>, provider: AuditService.Provider, isDevelopment: bool)
    ensures Post(Malformed, env, provider, isDevelopment).status == 400
    ensures Js.Get(Post(Malformed, env, provider, isDevelopment).body, "code") == Js.Str("INVALID_JSON")
    ensures Js.Get(Post(Malformed, env, provider, isDevelopment).body, "retryable") == Js.Bool(false)
  {
  }

  /** A validated contract whose analysis succeeds is answered with 200 and the provider's array, uncached. */
  lemma SuccessfulAnalysis(value: Js.Value, env: map<string, string>, provider: AuditService.Provider,
                           isDevelopment: bool, result: seq<Js.Value>)
    requires !Js.Nullish(value)
    requires AuditService.Create(env).Success?
    requires ContractValidator.Validate(Js.Get(value, "contract")).Success?
    requires provider(AuditService.Create(env).value.togetherAI, ContractValidator.Validate(Js.Get(value, "contract")).value)
          == Success(result)
    ensures Post(Parsed(value), env, provider, isDevelopment).status == 200
    ensures Post(Parsed(value), env, provider, isDevelopment).body == Js.Arr(result)
    ensures Header(Post(Parsed(value), env, provider, isDevelopment).headers, "Pragma") == Some("no-cache")
  {
  }

  /** A contract that fails validation gets its own status (400 or 413) and is never retryable. */
  lemma ValidationErrorAnswered(value: Js.Value, env: map<string, string>, provider: AuditService.Provider,
                                isDevelopment: bool)
    requires !Js.Nullish(value)
    requires AuditService.Create(env).Success?
    requires ContractValidator.Validate(Js.Get(value, "contract")).Failure?
    ensures var r := Post(Parsed(value), env, provider, isDevelopment);
            var e := ContractValidator.Validate(Js.Get(value, "contract")).error;
            && r.status == e.statusCode
            && (r.status == 413 <==> e.code == ContractValidator.ContractTooLarge)
            && Js.Get(r.body, "code") == Js.Str(ContractValidator.CodeName(e.code))
            && Js.Get(r.body, "retryable") == Js.Bool(false)
  {
  }

  /** A body without a `contract` field is answered with 400 MISSING_CONTRACT. */
  lemma MissingContractField(fields: seq<(string, Js.Value)>, env: map<string, string>,
                             provider: AuditService.Provider, isDevelopment: bool)
    requires forall i :: 0 <= i < |fields| ==> fields[i].0 != "contract"
    requires AuditService.Create(env).Success?
    ensures Post(Parsed(Js.Obj(fields)), env, provider, isDevelopment).status == 400
    ensures Js.Get(Post(Parsed(Js.Obj(fields)), env, provider, isDevelopment).body, "code") == Js.Str("MISSING_CONTRACT")
  {
    assert Js.Get(Js.Obj(fields), "contract") == Js.Undefined;
  }

  /**
   * Without a key the service cannot be built, and the answer is 503
   * SERVICE_MISCONFIGURED whatever the contract: the key is checked before
   * the contract.
   */
  lemma MissingKeyAnswered(value: Js.Value, env: map<string, string>, provider: AuditService.Provider,
                           isDevelopment: bool)
    requires !Js.Nullish(value)
    requires AuditService.API_KEY_VARIABLE !in env || env[AuditService.API_KEY_VARIABLE] == ""
    ensures Post(Parsed(value), env, provider, isDevelopment).status == 503
    ensures Js.Get(Post(Parsed(value), env, provider, isDevelopment).body, "code") == Js.Str("SERVICE_MISCONFIGURED")
    ensures Js.Get(Post(Parsed(value), env, provider, isDevelopment).body, "retryable") == Js.Bool(false)
  {
    ErrorShapeCarriers(ApiFailure(ApiErrors.CreateConfigurationError()));
  }

  /** A JSON `null` body cannot be destructured: 500 INTERNAL_ERROR, with the `TypeError` message in development only. */
  lemma NullBodyAnswered(env: map<string, string>, provider: AuditService.Provider, isDevelopment: bool)
    ensures Post(Parsed(Js.Null), env, provider, isDevelopment).status == 500
    ensures Js.Get(Post(Parsed(Js.Null), env, provider, isDevelopment).body, "code") == Js.Str("INTERNAL_ERROR")
    ensures Js.Get(Post(Parsed(Js.Null), env, provider, isDevelopment).body, "details")
         == if isDevelopment then Js.Str(DestructureNullish(true, "contract", "body").message) else Js.Undefined
  {
  }

  /** A well-formed API error from the provider is answered with its own status, code and retry flag. */
  lemma ProviderErrorAnswered(value: Js.Value, env: map<string, string>, provider: AuditService.Provider,
                              isDevelopment: bool, e: ApiErrors.ApiError)
    requires !Js.Nullish(value)
    requires AuditService.Create(env).Success?
    requires ContractValidator.Validate(Js.Get(value, "contract")).Success?
    requires provider(AuditService.Create(env).value.togetherAI, ContractValidator.Validate(Js.Get(value, "contract")).value)
          == Failure(ApiFailure(e))
    requires ApiErrors.WellFormed(e)
    ensures Post(Parsed(value), env, provider, isDevelopment) == CreateErrorResponse(e)
    ensures Post(Parsed(value), env, provider, isDevelopment).status == e.statusCode
    ensures Js.Get(Post(Parsed(value), env, provider, isDevelopment).body, "code") == Js.Str(ApiErrors.CodeName(e.code))
  {
    ErrorShapeCarriers(ApiFailure(e));
  }

  /**
   * End to end, with the provider client as written: when the provider
   * rejects the key with 401, the endpoint answers with the response of the
   * unawaited Promise the client throws, 500 UNKNOWN_ERROR by
   * `PromiseOutcomeAnswer`, instead of 401 INVALID_API_KEY.
   */
  lemma RejectedKeyAsWritten(value: Js.Value, env: map<string, string>, isDevelopment: bool,
                             fetch: TogetherAi.HttpRequest -> TogetherAi.Outcome, encode: Js.Value -> string,
                             decode: Js.Value -> Option<Js.Value>, show: Js.Value -> string,
                             statusText: string, replyBody: TogetherAi.Body, client: AuditService.Provider)
    requires !Js.Nullish(value)
    requires AuditService.Create(env).Success?
    requires ContractValidator.Validate(Js.Get(value, "contract")).Success?
    requires forall q :: fetch(q) == TogetherAi.Delivered(TogetherAi.HttpReply(401, statusText, replyBody))
    requires forall c, s :: client(c, s) == TogetherAi.AnalyzeContractAsWritten(c, s, fetch, encode, decode, show)
    ensures Post(Parsed(value), env, client, isDevelopment) == CreateErrorResponse(TogetherAi.PROMISE_OUTCOME)
  {
    var service := AuditService.Create(env).value.togetherAI;
    var contract := ContractValidator.Validate(Js.Get(value, "contract")).value;
    TogetherAi.RejectedKeyClient(service, contract, fetch, encode, decode, show, statusText, replyBody);
    assert client(service, contract) == TogetherAi.AnalyzeContractAsWritten(service, contract, fetch, encode, decode, show);
    ProviderErrorAnswered(value, env, client, isDevelopment, TogetherAi.PROMISE_OUTCOME);
  }

  /** The answer to the unawaited Promise: 500 UNKNOWN_ERROR, not retryable. */
  lemma PromiseOutcomeAnswer()
    ensures CreateErrorResponse(TogetherAi.PROMISE_OUTCOME).status == 500
    ensures Js.Get(CreateErrorResponse(TogetherAi.PROMISE_OUTCOME).body, "code") == Js.Str("UNKNOWN_ERROR")
    ensures Js.Get(CreateErrorResponse(TogetherAi.PROMISE_OUTCOME).body, "retryable") == Js.Bool(false)
  {
    assert TogetherAi.PROMISE_OUTCOME.code == ApiErrors.UnknownError;
  }

  /** The answer to a rejected key: 401 INVALID_API_KEY, not retryable. */
  lemma RejectedKeyAnswer()
    ensures CreateErrorResponse(ApiErrors.CreateAuthError(401)).status == 401
    ensures Js.Get(CreateErrorResponse(ApiErrors.CreateAuthError(401)).body, "code") == Js.Str("INVALID_API_KEY")
    ensures Js.Get(CreateErrorResponse(ApiErrors.CreateAuthError(401)).body, "retryable") == Js.Bool(false)
  {
  }

  /** The same with the awaited client: the endpoint answers 401 INVALID_API_KEY, by `RejectedKeyAnswer`. */
  lemma RejectedKeyAwaited(value: Js.Value, env: map<string, string>, isDevelopment: bool,
                             fetch: TogetherAi.HttpRequest -> TogetherAi.Outcome, encode: Js.Value -> string,
                             decode: Js.Value -> Option<Js.Value>, show: Js.Value -> string,
                             statusText: string, replyBody: TogetherAi.Body, client: AuditService.Provider)
    requires !Js.Nullish(value)
    requires AuditService.Create(env).Success?
    requires ContractValidator.Validate(Js.Get(value, "contract")).Success?
    requires forall q :: fetch(q) == TogetherAi.Delivered(TogetherAi.HttpReply(401, statusText, replyBody))
    requires forall c, s :: client(c, s) == TogetherAi.AnalyzeContract(c, s, fetch, encode, decode, show)
    ensures Post(Parsed(value), env, client, isDevelopment) == CreateErrorResponse(ApiErrors.CreateAuthError(401))
  {
    var service := AuditService.Create(env).value.togetherAI;
    var contract := ContractValidator.Validate(Js.Get(value, "contract")).value;
    TogetherAi.RejectedKeyClient(service, contract, fetch, encode, decode, show, statusText, replyBody);
    assert client(service, contract) == TogetherAi.AnalyzeContract(service, contract, fetch, encode, decode, show);
    ProviderErrorAnswered(value, env, client, isDevelopment, ApiErrors.CreateAuthError(401));
  }
}
