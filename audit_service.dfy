/**
 * `AuditService`: validate the submitted contract first, then hand the
 * validated text to the provider client. The service holds its client and
 * never changes after construction, so it is a value; the client call is a
 * parameter `provider`, from the client and the contract text to the
 * client's result or the value it throws.
 */
module AuditService {
  import opened Wrappers
  import Js
  import Text
  import ApiErrors
  import ContractValidator
  import Constants
  import TogetherAi
  import opened Exceptions

  /** The environment variable `create` reads the key from. */
  const API_KEY_VARIABLE := "TOGETHER_AI_API_KEY"

  datatype AuditService = AuditService(togetherAI: TogetherAi.Service)

  /** The provider client call `this.togetherAI.analyzeContract(contract)`. */
  type Provider = (TogetherAi.Service, string) -> Result<seq<Js.Value>, Thrown>

  /**
   * `new AuditService(apiKey?)`: a missing or empty key throws the
   * configuration error before any client is built.
   */
  function NewAuditService(apiKey: Option<string>): (r: Result<AuditService, Thrown>)
    ensures r.Failure? <==> apiKey.None? || apiKey.value == ""
    ensures r.Failure? ==> r.error == ApiFailure(ApiErrors.CreateConfigurationError())
    ensures r.Success? ==> r.value.togetherAI.apiKey == apiKey.value
  {
    if apiKey.None? || apiKey.value == "" then Failure(ApiFailure(ApiErrors.CreateConfigurationError()))
    else match TogetherAi.NewService(apiKey.value)
      case Success(client) => Success(AuditService(client))
      case Failure(t) => Failure(t)
  }

  /** `AuditService.create()`: the key is the value of TOGETHER_AI_API_KEY in the environment. */
  function Create(env: map<string, string>): (r: Result<AuditService, Thrown>)
    ensures r.Success? <==> API_KEY_VARIABLE in env && env[API_KEY_VARIABLE] != ""
    ensures r.Success? ==> r.value.togetherAI.apiKey == env[API_KEY_VARIABLE]
    ensures r.Failure? ==> r.error == ApiFailure(ApiErrors.CreateConfigurationError())
  {
    NewAuditService(if API_KEY_VARIABLE in env then Some(env[API_KEY_VARIABLE]) else None)
  }

  /**
   * `analyzeContract(contractCode)`: a validation error is thrown as it is;
   * otherwise the client's result or error is passed on as it is, with no
   * retry.
   */
  function AnalyzeContract(service: AuditService, contractCode: Js.Value, provider: Provider)
    : (r: Result<seq<Js.Value>, Thrown>)
    ensures ContractValidator.Validate(contractCode).Failure? ==>
              r == Failure(ValidationFailure(ContractValidator.Validate(contractCode).error))
    ensures ContractValidator.Validate(contractCode).Success? ==>
              r == provider(service.togetherAI, Text.Trim(contractCode.s))
  {
    match ContractValidator.Validate(contractCode)
    case Failure(e) => Failure(ValidationFailure(e))
    case Success(validatedContract) => provider(service.togetherAI, validatedContract)
  }

  /** On a validation failure the provider is never consulted: any two providers give the same outcome. */
  lemma InvalidContractSkipsProvider(service: AuditService, contractCode: Js.Value, p: Provider, q: Provider)
    requires ContractValidator.Validate(contractCode).Failure?
    ensures AnalyzeContract(service, contractCode, p) == AnalyzeContract(service, contractCode, q)
    ensures AnalyzeContract(service, contractCode, p).error.ValidationFailure?
  {
  }

  /**
   * The provider is asked about the trimmed text only: two inputs with the
   * same trimmed text that both pass validation get the same outcome.
   */
  lemma ProviderSeesTrimmedText(service: AuditService, a: string, b: string, provider: Provider)
    requires ContractValidator.Validate(Js.Str(a)).Success?
    requires Text.Trim(a) == Text.Trim(b) && |b| <= ContractValidator.MAX_CONTRACT_SIZE
    ensures AnalyzeContract(service, Js.Str(a), provider) == AnalyzeContract(service, Js.Str(b), provider)
  {
    ContractValidator.ValidateAcceptsExactly(Js.Str(a));
    ContractValidator.ValidateAcceptsExactly(Js.Str(b));
  }

  /** The bundled demo contract reaches the provider unchanged. */
  lemma DemoContractReachesProvider(service: AuditService, provider: Provider)
    ensures AnalyzeContract(service, Js.Str(Constants.DEMO_CONTRACT), provider)
         == provider(service.togetherAI, Constants.DEMO_CONTRACT)
  {
    ContractValidator.DemoContractAccepted();
  }
}
