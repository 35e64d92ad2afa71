/**
 * The input gate of the audit pipeline: `ContractValidator.validate`, an
 * ordered chain of short-circuiting checks on the untyped `contract` value of
 * a request, ending in a keyword heuristic for Solidity source. Long
 * messages are written as a concatenation of short pieces.
 */
module ContractValidator {
  import opened Wrappers
  import Js
  import Text
  import Constants

  const MAX_CONTRACT_SIZE: nat := 50000
  const MIN_CONTRACT_SIZE: nat := 10

  datatype ValidationCode =
    | MissingContract
    | InvalidContractType
    | EmptyContract
    | ContractTooSmall
    | ContractTooLarge
    | InvalidSolidity

  /** The `code` string each validation error carries. */
  function CodeName(c: ValidationCode): string {
    match c
    case MissingContract => "MISSING_CONTRACT"
    case InvalidContractType => "INVALID_CONTRACT_TYPE"
    case EmptyContract => "EMPTY_CONTRACT"
    case ContractTooSmall => "CONTRACT_TOO_SMALL"
    case ContractTooLarge => "CONTRACT_TOO_LARGE"
    case InvalidSolidity => "INVALID_SOLIDITY"
  }

  /** An instance of `ContractValidationError`; its `name` is always "ContractValidationError". */
  datatype ContractValidationError = ContractValidationError(code: ValidationCode, message: string, statusCode: int)

  /** `new ContractValidationError(code, message, statusCode = 400)`. */
  function NewValidationError(code: ValidationCode, message: string, statusCode: int := 400): (e: ContractValidationError)
    ensures e.code == code && e.message == message && e.statusCode == statusCode
  {
    ContractValidationError(code, message, statusCode)
  }

  const SOLIDITY_KEYWORDS: seq<string> :=
    ["pragma solidity", "contract ", "function ", "mapping", "uint", "address", "bool"]

  /** `keywords.some(keyword => text.includes(keyword))`. */
  predicate SomeIncluded(text: string, keywords: seq<string>) {
    exists k :: k in keywords && Text.Includes(text, k)
  }

  /** `isValidSolidityContract`: some keyword is a substring of the lower-cased text. */
  predicate IsValidSolidityContract(contract: string) {
    SomeIncluded(Text.ToLower(contract), SOLIDITY_KEYWORDS)
  }

  /** `ContractValidator.validate`: the trimmed contract, or the first check that fails. */
  function Validate(contract: Js.Value): (r: Result<string, ContractValidationError>)
    ensures !Js.Truthy(contract) ==> r.Failure? && r.error.code == MissingContract
    ensures Js.Truthy(contract) && !contract.Str? ==> r.Failure? && r.error.code == InvalidContractType
    ensures contract.Str? && contract.s != "" && Text.Trim(contract.s) == "" ==>
              r.Failure? && r.error.code == EmptyContract
    ensures contract.Str? && 0 < |Text.Trim(contract.s)| < MIN_CONTRACT_SIZE ==>
              r.Failure? && r.error.code == ContractTooSmall
    ensures contract.Str? && |Text.Trim(contract.s)| >= MIN_CONTRACT_SIZE && |contract.s| > MAX_CONTRACT_SIZE ==>
              r.Failure? && r.error.code == ContractTooLarge
    ensures contract.Str? && MIN_CONTRACT_SIZE <= |Text.Trim(contract.s)| && |contract.s| <= MAX_CONTRACT_SIZE
              && !IsValidSolidityContract(Text.Trim(contract.s)) ==>
              r.Failure? && r.error.code == InvalidSolidity
    ensures r.Failure? ==> r.error.statusCode == if r.error.code == ContractTooLarge then 413 else 400
    ensures r.Success? ==>
              && contract.Str?
              && r.value == Text.Trim(contract.s)
              && MIN_CONTRACT_SIZE <= |r.value| <= MAX_CONTRACT_SIZE
              && IsValidSolidityContract(r.value)
  {
    if !Js.Truthy(contract) then
      Failure(NewValidationError(MissingContract, "Contract code is required"))
    else if !contract.Str? then
      Failure(NewValidationError(InvalidContractType, "Contract code must be a string"))
    else
      var trimmedContract := Text.Trim(contract.s);
      if |trimmedContract| == 0 then
        Failure(NewValidationError(EmptyContract, "Contract code cannot be empty"))
      else if |trimmedContract| < MIN_CONTRACT_SIZE then
        Failure(NewValidationError(ContractTooSmall, "Contract code " + "is too small " + "(minimum 10 " + "characters)"))
      else if |contract.s| > MAX_CONTRACT_SIZE then
        Failure(NewValidationError(ContractTooLarge, "Contract code " + "is too large " + "(max 50,000 " + "characters)", 413))
      else if !IsValidSolidityContract(trimmedContract) then
        Failure(NewValidationError(InvalidSolidity, "Contract does " + "not appear to " + "be valid " + "Solidity code"))
      else
        Success(trimmedContract)
  }

  /**
   * The accepted inputs, stated without the check order: a string whose
   * trimmed text has between 10 and 50000 characters, whose raw text has at
   * most 50000 characters, and whose lower-cased trimmed text contains one of
   * the keywords at some position.
   */
  ghost predicate Acceptable(s: string) {
    var t := Text.Trim(s);
    && MIN_CONTRACT_SIZE <= |t|
    && |s| <= MAX_CONTRACT_SIZE
    && exists k, i: nat :: k in SOLIDITY_KEYWORDS && Text.OccursAt(k, Text.ToLower(t), i)
  }

  /** Some keyword is included exactly when some keyword occurs at some index of the text. */
  lemma SomeIncludedIff(text: string, keywords: seq<string>)
    ensures SomeIncluded(text, keywords) <==>
              exists k, i: nat :: k in keywords && Text.OccursAt(k, text, i)
  {
    if SomeIncluded(text, keywords) {
      var k :| k in keywords && Text.Includes(text, k);
      Text.IncludesIff(text, k);
      var i: nat :| Text.OccursAt(k, text, i);
    }
    if exists k, i: nat :: k in keywords && Text.OccursAt(k, text, i) {
      var k, i: nat :| k in keywords && Text.OccursAt(k, text, i);
      Text.IncludesIff(text, k);
    }
  }

  /** `Validate` accepts exactly the acceptable strings, and returns their trimmed text. */
  lemma ValidateAcceptsExactly(contract: Js.Value)
    ensures Validate(contract).Success? <==> contract.Str? && Acceptable(contract.s)
    ensures Validate(contract).Success? ==> Validate(contract).value == Text.Trim(contract.s)
  {
    if contract.Str? {
      SomeIncludedIff(Text.ToLower(Text.Trim(contract.s)), SOLIDITY_KEYWORDS);
    }
  }

  /** The empty string is falsy, so it is reported missing and never empty. */
  lemma EmptyStringIsMissing()
    ensures Validate(Js.Str("")).Failure?
    ensures Validate(Js.Str("")).error.code == MissingContract
    ensures Validate(Js.Str("")).error.statusCode == 400
  {
  }

  /** A non-empty text made only of whitespace is reported empty, with status 400. */
  lemma WhiteSpaceOnlyIsEmpty(s: string)
    requires s != "" && Text.AllWhiteSpace(s)
    ensures Validate(Js.Str(s)) == Failure(ContractValidationError(EmptyContract, "Contract code cannot be empty", 400))
  {
    Text.TrimEmptyIff(s);
  }

  /** Text where no keyword occurs at any position of its lower-cased form is not Solidity. */
  lemma NoKeywordRejected(s: string)
    requires MIN_CONTRACT_SIZE <= |Text.Trim(s)| && |s| <= MAX_CONTRACT_SIZE
    requires forall k, i: nat :: k in SOLIDITY_KEYWORDS ==> !Text.OccursAt(k, Text.ToLower(Text.Trim(s)), i)
    ensures Validate(Js.Str(s)).Failure?
    ensures Validate(Js.Str(s)).error == ContractValidationError(InvalidSolidity, "Contract does " + "not appear to " + "be valid " + "Solidity code", 400)
  {
    SomeIncludedIff(Text.ToLower(Text.Trim(s)), SOLIDITY_KEYWORDS);
  }

  /** The validated text passes validation again unchanged. */
  lemma ValidateIdempotent(contract: Js.Value)
    requires Validate(contract).Success?
    ensures Validate(Js.Str(Validate(contract).value)) == Validate(contract)
  {
    Text.TrimIdempotent(contract.s);
  }

  /** A text that starts with "pragma solidity" passes the keyword test. */
  lemma {:induction false} PragmaPrefixIsSolidity(s: string)
    requires "pragma solidity" <= s
    ensures IsValidSolidityContract(s)
  {
    var lower := Text.ToLower(s);
    forall i | 0 <= i < 15
      ensures lower[i] == "pragma solidity"[i]
    {
      assert s[i] == "pragma solidity"[i];
    }
    assert lower[..15] == "pragma solidity";
    assert Text.Includes(lower, "pragma solidity");
    assert "pragma solidity" in SOLIDITY_KEYWORDS;
  }

  /** A text with non-blank ends, an acceptable size and a leading pragma is accepted as it is. */
  lemma {:induction false} AcceptedWithPragmaPrefix(s: string)
    requires s != [] && !Text.IsWhiteSpace(s[0]) && !Text.IsWhiteSpace(s[|s| - 1])
    requires MIN_CONTRACT_SIZE <= |s| <= MAX_CONTRACT_SIZE
    requires "pragma solidity" <= s
    ensures Validate(Js.Str(s)) == Success(s)
  {
    Text.TrimKeepsInner(s);
    PragmaPrefixIsSolidity(s);
  }

  /** The bundled demo contract passes validation, and trimming leaves it as it is. */
  lemma DemoContractAccepted()
    ensures Validate(Js.Str(Constants.DEMO_CONTRACT)) == Success(Constants.DEMO_CONTRACT)
  {
    Constants.DemoShape();
    AcceptedWithPragmaPrefix(Constants.DEMO_CONTRACT);
  }
}
