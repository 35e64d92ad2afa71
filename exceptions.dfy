/**
 * The values the audit pipeline throws, and the properties its `catch`
 * blocks read from them. An absent `name` or `code` reads as "" and an absent
 * `statusCode` as 0: both are falsy, and neither equals any name or code the
 * pipeline compares against.
 */
module Exceptions {
  import opened Wrappers
  import ContractValidator
  import ApiErrors

  datatype Thrown =
      /** An instance of `ContractValidationError`. */
    | ValidationFailure(error: ContractValidator.ContractValidationError)
      /** A plain `APIError` object from one of the factories. */
    | ApiFailure(api: ApiErrors.ApiError)
      /** An `Error` raised by the runtime: a `TypeError`, a `SyntaxError`, an abort or a network failure. */
    | RuntimeError(name: string, code: string, message: string)
      /** The unawaited `Promise` returned by an `async` function: it has none of these properties. */
    | PendingPromise

  /** `error.name`. */
  function Name(t: Thrown): string {
    match t
    case ValidationFailure(_) => "ContractValidationError"
    case ApiFailure(_) => ""
    case RuntimeError(name, _, _) => name
    case PendingPromise => ""
  }

  /** `error.code`. */
  function Code(t: Thrown): string {
    match t
    case ValidationFailure(e) => ContractValidator.CodeName(e.code)
    case ApiFailure(e) => ApiErrors.CodeName(e.code)
    case RuntimeError(_, code, _) => code
    case PendingPromise => ""
  }

  /** `error.statusCode`. */
  function StatusCode(t: Thrown): int {
    match t
    case ValidationFailure(e) => e.statusCode
    case ApiFailure(e) => e.statusCode
    case RuntimeError(_, _, _) => 0
    case PendingPromise => 0
  }

  /** `error.message`, `None` when the thrown value has no such property. */
  function Message(t: Thrown): Option<string> {
    match t
    case ValidationFailure(e) => Some(e.message)
    case ApiFailure(e) => Some(e.message)
    case RuntimeError(_, _, message) => Some(message)
    case PendingPromise => None
  }

  /** A `TypeError` from reading `key` of `null` or `undefined`, in V8's wording. */
  function PropertyOfNullish(isNull: bool, key: string): (t: Thrown)
    ensures Name(t) == "TypeError" && Code(t) == "" && StatusCode(t) == 0
  {
    RuntimeError("TypeError", "",
      "Cannot read properties of " + (if isNull then "null" else "undefined") + " (reading '" + key + "')")
  }

  /** The `TypeError` from destructuring `key` out of the variable `variable` holding `null` or `undefined`, in V8's wording. */
  function DestructureNullish(isNull: bool, key: string, variable: string): (t: Thrown)
    ensures Name(t) == "TypeError" && Code(t) == "" && StatusCode(t) == 0
  {
    RuntimeError("TypeError", "",
      "Cannot destructure property '" + key + "' of '" + variable + "' as it is "
      + (if isNull then "null" else "undefined") + ".")
  }

  /** The `TypeError` from calling `expression` when it is not a function, in V8's wording. */
  function NotAFunction(expression: string): (t: Thrown)
    ensures Name(t) == "TypeError" && Code(t) == "" && StatusCode(t) == 0
    ensures Message(t) == Some(expression + " is not a function")
  {
    RuntimeError("TypeError", "", expression + " is not a function")
  }

  /** `error.code && error.statusCode && error.message`: the shape of an API error. */
  predicate HasErrorShape(t: Thrown) {
    Code(t) != "" && StatusCode(t) != 0 && Message(t).Some? && Message(t).value != ""
  }

  /** Only validation errors and API errors carry a status, so only they can have the shape. */
  lemma ErrorShapeCarriers(t: Thrown)
    ensures HasErrorShape(t) ==> t.ValidationFailure? || t.ApiFailure?
    ensures t.ApiFailure? && ApiErrors.WellFormed(t.api) ==> HasErrorShape(t)
  {
    if t.ApiFailure? {
      assert ApiErrors.CodeName(t.api.code) != "";
    }
  }
}
