/**
 * Parameter validation of `CollectionsAPI._validate_collect_money_params`:
 * every check runs, each failing check contributes its message in a fixed
 * order, and one validation error carrying the whole list is raised when
 * the list is not empty.
 */
module Validation {
  import opened Wrappers
  import opened Errors

  /** The dynamic value passed as `amount`: a Python `int`, or any other kind of value. */
  datatype AmountValue = IntVal(n: int) | OtherVal

  /**
   * The parameter dictionary `collect_money` builds: one entry per argument,
   * `None` where the caller passed `None`.
   */
  datatype CollectParams = CollectParams(
    amount: Option<AmountValue>,
    phoneNumber: Option<string>,
    reference: Option<string>,
    description: Option<string>,
    callbackUrl: Option<string>,
    country: Option<string>)

  /** Amount bounds in UGX, both inclusive. */
  const MinAmount: int := 500
  const MaxAmount: int := 10000000

  const AmountRequired: string := "Amount is required"
  const AmountNotInteger: string := "Amount must be an integer"
  const AmountTooSmall: string := "Amount must be at least 500 UGX"
  const AmountTooLarge: string := "Amount must not exceed 10,000,000 UGX"
  const PhoneRequired: string := "Phone number is required"
  const ReferenceRequired: string := "Reference is required"
  const ValidationFailed: string := "Validation failed"

  /** Python's `not s` for an optional string: absent or empty. */
  predicate Falsy(s: Option<string>)
    ensures Falsy(s) <==> s == None || s == Some("")
  {
    s.None? || s.value == ""
  }

  /** An amount the remote service accepts: an integer between the two bounds. */
  predicate ValidAmount(amount: Option<AmountValue>) {
    amount.Some? && amount.value.IntVal? && MinAmount <= amount.value.n <= MaxAmount
  }

  /** All three required fields pass their checks. */
  predicate ValidParams(p: CollectParams) {
    ValidAmount(p.amount) && !Falsy(p.phoneNumber) && !Falsy(p.reference)
  }

  /**
   * The message of the amount check, if any: the first failing test of
   * missing, not an integer, below the minimum, above the maximum. Each
   * message is tied below to exactly the inputs that produce it.
   */
  function AmountError(amount: Option<AmountValue>): (m: Option<string>)
    ensures m == None <==> ValidAmount(amount)
    ensures m == Some(AmountRequired) <==> amount.None?
    ensures m == Some(AmountNotInteger) <==> amount == Some(OtherVal)
    ensures m == Some(AmountTooSmall) <==> amount.Some? && amount.value.IntVal? && amount.value.n < MinAmount
    ensures m == Some(AmountTooLarge) <==> amount.Some? && amount.value.IntVal? && amount.value.n > MaxAmount
  {
    match amount
    case None => Some(AmountRequired)
    case Some(OtherVal) => Some(AmountNotInteger)
    case Some(IntVal(n)) =>
      if n < MinAmount then Some(AmountTooSmall)
      else if n > MaxAmount then Some(AmountTooLarge)
      else None
  }

  /** The messages of the amount check, as a list of at most one. */
  function AmountErrors(amount: Option<AmountValue>): seq<string> {
    match AmountError(amount)
    case None => []
    case Some(m) => [m]
  }

  /**
   * The complete ordered list of validation messages: the amount message
   * (if any), then the phone message, then the reference message.
   */
  function ValidationErrors(p: CollectParams): (errors: seq<string>)
    ensures errors == [] <==> ValidParams(p)
    ensures |errors| <= 3
    ensures PhoneRequired in errors <==> Falsy(p.phoneNumber)
    ensures ReferenceRequired in errors <==> Falsy(p.reference)
  {
    AmountErrors(p.amount)
      + (if Falsy(p.phoneNumber) then [PhoneRequired] else [])
      + (if Falsy(p.reference) then [ReferenceRequired] else [])
  }

  /**
   * Runs every check, appending each failure to the list, and fails with one
   * validation error carrying the whole list exactly when the list is not empty.
   */
  method ValidateCollectMoneyParams(p: CollectParams) returns (outcome: Outcome<MarzPayError>)
    ensures outcome.Pass? <==> ValidParams(p)
    ensures outcome.Fail? ==> outcome.error == ValidationError(ValidationFailed, ValidationErrors(p))
  {
    var errors: seq<string> := [];

    match p.amount {
      case None =>
        errors := errors + [AmountRequired];
      case Some(OtherVal) =>
        errors := errors + [AmountNotInteger];
      case Some(IntVal(n)) =>
        if n < MinAmount {
          errors := errors + [AmountTooSmall];
        } else if n > MaxAmount {
          errors := errors + [AmountTooLarge];
        }
    }

    if Falsy(p.phoneNumber) {
      errors := errors + [PhoneRequired];
    }

    if Falsy(p.reference) {
      errors := errors + [ReferenceRequired];
    }

    if errors != [] {
      outcome := Fail(ValidationError(ValidationFailed, errors));
    } else {
      outcome := Pass;
    }
  }

  /** Validation does not stop at the first failure: with all three fields missing, all three messages are reported, in order. */
  lemma AllFailuresReported(p: CollectParams)
    requires p.amount.None? && Falsy(p.phoneNumber) && Falsy(p.reference)
    ensures ValidationErrors(p) == [AmountRequired, PhoneRequired, ReferenceRequired]
  {
  }

  /** At most one amount message is ever reported, and it comes first. */
  lemma AtMostOneAmountMessage(p: CollectParams)
    ensures var errors := ValidationErrors(p);
      forall i :: 0 <= i < |errors| && errors[i] in {AmountRequired, AmountNotInteger, AmountTooSmall, AmountTooLarge} ==> i == 0
  {
  }

  /** An integral amount outside [500, 10,000,000] is always reported, whatever the other fields hold. */
  lemma OutOfRangeAmountReported(p: CollectParams, n: int)
    requires p.amount == Some(IntVal(n)) && (n < MinAmount || n > MaxAmount)
    ensures ValidationErrors(p) != []
    ensures ValidationErrors(p)[0] == if n < MinAmount then AmountTooSmall else AmountTooLarge
  {
  }
}
