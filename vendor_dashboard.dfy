/** The vendor dashboard's wallet top-up form and its transaction list signs. */
module VendorDashboard {
  import opened Wrappers
  import opened JsNumber
  import opened JsValue

  const InvalidAmountMessage := "Please enter a valid amount"
  const AmountTooLargeMessage := "Amount cannot exceed ₹10,00,000"
  const NotAuthenticatedMessage := "User not authenticated"
  const DefaultSuccessMessage := "Top-up request submitted successfully"
  const SubmitFailedMessage := "Failed to submit top-up request"
  const TypeErrorMessage := "TypeError"

  /** The largest amount one request may ask for. */
  const MaxTopUp := 1000000

  /** The guard of `handleTopUpRequest` on `parseFloat(amount)`: a missing, zero or
      negative amount is invalid, and one above the maximum too large. */
  function ValidateTopUpAmount(input: string): (r: Result<Number, string>)
    ensures r.Err? ==> r.error == InvalidAmountMessage || r.error == AmountTooLargeMessage
  {
    match ParseFloat(input)
    case None => Err(InvalidAmountMessage)
    case Some(amount) =>
      if AtMostZero(amount) then Err(InvalidAmountMessage)
      else if GreaterThanInt(amount, MaxTopUp) then Err(AmountTooLargeMessage)
      else Ok(amount)
  }

  /** The guard accepts exactly the amounts that parse, are above zero and at most the
      maximum, as the parsed number; it calls the others invalid or too large. */
  lemma ValidateTopUpAmountCases(input: string)
    ensures ValidateTopUpAmount(input).Ok? <==>
              ParseFloat(input).Some? && 0 < ParseFloat(input).value.units
              && !GreaterThanInt(ParseFloat(input).value, MaxTopUp)
    ensures ValidateTopUpAmount(input).Ok? ==> ValidateTopUpAmount(input).value == ParseFloat(input).value
    ensures ValidateTopUpAmount(input) == Err(InvalidAmountMessage) <==>
              ParseFloat(input).None? || AtMostZero(ParseFloat(input).value)
    ensures ValidateTopUpAmount(input) == Err(AmountTooLargeMessage) <==>
              ParseFloat(input).Some? && !AtMostZero(ParseFloat(input).value)
              && GreaterThanInt(ParseFloat(input).value, MaxTopUp)
  {
  }

  /** Every amount strictly between zero and the maximum, or equal to the maximum,
      typed as JavaScript prints it, is accepted as that same amount. */
  lemma AcceptsPrintedAmount(n: Number)
    requires 0 < n.units && !GreaterThanInt(n, MaxTopUp)
    ensures ValidateTopUpAmount(NumberToString(n)) == Ok(n)
  {
    ParseFloatOfNumberToString(n);
  }

  /** Every printed amount above the maximum is refused as too large. */
  lemma RefusesPrintedAmountAboveMax(n: Number)
    requires GreaterThanInt(n, MaxTopUp)
    ensures ValidateTopUpAmount(NumberToString(n)) == Err(AmountTooLargeMessage)
  {
    ParseFloatOfNumberToString(n);
  }

  /** Every printed amount at or below zero is refused as invalid. */
  lemma RefusesPrintedAmountAtMostZero(n: Number)
    requires AtMostZero(n)
    ensures ValidateTopUpAmount(NumberToString(n)) == Err(InvalidAmountMessage)
  {
    ParseFloatOfNumberToString(n);
  }

  /** The maximum itself is accepted. */
  lemma AcceptsMaximum()
    ensures ValidateTopUpAmount(NumberToString(FromInt(MaxTopUp))) == Ok(FromInt(MaxTopUp))
  {
    AcceptsPrintedAmount(FromInt(MaxTopUp));
  }

  /** The sign shown before a transaction's amount. */
  function TransactionSign(transactionType: Value): (sign: string)
    ensures sign == "+" <==> transactionType == Str("topup")
    ensures sign in {"+", "-"}
  {
    if transactionType == Str("topup") then "+" else "-"
  }

  /** `result.status === 'success'`. */
  predicate Succeeded(result: Value)
  {
    OptGet(result, "status") == Str("success")
  }

  /** The top-up form's state. */
  class Dashboard {
    var showTopUpForm: bool
    var amount: string
    var submitting: bool
    var error: string
    var success: Value

    constructor()
      ensures !showTopUpForm && amount == "" && !submitting && error == "" && success == Str("")
    {
      showTopUpForm := false;
      amount := "";
      submitting := false;
      error := "";
      success := Str("");
    }

    /** `handleTopUpRequest`. `user` is the stored user and `reply` what
        `submitTopupRequest` resolves to (`Err` for the message it throws); `sent` is
        the vendor id and amount it is called with, if it is called at all. */
    method HandleTopUpRequest(user: Value, reply: Result<Value, string>)
      returns (sent: Option<(Value, Number)>)
      modifies this
      ensures submitting == (old(submitting) && ValidateTopUpAmount(old(amount)).Err?)
      ensures ValidateTopUpAmount(old(amount)).Err? ==>
                sent.None? && error == ValidateTopUpAmount(old(amount)).error && success == Str("")
                && amount == old(amount) && showTopUpForm == old(showTopUpForm)
      ensures ValidateTopUpAmount(old(amount)).Ok? && Nullish(user) ==>
                sent.None? && error == NotAuthenticatedMessage && success == Str("")
                && amount == old(amount) && showTopUpForm == old(showTopUpForm)
      ensures sent.Some? <==> ValidateTopUpAmount(old(amount)).Ok? && !Nullish(user)
      ensures sent.Some? ==> sent.value == (OptGet(user, "id"), ValidateTopUpAmount(old(amount)).value)
      ensures sent.Some? && reply.Ok? && !Nullish(reply.value) && Succeeded(reply.value) ==>
                error == "" && success == Or(OptGet(reply.value, "message"), Str(DefaultSuccessMessage))
                && !showTopUpForm && amount == ""
      ensures sent.Some? && reply.Ok? && !(!Nullish(reply.value) && Succeeded(reply.value)) ==>
                error == (if Nullish(reply.value) then TypeErrorMessage else "") && success == Str("")
                && amount == old(amount) && showTopUpForm == old(showTopUpForm)
      ensures sent.Some? && reply.Err? ==>
                error == (if reply.error != "" then reply.error else SubmitFailedMessage) && success == Str("")
                && amount == old(amount) && showTopUpForm == old(showTopUpForm)
    {
      error := "";
      success := Str("");
      sent := None;
      var checked := ValidateTopUpAmount(amount);
      if checked.Err? {
        error := checked.error;
        return;
      }
      submitting := true;
      if Nullish(user) {
        error := NotAuthenticatedMessage;
        submitting := false;
        return;
      }
      sent := Some((OptGet(user, "id"), checked.value));
      match reply {
        case Err(e) =>
          error := if e != "" then e else SubmitFailedMessage;
        case Ok(result) =>
          if Nullish(result) {
            error := TypeErrorMessage;
          } else if Succeeded(result) {
            success := Or(OptGet(result, "message"), Str(DefaultSuccessMessage));
            showTopUpForm := false;
            amount := "";
          }
      }
      submitting := false;
    }
  }
}
