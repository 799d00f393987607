/** The vendor payouts page: choosing a beneficiary and a payout mode, the checks made
    before a payout is sent, and what the page does with the reply. */
module PayoutsPage {
  import opened Wrappers
  import opened JsText
  import opened JsNumber
  import opened JsValue
  import VendorPayoutApi

  /** The form fields, as the inputs hold them. */
  datatype PayoutForm = PayoutForm(beneficiaryId: string, amount: string, notes: string, payoutMode: string)

  const EmptyForm := PayoutForm("", "", "", "")

  const SelectBeneficiaryMessage := "Please select a beneficiary"
  const SelectModeMessage := "Please select a payout mode"
  const InvalidAmountMessage := "Please enter a valid amount"
  const NotFoundMessage := "Beneficiary not found. Please refresh the page and try again."
  const NoVpaMessage := "Cannot use UPI mode: This beneficiary does not have a UPI VPA address."
  const NotAuthenticatedMessage := "User not authenticated"
  const InvalidIdMessage := "Invalid beneficiary ID"
  const DefaultNarration := "Vendor payout"
  const FailureMessage := "Failed to initiate payout. Please try again."
  const TypeErrorMessage := "TypeError"
  const SuccessPrefix := "Payment initiated successfully! Transaction ID: "

  function NoAccountMessage(mode: string): string
  {
    "Cannot use " + mode + " mode: This beneficiary does not have bank account details."
  }

  /** `String(b.id) === id`. */
  predicate HasId(b: Payload, id: string)
  {
    ToJsString(Field(b, "id")) == id
  }

  /** `beneficiaries.find(b => String(b.id) === id)`, as the index of the first match. */
  function FindBeneficiary(bens: seq<Payload>, id: string, from: nat): (k: Option<nat>)
    requires from <= |bens|
    ensures k.Some? ==> from <= k.value < |bens| && HasId(bens[k.value], id)
    ensures k.Some? ==> forall j :: from <= j < k.value ==> !HasId(bens[j], id)
    ensures k.None? ==> forall j :: from <= j < |bens| ==> !HasId(bens[j], id)
    decreases |bens| - from
  {
    if from == |bens| then None
    else if HasId(bens[from], id) then Some(from)
    else FindBeneficiary(bens, id, from + 1)
  }

  /** The mode a beneficiary suggests: `(transfer_type || payment_mode || 'UPI')`
      upper-cased. A truthy value that is not a string has no `toUpperCase` and throws. */
  function SuggestedMode(b: Payload): (r: Result<string, string>)
    ensures !Truthy(Field(b, "transfer_type")) && !Truthy(Field(b, "payment_mode")) ==> r == Ok("UPI")
    ensures Field(b, "transfer_type").Str? && Truthy(Field(b, "transfer_type")) ==>
              r == Ok(ToUpper(Field(b, "transfer_type").s))
    ensures !Truthy(Field(b, "transfer_type")) && Field(b, "payment_mode").Str?
            && Truthy(Field(b, "payment_mode")) ==>
              r == Ok(ToUpper(Field(b, "payment_mode").s))
    ensures r.Err? <==>
              (Truthy(Field(b, "transfer_type")) && !Field(b, "transfer_type").Str?)
              || (!Truthy(Field(b, "transfer_type")) && Truthy(Field(b, "payment_mode"))
                  && !Field(b, "payment_mode").Str?)
    ensures r.Err? ==> r.error == TypeErrorMessage
    ensures r.Ok? ==> forall i :: 0 <= i < |r.value| ==> !IsLowerLetter(r.value[i])
  {
    var v := Or(Or(Field(b, "transfer_type"), Field(b, "payment_mode")), Str("UPI"));
    ToUpperFixedPoint("UPI");
    if v.Str? then Ok(ToUpper(v.s)) else Err(TypeErrorMessage)
  }

  /** Whether a beneficiary can receive a payout in `mode`: UPI needs a VPA address,
      IMPS and NEFT need an account number, and any other mode is not checked. */
  predicate ModeSupported(mode: string, b: Payload)
  {
    !(mode == "UPI" && !Truthy(Field(b, "vpa_address")))
    && !((mode == "IMPS" || mode == "NEFT") && !Truthy(Field(b, "account_number")))
  }

  /** The alert the payout-mode select shows for a mode the beneficiary cannot receive. */
  function ModeAlert(mode: string): string
  {
    if mode == "UPI" then "This beneficiary does not have a UPI VPA address. Please select IMPS or NEFT."
    else "This beneficiary does not have bank account details. Please select UPI."
  }

  /** `!amount || isNaN(amount) || parseFloat(amount) <= 0`. */
  predicate AmountRefused(amount: string)
  {
    amount == "" || ToNumber(amount).None?
    || (ParseFloat(amount).Some? && AtMostZero(ParseFloat(amount).value))
  }

  /** What the submit handler decides before it touches any state. */
  datatype Decision = Alert(message: string) | Declined | Proceed(beneficiary: Payload, amount: Value)

  /** The checks `handleSendPayout` makes, in order, each ending the handler with its
      own alert; `confirmed` is the answer to the confirmation dialog. */
  function SendDecision(form: PayoutForm, bens: seq<Payload>, confirmed: bool): (d: Decision)
    ensures d == Alert(SelectBeneficiaryMessage) <==> form.beneficiaryId == ""
    ensures d == Alert(SelectModeMessage) <==> form.beneficiaryId != "" && form.payoutMode == ""
    ensures d == Alert(InvalidAmountMessage) <==>
              form.beneficiaryId != "" && form.payoutMode != "" && AmountRefused(form.amount)
    ensures d.Proceed? ==>
              form.beneficiaryId != "" && form.payoutMode != "" && !AmountRefused(form.amount)
              && FindBeneficiary(bens, form.beneficiaryId, 0).Some?
              && d.beneficiary == bens[FindBeneficiary(bens, form.beneficiaryId, 0).value]
              && ModeSupported(form.payoutMode, d.beneficiary) && confirmed
              && d.amount == NumberOrNaN(ParseFloat(form.amount))
    ensures d == Declined ==>
              FindBeneficiary(bens, form.beneficiaryId, 0).Some?
              && ModeSupported(form.payoutMode, bens[FindBeneficiary(bens, form.beneficiaryId, 0).value])
              && !confirmed
    ensures !AmountRefused(form.amount) && form.beneficiaryId != "" && form.payoutMode != "" ==>
              (d == Alert(NotFoundMessage) <==> FindBeneficiary(bens, form.beneficiaryId, 0).None?)
  {
    if form.beneficiaryId == "" then Alert(SelectBeneficiaryMessage)
    else if form.payoutMode == "" then Alert(SelectModeMessage)
    else if AmountRefused(form.amount) then Alert(InvalidAmountMessage)
    else
      match FindBeneficiary(bens, form.beneficiaryId, 0)
      case None => Alert(NotFoundMessage)
      case Some(k) =>
        var b := bens[k];
        if form.payoutMode == "UPI" && !Truthy(Field(b, "vpa_address")) then Alert(NoVpaMessage)
        else if (form.payoutMode == "IMPS" || form.payoutMode == "NEFT") && !Truthy(Field(b, "account_number")) then
          Alert(NoAccountMessage(form.payoutMode))
        else if !confirmed then Declined
        else Proceed(b, NumberOrNaN(ParseFloat(form.amount)))
  }

  /** The request the page hands to `initiateVendorPayout` for a beneficiary id that
      `parseInt` read as `id`. */
  function PayoutRequest(user: Value, id: int, amount: Value, form: PayoutForm): VendorPayoutApi.PayoutData
  {
    VendorPayoutApi.PayoutData(
      OptGet(user, "id"), Num(FromInt(id)), amount, Or(Str(form.notes), Str(DefaultNarration)),
      Undefined, Str(form.payoutMode), Undefined, Undefined, Undefined, Undefined, Undefined, Undefined)
  }

  /** The client accepts every request the page makes: the id is an integer number whose
      `parseInt` gives it back, and the mode is a non-empty string, so
      `initiateVendorPayout` takes the saved-beneficiary path without throwing and sends
      that id, the amount, the upper-cased mode and the narration. */
  lemma PayoutRequestAccepted(user: Value, id: int, amount: Value, form: PayoutForm)
    requires amount.Num? || amount.NaN?
    requires form.payoutMode != ""
    ensures var request := PayoutRequest(user, id, amount, form);
            && VendorPayoutApi.UsesSavedBeneficiary(request)
            && ParseIntValue(request.beneficiaryId) == Some(id)
            && Truthy(request.transferType) && request.transferType.Str?
            && NumberOrNaN(ParseFloatValue(request.amount)) == amount
            && VendorPayoutApi.IfTruthy(request.narration) == Some(Or(Str(form.notes), Str(DefaultNarration)))
  {
  }

  /** `{ ...prev, balance }`. Only an object contributes fields to the spread. */
  function WithBalance(prev: Value, balance: Value): (w: Value)
    ensures w.Obj? && "balance" in w.fields && w.fields["balance"] == balance
    ensures prev.Obj? ==> forall k :: k in prev.fields && k != "balance" ==> k in w.fields && w.fields[k] == prev.fields[k]
  {
    Obj((if prev.Obj? then prev.fields else map[])["balance" := balance])
  }

  /** The page's state: the active beneficiaries, the wallet, the sending flag and the
      form. */
  class Page {
    var beneficiaries: seq<Payload>
    var wallet: Value
    var sending: bool
    var form: PayoutForm

    constructor(beneficiaries: seq<Payload>, wallet: Value)
      ensures this.beneficiaries == beneficiaries && this.wallet == wallet
      ensures !sending && form == EmptyForm
    {
      this.beneficiaries := beneficiaries;
      this.wallet := wallet;
      sending := false;
      form := EmptyForm;
    }

    /** The beneficiary select: records the chosen id and sets the mode to the one the
        beneficiary suggests, or to `''` when no beneficiary has that id. A suggestion
        that throws leaves the form as it was. */
    method SelectBeneficiary(selectedBenId: string)
      modifies this
      ensures beneficiaries == old(beneficiaries) && wallet == old(wallet) && sending == old(sending)
      ensures FindBeneficiary(beneficiaries, selectedBenId, 0).None? ==>
                form == old(form).(beneficiaryId := selectedBenId, payoutMode := "")
      ensures FindBeneficiary(beneficiaries, selectedBenId, 0).Some? ==>
                var m := SuggestedMode(beneficiaries[FindBeneficiary(beneficiaries, selectedBenId, 0).value]);
                form == if m.Ok? then old(form).(beneficiaryId := selectedBenId, payoutMode := m.value) else old(form)
    {
      var k := FindBeneficiary(beneficiaries, selectedBenId, 0);
      if k.None? {
        form := form.(beneficiaryId := selectedBenId, payoutMode := "");
      } else {
        var m := SuggestedMode(beneficiaries[k.value]);
        if m.Ok? {
          form := form.(beneficiaryId := selectedBenId, payoutMode := m.value);
        }
      }
    }

    /** The payout-mode select: the chosen value upper-cased, unless the selected
        beneficiary cannot receive that mode, in which case the form is left alone and
        the alert is returned. */
    method SelectPayoutMode(value: string) returns (alert: Option<string>)
      modifies this
      ensures beneficiaries == old(beneficiaries) && wallet == old(wallet) && sending == old(sending)
      ensures var mode := ToUpper(value);
              var k := FindBeneficiary(beneficiaries, old(form).beneficiaryId, 0);
              if old(form).beneficiaryId != "" && k.Some? && !ModeSupported(mode, beneficiaries[k.value])
              then alert == Some(ModeAlert(mode)) && form == old(form)
              else alert.None? && form == old(form).(payoutMode := mode)
    {
      var mode := ToUpper(value);
      if form.beneficiaryId != "" {
        var k := FindBeneficiary(beneficiaries, form.beneficiaryId, 0);
        if k.Some? && !ModeSupported(mode, beneficiaries[k.value]) {
          return Some(ModeAlert(mode));
        }
      }
      form := form.(payoutMode := mode);
      return None;
    }

    /** The amount input. */
    method SetAmount(amount: string)
      modifies this
      ensures beneficiaries == old(beneficiaries) && wallet == old(wallet) && sending == old(sending)
      ensures form == old(form).(amount := amount)
    {
      form := form.(amount := amount);
    }

    /** `handleSendPayout`. `confirmed` answers the dialog, `user` is the stored user and
        `reply` what `initiateVendorPayout` resolves to once it has posted (`Err` for the
        message it throws). `posted` is what the page handed to `initiateVendorPayout`,
        if it got that far. */
    method SendPayout(confirmed: bool, user: Value, reply: Result<Value, string>)
      returns (alert: Option<string>, posted: Option<VendorPayoutApi.PayoutData>)
      modifies this
      ensures beneficiaries == old(beneficiaries)
      ensures var d := SendDecision(old(form), old(beneficiaries), confirmed);
              !d.Proceed? ==>
                && posted.None? && wallet == old(wallet) && form == old(form) && sending == old(sending)
                && alert == (if d.Alert? then Some(d.message) else None)
      ensures var d := SendDecision(old(form), old(beneficiaries), confirmed);
              d.Proceed? ==> !sending
      ensures var d := SendDecision(old(form), old(beneficiaries), confirmed);
              d.Proceed? && (Nullish(user) || ParseInt(old(form).beneficiaryId).None?) ==>
                posted.None? && wallet == old(wallet) && form == old(form)
                && alert == Some(if Nullish(user) then NotAuthenticatedMessage else InvalidIdMessage)
      ensures var d := SendDecision(old(form), old(beneficiaries), confirmed);
              posted.Some? <==> d.Proceed? && !Nullish(user) && ParseInt(old(form).beneficiaryId).Some?
      ensures posted.Some? ==>
                var d := SendDecision(old(form), old(beneficiaries), confirmed);
                && posted.value == PayoutRequest(user, ParseInt(old(form).beneficiaryId).value, d.amount, old(form))
                && old(form).payoutMode != "" && (d.amount.Num? || d.amount.NaN?)
      ensures posted.Some? ==> ReplyHandled(reply, old(wallet), old(form), wallet, form, alert)
    {
      var d := SendDecision(form, beneficiaries, confirmed);
      if !d.Proceed? {
        alert := if d.Alert? then Some(d.message) else None;
        posted := None;
        return;
      }
      sending := true;
      posted := None;
      if Nullish(user) {
        alert := Some(NotAuthenticatedMessage);
        sending := false;
        return;
      }
      var id := ParseInt(form.beneficiaryId);
      if id.None? {
        alert := Some(InvalidIdMessage);
        sending := false;
        return;
      }
      posted := Some(PayoutRequest(user, id.value, d.amount, form));
      alert := HandleReply(reply);
      sending := false;
    }

    /** What the page does with the reply: a thrown error is alerted, and so is the
        `TypeError` of reading `status` from a `null` reply; a success updates the balance
        and then, if the reply names the transaction, alerts its reference and clears the
        form; any other reply changes nothing. */
    method HandleReply(reply: Result<Value, string>) returns (alert: Option<string>)
      modifies this
      ensures beneficiaries == old(beneficiaries) && sending == old(sending)
      ensures ReplyHandled(reply, old(wallet), old(form), wallet, form, alert)
    {
      alert := None;
      match reply {
        case Err(message) =>
          alert := Some(if message != "" then message else FailureMessage);
        case Ok(response) =>
          if Nullish(response) {
            alert := Some(TypeErrorMessage);
          } else if Succeeded(response) {
            wallet := NewWallet(wallet, response);
            var transaction := OptGet(OptGet(response, "data"), "transaction");
            match Get(transaction, "merchant_reference_id") {
              case Err(e) =>
                alert := Some(e);
              case Ok(ref) =>
                alert := Some(SuccessPrefix + ToJsString(ref));
                form := EmptyForm;
            }
          }
      }
    }
  }

  /** The wallet, form and alert after the reply to a posted payout. A `null` reply, or
      a success whose `data.transaction` is missing, throws a `TypeError`, which the
      handler's catch alerts; in the latter case the balance was already updated. */
  predicate ReplyHandled(reply: Result<Value, string>, wallet0: Value, form0: PayoutForm,
                         wallet: Value, form: PayoutForm, alert: Option<string>)
  {
    match reply
    case Err(message) =>
      wallet == wallet0 && form == form0 && alert == Some(if message != "" then message else FailureMessage)
    case Ok(response) =>
      if Nullish(response) then wallet == wallet0 && form == form0 && alert == Some(TypeErrorMessage)
      else if !Succeeded(response) then wallet == wallet0 && form == form0 && alert.None?
      else
        var transaction := OptGet(OptGet(response, "data"), "transaction");
        && wallet == NewWallet(wallet0, response)
        && (Nullish(transaction) ==> form == form0 && alert == Some(TypeErrorMessage))
        && (!Nullish(transaction) ==>
              form == EmptyForm
              && alert == Some(SuccessPrefix + ToJsString(OptGet(transaction, "merchant_reference_id"))))
  }

  /** The reply decides the outcome: `ReplyHandled` allows exactly one wallet, form and
      alert. Only a success changes the wallet, only a success naming its transaction
      clears the form, and the page stays silent exactly on a non-success reply. */
  lemma ReplyOutcome(reply: Result<Value, string>, wallet0: Value, form0: PayoutForm,
                     wallet: Value, form: PayoutForm, alert: Option<string>,
                     wallet': Value, form': PayoutForm, alert': Option<string>)
    requires ReplyHandled(reply, wallet0, form0, wallet, form, alert)
    requires ReplyHandled(reply, wallet0, form0, wallet', form', alert')
    ensures wallet == wallet' && form == form' && alert == alert'
    ensures wallet != wallet0 ==> reply.Ok? && Succeeded(reply.value)
    ensures form != form0 ==>
              reply.Ok? && Succeeded(reply.value) && form == EmptyForm
              && !Nullish(OptGet(OptGet(reply.value, "data"), "transaction"))
    ensures alert.None? <==> reply.Ok? && !Nullish(reply.value) && !Succeeded(reply.value)
  {
  }

  /** `payoutResponse.status === 'success' && payoutResponse.data`. */
  predicate Succeeded(response: Value)
  {
    OptGet(response, "status") == Str("success") && Truthy(OptGet(response, "data"))
  }

  /** The wallet after a successful payout: `balance` becomes `data.wallet.balance_after`
      when the reply has a wallet with that field defined. */
  function NewWallet(prev: Value, response: Value): (w: Value)
    ensures var rw := OptGet(OptGet(response, "data"), "wallet");
            if Truthy(rw) && OptGet(rw, "balance_after") != Undefined
            then w.Obj? && "balance" in w.fields && w.fields["balance"] == OptGet(rw, "balance_after")
            else w == prev
  {
    var rw := OptGet(OptGet(response, "data"), "wallet");
    if Truthy(rw) && OptGet(rw, "balance_after") != Undefined then WithBalance(prev, OptGet(rw, "balance_after"))
    else prev
  }
}
