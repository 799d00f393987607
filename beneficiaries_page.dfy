/** The vendor beneficiaries page: the add/edit form, its input normalisation, the
    payload it submits and the active/inactive toggle. */
module BeneficiariesPage {
  import opened Wrappers
  import opened JsText
  import opened JsValue

  /** The form fields. They hold what the inputs typed, or what `handleEdit` copied from
      a beneficiary, which need not be a string. */
  datatype BeneficiaryForm = BeneficiaryForm(
    name: Value, phoneNumber: Value, transferType: Value, vpaAddress: Value,
    accountNumber: Value, bankName: Value, ifsc: Value)

  const InitialForm := BeneficiaryForm(Str(""), Str(""), Str("UPI"), Str(""), Str(""), Str(""), Str(""))

  const NotAuthenticatedMessage := "User not authenticated"
  const VpaRequiredMessage := "VPA address is required for UPI transfers"
  const BankDetailsRequiredMessage := "Account number, IFSC, and bank name are required for IMPS/NEFT transfers"
  const SaveFailedMessage := "Failed to save beneficiary"
  const TypeErrorMessage := "TypeError"
  const StatusUpdatedMessage := "Status updated successfully"
  const StatusFailedMessage := "Failed to update status"

  /** The object `handleSubmit` sends; a `None` field is not a key at all. */
  datatype BeneficiaryPayload = BeneficiaryPayload(
    vendorId: Value, name: Value, phoneNumber: Value, transferType: Value, isActive: bool,
    vpaAddress: Option<Value>, accountNumber: Option<Value>, ifsc: Option<Value>, bankName: Option<Value>,
    id: Option<Value>)

  /** Which client call receives the payload. */
  datatype BeneficiaryRequest = Create(payload: BeneficiaryPayload) | Update(payload: BeneficiaryPayload)

  /** The payload of `handleSubmit` and where it goes, or the validation error that
      stops it. `vendorId` is the stored user's id and `editingId` the id being edited
      (`null` when adding). */
  function Submission(form: BeneficiaryForm, vendorId: Value, editingId: Value): (r: Result<BeneficiaryRequest, string>)
    ensures form.transferType == Str("UPI") ==>
              (r == Err(VpaRequiredMessage) <==> !Truthy(form.vpaAddress))
    ensures form.transferType != Str("UPI") ==>
              (r == Err(BankDetailsRequiredMessage) <==>
                 !Truthy(form.accountNumber) || !Truthy(form.ifsc) || !Truthy(form.bankName))
    ensures r.Err? ==> r.error in {VpaRequiredMessage, BankDetailsRequiredMessage}
    ensures r.Ok? ==> (r.value.Update? <==> Truthy(editingId))
    ensures r.Ok? ==>
              var p := r.value.payload;
              && p.vendorId == vendorId && p.name == form.name && p.phoneNumber == form.phoneNumber
              && p.transferType == form.transferType && p.isActive
              && p.id == (if Truthy(editingId) then Some(editingId) else None)
    ensures r.Ok? && form.transferType == Str("UPI") ==>
              var p := r.value.payload;
              p.vpaAddress == Some(form.vpaAddress) && p.accountNumber.None? && p.ifsc.None? && p.bankName.None?
    ensures r.Ok? && form.transferType != Str("UPI") ==>
              var p := r.value.payload;
              && p.vpaAddress.None? && p.accountNumber == Some(form.accountNumber)
              && p.ifsc == Some(form.ifsc) && p.bankName == Some(form.bankName)
  {
    var base := BeneficiaryPayload(vendorId, form.name, form.phoneNumber, form.transferType, true,
                                   None, None, None, None, if Truthy(editingId) then Some(editingId) else None);
    var payload :=
      if form.transferType == Str("UPI") then
        if !Truthy(form.vpaAddress) then Err(VpaRequiredMessage)
        else Ok(base.(vpaAddress := Some(form.vpaAddress)))
      else if !Truthy(form.accountNumber) || !Truthy(form.ifsc) || !Truthy(form.bankName) then
        Err(BankDetailsRequiredMessage)
      else Ok(base.(accountNumber := Some(form.accountNumber), ifsc := Some(form.ifsc), bankName := Some(form.bankName)));
    if payload.Err? then Err(payload.error)
    else if Truthy(editingId) then Ok(Update(payload.value))
    else Ok(Create(payload.value))
  }

  /** `handleSubmit`'s payload, built as the handler builds it: the common fields, then
      the transfer-type fields after their check, then the edited id. */
  method SubmitRequest(form: BeneficiaryForm, vendorId: Value, editingId: Value)
    returns (r: Result<BeneficiaryRequest, string>)
    ensures r == Submission(form, vendorId, editingId)
  {
    var payload := BeneficiaryPayload(vendorId, form.name, form.phoneNumber, form.transferType, true,
                                      None, None, None, None, None);
    if form.transferType == Str("UPI") {
      if !Truthy(form.vpaAddress) {
        return Err(VpaRequiredMessage);
      }
      payload := payload.(vpaAddress := Some(form.vpaAddress));
    } else {
      if !Truthy(form.accountNumber) || !Truthy(form.ifsc) || !Truthy(form.bankName) {
        return Err(BankDetailsRequiredMessage);
      }
      payload := payload.(accountNumber := Some(form.accountNumber));
      payload := payload.(ifsc := Some(form.ifsc));
      payload := payload.(bankName := Some(form.bankName));
    }
    if Truthy(editingId) {
      payload := payload.(id := Some(editingId));
      return Ok(Update(payload));
    }
    return Ok(Create(payload));
  }

  /** `v || ''`. */
  function OrEmpty(v: Value): (r: Value)
    ensures Truthy(r) ==> r == v
    ensures !Truthy(v) ==> r == Str("")
  {
    Or(v, Str(""))
  }

  /** A form field filled by `|| ''`: the beneficiary's value when it is truthy, and
      `''` when it is missing, empty or otherwise falsy. */
  predicate FilledFrom(field: Value, value: Value)
  {
    if Truthy(value) then field == value else field == Str("")
  }

  /** The form `handleEdit` fills from a beneficiary: each missing or empty field
      becomes `''`, and the transfer type defaults to `'UPI'`. */
  function EditForm(b: Payload): (f: BeneficiaryForm)
    ensures f.transferType == if Truthy(Field(b, "transfer_type")) then Field(b, "transfer_type") else Str("UPI")
    ensures Truthy(f.transferType)
    ensures FilledFrom(f.name, Field(b, "name")) && FilledFrom(f.phoneNumber, Field(b, "phone_number"))
    ensures FilledFrom(f.vpaAddress, Field(b, "vpa_address")) && FilledFrom(f.accountNumber, Field(b, "account_number"))
    ensures FilledFrom(f.bankName, Field(b, "bank_name")) && FilledFrom(f.ifsc, Field(b, "ifsc"))
  {
    BeneficiaryForm(
      OrEmpty(Field(b, "name")), OrEmpty(Field(b, "phone_number")), Or(Field(b, "transfer_type"), Str("UPI")),
      OrEmpty(Field(b, "vpa_address")), OrEmpty(Field(b, "account_number")), OrEmpty(Field(b, "bank_name")),
      OrEmpty(Field(b, "ifsc")))
  }

  /** `b[key]` is present and a non-empty string. */
  predicate Filled(b: Payload, key: string)
  {
    key in b && b[key].Str? && b[key].s != ""
  }

  /** Editing a beneficiary whose fields are all non-empty strings shows exactly those
      strings. */
  lemma EditFormOfComplete(b: Payload)
    requires Filled(b, "name") && Filled(b, "phone_number") && Filled(b, "transfer_type")
    requires Filled(b, "vpa_address") && Filled(b, "account_number") && Filled(b, "bank_name") && Filled(b, "ifsc")
    ensures EditForm(b) == BeneficiaryForm(b["name"], b["phone_number"], b["transfer_type"], b["vpa_address"],
                                           b["account_number"], b["bank_name"], b["ifsc"])
  {
  }

  /** The phone input: `value.replace(/\D/g, '').slice(0, 10)`. */
  function SanitizePhone(input: string): (r: string)
    ensures |r| <= 10 && AllDigits(r)
    ensures r <= DigitsOnly(input)
    ensures |r| == if |DigitsOnly(input)| < 10 then |DigitsOnly(input)| else 10
    ensures |DigitsOnly(input)| <= 10 ==> r == DigitsOnly(input)
  {
    Prefix(DigitsOnly(input), 10)
  }

  /** Sanitising twice is sanitising once, and a number already typed correctly is kept. */
  lemma SanitizePhoneIdempotent(input: string)
    ensures SanitizePhone(SanitizePhone(input)) == SanitizePhone(input)
  {
    DigitsOnlyOfDigits(SanitizePhone(input));
  }

  /** The IFSC input: `value.toUpperCase()`; its result is its own upper case. */
  lemma NormalizeIfscStable(input: string)
    ensures forall i :: 0 <= i < |ToUpper(input)| ==> !IsLowerLetter(ToUpper(input)[i])
    ensures ToUpper(ToUpper(input)) == ToUpper(input)
  {
    ToUpperFixedPoint(ToUpper(input));
  }

  /** The status `handleStatusChange` sends: the opposite of the current one. */
  function ToggledStatus(isActive: Value): (r: bool)
    ensures r <==> !Truthy(isActive)
  {
    if Truthy(isActive) then false else true
  }

  /** The body of the toggle request: exactly `id`, `vendor_id` and `is_active`. */
  datatype ToggleBody = ToggleBody(id: Value, vendorId: Value, isActive: bool)

  /** `beneficiaries.find(b => b.id === id)`, as the index of the first match. */
  function FindById(bens: seq<Payload>, id: Value, from: nat): (k: Option<nat>)
    requires from <= |bens|
    ensures k.Some? ==> from <= k.value < |bens| && StrictEquals(Field(bens[k.value], "id"), id)
    ensures k.Some? ==> forall j :: from <= j < k.value ==> !StrictEquals(Field(bens[j], "id"), id)
    ensures k.None? ==> forall j :: from <= j < |bens| ==> !StrictEquals(Field(bens[j], "id"), id)
    decreases |bens| - from
  {
    if from == |bens| then None
    else if StrictEquals(Field(bens[from], "id"), id) then Some(from)
    else FindById(bens, id, from + 1)
  }

  /** The toggle request for `id`, or none when there is no user or no such
      beneficiary. */
  function ToggleRequest(bens: seq<Payload>, user: Value, id: Value): (r: Option<ToggleBody>)
    ensures r.Some? <==> !Nullish(user) && FindById(bens, id, 0).Some?
    ensures r.Some? ==> r.value.id == id && r.value.vendorId == OptGet(user, "id")
                        && r.value.isActive == !Truthy(Field(bens[FindById(bens, id, 0).value], "is_active"))
  {
    if Nullish(user) then None
    else match FindById(bens, id, 0)
      case None => None
      case Some(k) => Some(ToggleBody(id, OptGet(user, "id"), ToggledStatus(Field(bens[k], "is_active"))))
  }

  /** The page's state. */
  class Page {
    var beneficiaries: seq<Payload>
    var showForm: bool
    var editingId: Value
    var form: BeneficiaryForm
    var error: string
    var success: Value
    var submitting: bool

    constructor(beneficiaries: seq<Payload>)
      ensures this.beneficiaries == beneficiaries && !showForm && editingId == Null && form == InitialForm
      ensures error == "" && success == Str("") && !submitting
    {
      this.beneficiaries := beneficiaries;
      showForm := false;
      editingId := Null;
      form := InitialForm;
      error := "";
      success := Str("");
      submitting := false;
    }

    /** `resetForm`: hides the form, forgets the edited id, restores the initial fields
        and clears both messages. */
    method ResetForm()
      modifies this
      ensures beneficiaries == old(beneficiaries) && submitting == old(submitting)
      ensures !showForm && editingId == Null && form == InitialForm && error == "" && success == Str("")
    {
      showForm := false;
      editingId := Null;
      form := InitialForm;
      error := "";
      success := Str("");
    }

    /** `handleEdit(beneficiary)`. */
    method Edit(b: Payload)
      modifies this
      ensures beneficiaries == old(beneficiaries) && submitting == old(submitting)
      ensures editingId == Field(b, "id") && form == EditForm(b) && showForm && error == "" && success == Str("")
    {
      editingId := Field(b, "id");
      form := EditForm(b);
      showForm := true;
      error := "";
      success := Str("");
    }

    /** The phone input. */
    method SetPhone(input: string)
      modifies this
      ensures beneficiaries == old(beneficiaries) && editingId == old(editingId) && showForm == old(showForm)
      ensures error == old(error) && success == old(success) && submitting == old(submitting)
      ensures form == old(form).(phoneNumber := Str(SanitizePhone(input)))
    {
      form := form.(phoneNumber := Str(SanitizePhone(input)));
    }

    /** The IFSC input. */
    method SetIfsc(input: string)
      modifies this
      ensures beneficiaries == old(beneficiaries) && editingId == old(editingId) && showForm == old(showForm)
      ensures error == old(error) && success == old(success) && submitting == old(submitting)
      ensures form == old(form).(ifsc := Str(ToUpper(input)))
    {
      form := form.(ifsc := Str(ToUpper(input)));
    }

    /** `handleSubmit` as written. `user` is the stored user and `reply` what the create
        or update call resolves to (`Err` for the message it throws). After a successful
        save the form is reset, and since the reset clears the success message just
        set, `success` ends up empty. */
    method HandleSubmit(user: Value, reply: Result<Value, string>) returns (sent: Option<BeneficiaryRequest>)
      modifies this
      ensures beneficiaries == old(beneficiaries) && !submitting
      ensures Nullish(user) ==>
                sent.None? && error == NotAuthenticatedMessage && success == Str("")
                && form == old(form) && editingId == old(editingId) && showForm == old(showForm)
      ensures !Nullish(user) && Submission(old(form), OptGet(user, "id"), old(editingId)).Err? ==>
                sent.None? && error == Submission(old(form), OptGet(user, "id"), old(editingId)).error
                && success == Str("") && form == old(form) && editingId == old(editingId) && showForm == old(showForm)
      ensures !Nullish(user) && Submission(old(form), OptGet(user, "id"), old(editingId)).Ok? ==>
                sent == Some(Submission(old(form), OptGet(user, "id"), old(editingId)).value)
      ensures sent.Some? && reply.Ok? && SaveSucceeded(reply.value) ==>
                form == InitialForm && editingId == Null && !showForm && error == "" && success == Str("")
      ensures sent.Some? && reply.Ok? && !SaveSucceeded(reply.value) ==>
                error == (if Nullish(reply.value) then TypeErrorMessage else "") && success == Str("")
                && form == old(form) && editingId == old(editingId) && showForm == old(showForm)
      ensures sent.Some? && reply.Err? ==>
                error == (if reply.error != "" then reply.error else SaveFailedMessage) && success == Str("")
                && form == old(form) && editingId == old(editingId) && showForm == old(showForm)
    {
      error := "";
      success := Str("");
      submitting := true;
      sent := None;
      if Nullish(user) {
        error := NotAuthenticatedMessage;
        submitting := false;
        return;
      }
      var request := SubmitRequest(form, OptGet(user, "id"), editingId);
      if request.Err? {
        error := request.error;
        submitting := false;
        return;
      }
      sent := Some(request.value);
      match reply {
        case Err(e) =>
          error := if e != "" then e else SaveFailedMessage;
        case Ok(result) =>
          if Nullish(result) {
            error := TypeErrorMessage;
          } else if SaveSucceeded(result) {
            success := SuccessMessage(result, request.value);
            ResetForm();
          }
      }
      submitting := false;
    }

    /** `handleSubmit` with the message kept: the same handler, except that the reset
        after a successful save leaves the success message alone, so the page shows it. */
    method HandleSubmitKeepingMessage(user: Value, reply: Result<Value, string>) returns (sent: Option<BeneficiaryRequest>)
      modifies this
      ensures beneficiaries == old(beneficiaries) && !submitting
      ensures sent.Some? <==> !Nullish(user) && Submission(old(form), OptGet(user, "id"), old(editingId)).Ok?
      ensures sent.Some? ==> sent.value == Submission(old(form), OptGet(user, "id"), old(editingId)).value
      ensures sent.Some? && reply.Ok? && SaveSucceeded(reply.value) ==>
                form == InitialForm && editingId == Null && !showForm && error == ""
                && success == SuccessMessage(reply.value, sent.value) && Truthy(success)
    {
      sent := HandleSubmit(user, reply);
      if sent.Some? && reply.Ok? && SaveSucceeded(reply.value) {
        success := SuccessMessage(reply.value, sent.value);
      }
    }

    /** `handleStatusChange(id)`: the request it sends, if any, and the alert it shows.
        `reply` is what the update call resolves to (`Err` for the message it throws); the
        refetch after a success is outside the model. */
    method HandleStatusChange(user: Value, id: Value, reply: Result<Value, string>)
      returns (sent: Option<ToggleBody>, alert: Option<string>)
      ensures sent == ToggleRequest(beneficiaries, user, id)
      ensures Nullish(user) ==> alert == Some(NotAuthenticatedMessage)
      ensures !Nullish(user) && sent.None? ==> alert.None?
      ensures sent.Some? && reply.Err? ==>
                alert == Some(if reply.error != "" then reply.error else StatusFailedMessage)
      ensures sent.Some? && reply.Ok? ==>
                (alert == Some(StatusUpdatedMessage) <==> SaveSucceeded(reply.value))
                && (alert == Some(TypeErrorMessage) <==> Nullish(reply.value))
                && (alert.None? <==> !Nullish(reply.value) && !SaveSucceeded(reply.value))
    {
      sent := None;
      alert := None;
      if Nullish(user) {
        alert := Some(NotAuthenticatedMessage);
        return;
      }
      var k := FindById(beneficiaries, id, 0);
      if k.None? {
        return;
      }
      var newStatus := ToggledStatus(Field(beneficiaries[k.value], "is_active"));
      sent := Some(ToggleBody(id, OptGet(user, "id"), newStatus));
      match reply {
        case Err(e) =>
          alert := Some(if e != "" then e else StatusFailedMessage);
        case Ok(result) =>
          if Nullish(result) {
            alert := Some(TypeErrorMessage);
          } else if SaveSucceeded(result) {
            alert := Some(StatusUpdatedMessage);
          }
      }
    }
  }

  /** `result.status === 'success'`. */
  predicate SaveSucceeded(result: Value)
  {
    OptGet(result, "status") == Str("success")
  }

  /** The default message for a save. */
  function DefaultMessage(request: BeneficiaryRequest): string
  {
    if request.Update? then "Beneficiary updated successfully" else "Beneficiary added successfully"
  }

  /** `result.message || <default>`: the reply's message when it has one, which the
      page would show. */
  function SuccessMessage(result: Value, request: BeneficiaryRequest): (m: Value)
    ensures Truthy(m)
    ensures Truthy(OptGet(result, "message")) ==> m == OptGet(result, "message")
    ensures !Truthy(OptGet(result, "message")) ==> m == Str(DefaultMessage(request))
  {
    Or(OptGet(result, "message"), Str(DefaultMessage(request)))
  }
}
