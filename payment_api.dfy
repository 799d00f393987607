/** The payment client: the merchant reference generator, the fund-transfer payload,
    the status request, the bounded status poll and the webhook hook. */
module PaymentApi {
  import opened Wrappers
  import opened JsText
  import opened JsNumber
  import opened JsValue

  const TypeErrorMessage := "TypeError"

  /** `vendorId?.substring(0, 8) || 'VENDOR'`: a string gives its first eight
      characters, `undefined`/`null` gives `undefined`; anything else has no `substring`
      and throws. */
  function VendorPart(vendorId: Value): (r: Result<string, string>)
    ensures r.Err? <==> !Nullish(vendorId) && !vendorId.Str?
    ensures r.Ok? && vendorId.Str? && vendorId.s != "" ==> r.value == Prefix(vendorId.s, 8)
    ensures r.Ok? && (Nullish(vendorId) || vendorId == Str("")) ==> r.value == "VENDOR"
  {
    if Nullish(vendorId) then Ok("VENDOR")
    else if !vendorId.Str? then Err(TypeErrorMessage)
    else if vendorId.s == "" then Ok("VENDOR")
    else Ok(Prefix(vendorId.s, 8))
  }

  /** `generateMerchantReferenceId(vendorId)`, given `Date.now()` and the base-36 digits
      of `Math.random()`: `VND`, the vendor part, the timestamp and six random
      characters upper-cased, with no separators. */
  function GenerateMerchantReferenceId(vendorId: Value, timestamp: nat, randomDigits: string)
    : (r: Result<string, string>)
    ensures r.Err? <==> VendorPart(vendorId).Err?
    ensures r.Ok? ==>
              var v, t, x := VendorPart(vendorId).value, NatToString(timestamp), RandomToken(randomDigits, 6);
              && |r.value| == 3 + |v| + |t| + |x|
              && r.value[..3] == "VND"
              && r.value[3..3 + |v|] == v
              && r.value[3 + |v|..3 + |v| + |t|] == t
              && r.value[3 + |v| + |t|..] == x
  {
    match VendorPart(vendorId)
    case Err(e) => Err(e)
    case Ok(v) => Ok("VND" + v + NatToString(timestamp) + RandomToken(randomDigits, 6))
  }

  /** The part of `transferData` that `initiateFundTransfer` reads. */
  datatype TransferData = TransferData(
    beneficiary: Value, amount: Value, mode: Value, merchantReferenceId: Value, narration: Value)

  /** The object `initiateFundTransfer` posts; a `None` field is not a key at all. */
  datatype TransferPayload = TransferPayload(
    benName: Value, benPhoneNumber: string, amount: string, merchantReferenceId: Value,
    transferType: Value, narration: Value, benVpaAddress: Option<Value>,
    benAccountNumber: Option<string>, benIfsc: Option<Value>, benBankName: Option<Value>)

  const DefaultNarration := "PAYNINJA Fund Transfer"

  /** The payload `initiateFundTransfer` posts: phone, amount and account number go as
      strings, the narration defaults, and the mode decides the destination fields.
      A missing beneficiary object throws on its first property read. */
  method InitiateFundTransferPayload(t: TransferData) returns (r: Result<TransferPayload, string>)
    ensures r.Err? <==> Nullish(t.beneficiary)
    ensures r.Ok? ==>
              var b := t.beneficiary;
              && r.value.benName == OptGet(b, "name")
              && r.value.benPhoneNumber == ToJsString(OptGet(b, "phoneNumber"))
              && r.value.amount == ToJsString(t.amount)
              && r.value.merchantReferenceId == t.merchantReferenceId
              && r.value.transferType == t.mode
              && r.value.narration == (if Truthy(t.narration) then t.narration else Str(DefaultNarration))
    ensures r.Ok? && t.mode == Str("UPI") ==>
              r.value.benVpaAddress == Some(OptGet(t.beneficiary, "vpaAddress"))
              && r.value.benAccountNumber.None? && r.value.benIfsc.None? && r.value.benBankName.None?
    ensures r.Ok? && t.mode != Str("UPI") ==>
              r.value.benVpaAddress.None?
              && r.value.benAccountNumber == Some(ToJsString(OptGet(t.beneficiary, "accountNumber")))
              && r.value.benIfsc == Some(OptGet(t.beneficiary, "ifsc"))
              && r.value.benBankName == Some(OptGet(t.beneficiary, "bankName"))
  {
    var b := t.beneficiary;
    if Nullish(b) {
      return Err(TypeErrorMessage);
    }
    var payload := TransferPayload(
      OptGet(b, "name"), ToJsString(OptGet(b, "phoneNumber")), ToJsString(t.amount),
      t.merchantReferenceId, t.mode, Or(t.narration, Str(DefaultNarration)), None, None, None, None);
    if t.mode == Str("UPI") {
      payload := payload.(benVpaAddress := Some(OptGet(b, "vpaAddress")));
    } else {
      payload := payload.(benAccountNumber := Some(ToJsString(OptGet(b, "accountNumber"))));
      payload := payload.(benIfsc := Some(OptGet(b, "ifsc")));
      payload := payload.(benBankName := Some(OptGet(b, "bankName")));
    }
    return Ok(payload);
  }

  /** The amount travels as a string, and that string still reads as the same number. */
  lemma TransferAmountReadsBack(t: TransferData, p: TransferPayload, n: Number)
    requires t.amount == Num(n) && p.amount == ToJsString(t.amount)
    ensures ParseFloat(p.amount) == Some(n)
  {
    ParseFloatOfNumberToString(n);
  }

  /** The body `checkTransactionStatus` posts. */
  function StatusRequestBody(merchantReferenceId: Value): (body: Payload)
    ensures body.Keys == {"merchant_reference_id"}
    ensures body["merchant_reference_id"] == merchantReferenceId
  {
    map["merchant_reference_id" := merchantReferenceId]
  }

  /** One status call as the poll sees it: the reply, or the error it threw. */
  type Attempt = Result<Value, string>

  const DefaultMaxAttempts := 60
  const TimeoutMessage := "Transaction status polling timeout"

  /** A reply whose `status` is neither `'processing'` nor `'pending'` ends the poll.
      Reading `status` of an `undefined`/`null` reply throws inside the `try`, so such a
      reply counts as an error. */
  predicate IsTerminal(a: Attempt)
  {
    a.Ok? && Get(a.value, "status").Ok?
    && Get(a.value, "status").value != Str("processing")
    && Get(a.value, "status").value != Str("pending")
  }

  /** The index of the first terminal attempt at or after `i`, if any. */
  function FirstTerminal(attempts: seq<Attempt>, i: nat): (k: Option<nat>)
    requires i <= |attempts|
    ensures k.Some? ==> i <= k.value < |attempts| && IsTerminal(attempts[k.value])
    ensures k.Some? ==> forall j :: i <= j < k.value ==> !IsTerminal(attempts[j])
    ensures k.None? ==> forall j :: i <= j < |attempts| ==> !IsTerminal(attempts[j])
    decreases |attempts| - i
  {
    if i == |attempts| then None
    else if IsTerminal(attempts[i]) then Some(i)
    else FirstTerminal(attempts, i + 1)
  }

  /** `pollTransactionStatus(id, maxAttempts = 60)` against `outcomes`, the outcome each
      successive status call would have. It returns the first terminal reply among the
      first `maxAttempts` calls, or the timeout error when there is none; `calls` counts
      the status calls made and `waits` the pauses between them. */
  method PollTransactionStatus(outcomes: seq<Attempt>, maxAttempts: int := DefaultMaxAttempts)
    returns (r: Result<Value, string>, calls: nat, waits: nat)
    requires maxAttempts <= |outcomes|
    ensures var n := if maxAttempts < 0 then 0 else maxAttempts;
            match FirstTerminal(outcomes[..n], 0)
            case Some(k) => r == Ok(outcomes[k].value) && calls == k + 1
            case None => r == Err(TimeoutMessage) && calls == n
    ensures calls <= (if maxAttempts < 0 then 0 else maxAttempts)
    ensures waits == if calls == 0 then 0 else calls - 1
  {
    calls, waits := 0, 0;
    var attempt := 0;
    ghost var n := if maxAttempts < 0 then 0 else maxAttempts;
    while attempt < maxAttempts
      invariant 0 <= attempt <= n && calls == attempt
      invariant waits == if attempt < maxAttempts || attempt == 0 then attempt else attempt - 1
      invariant forall j :: 0 <= j < attempt ==> !IsTerminal(outcomes[j])
    {
      var outcome := outcomes[attempt];
      calls := calls + 1;
      if IsTerminal(outcome) {
        assert outcomes[..n][attempt] == outcome;
        FirstTerminalIsFirst(outcomes[..n], attempt);
        return Ok(outcome.value), calls, waits;
      }
      if attempt < maxAttempts - 1 {
        waits := waits + 1;
      }
      attempt := attempt + 1;
    }
    FirstTerminalNone(outcomes[..n]);
    r := Err(TimeoutMessage);
  }

  /** A terminal attempt with no terminal attempt before it is the one `FirstTerminal`
      finds. */
  lemma FirstTerminalIsFirst(attempts: seq<Attempt>, k: nat)
    requires k < |attempts| && IsTerminal(attempts[k])
    requires forall j :: 0 <= j < k ==> !IsTerminal(attempts[j])
    ensures FirstTerminal(attempts, 0) == Some(k)
  {
  }

  /** With no terminal attempt, `FirstTerminal` finds none. */
  lemma FirstTerminalNone(attempts: seq<Attempt>)
    requires forall j :: 0 <= j < |attempts| ==> !IsTerminal(attempts[j])
    ensures FirstTerminal(attempts, 0).None?
  {
  }

  /** `handleWebhook(data)`: the data is handed back untouched. */
  function HandleWebhook(webhookData: Value): (r: Value)
    ensures r == webhookData
  {
    webhookData
  }
}
