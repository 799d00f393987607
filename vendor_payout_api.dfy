/** The vendor payout client: the reference generator and the payload that
    `initiateVendorPayout` posts, for a saved beneficiary or a manually entered one. */
module VendorPayoutApi {
  import opened Wrappers
  import opened JsText
  import opened JsNumber
  import opened JsValue

  /** `generatePayoutReferenceId()`, given `Date.now()` and the base-36 digits of
      `Math.random()`: `PAYOUT_`, the timestamp, `_`, and the first six random digits
      upper-cased. */
  function GeneratePayoutReferenceId(timestamp: nat, randomDigits: string): (r: string)
    ensures |r| >= 8 && r[..7] == "PAYOUT_"
  {
    "PAYOUT_" + NatToString(timestamp) + "_" + RandomToken(randomDigits, 6)
  }

  /** The digits of `Math.random().toString(36)` after `0.`. */
  predicate Base36Digits(s: string)
  {
    forall i :: 0 <= i < |s| ==> IsDigit(s[i]) || IsLowerLetter(s[i])
  }

  /** Reading a payout reference back: the timestamp after `PAYOUT_`, and the random
      part after the `_` that ends the timestamp. */
  function ReferenceTimestamp(r: string): Option<nat>
    requires |r| >= 7
  {
    ParseDigits(r[7..])
  }

  function ReferenceRandomPart(r: string): string
    requires |r| >= 7
  {
    var k := 7 + DigitRun(r[7..]);
    if k < |r| then r[k + 1..] else ""
  }

  /** A generated reference determines its timestamp and its random part. */
  lemma PayoutReferenceDecodes(timestamp: nat, randomDigits: string)
    ensures var r := GeneratePayoutReferenceId(timestamp, randomDigits);
            ReferenceTimestamp(r) == Some(timestamp)
            && ReferenceRandomPart(r) == RandomToken(randomDigits, 6)
  {
    var r := GeneratePayoutReferenceId(timestamp, randomDigits);
    var ts := NatToString(timestamp);
    var rest := "_" + RandomToken(randomDigits, 6);
    assert r[7..] == ts + rest;
    DigitRunOfDigits(ts, rest);
    assert r[7..][..|ts|] == ts;
    DigitsValueOfNatToString(timestamp);
    assert r[7 + |ts| + 1..] == RandomToken(randomDigits, 6);
  }

  /** The random part of a reference is at most six characters, none of them a
      lower-case letter or a `_`. */
  lemma PayoutReferenceRandomPart(randomDigits: string)
    requires Base36Digits(randomDigits)
    ensures var t := RandomToken(randomDigits, 6);
            |t| <= 6 && forall i :: 0 <= i < |t| ==> IsDigit(t[i]) || IsUpperLetter(t[i])
  {
    var p := Prefix(randomDigits, 6);
    var t := RandomToken(randomDigits, 6);
    forall i | 0 <= i < |t| ensures IsDigit(t[i]) || IsUpperLetter(t[i])
    {
      assert p[i] == randomDigits[i];
      assert t[i] == UpperChar(p[i]);
    }
  }

  /** The fields of `payoutData`; a field not given is `Undefined`. */
  datatype PayoutData = PayoutData(
    vendorId: Value, beneficiaryId: Value, amount: Value, narration: Value,
    merchantReferenceId: Value, transferType: Value, benName: Value, benPhoneNumber: Value,
    benVpaAddress: Value, benAccountNumber: Value, benIfsc: Value, benBankName: Value)

  const InvalidBeneficiaryMessage := "Invalid beneficiary_id: must be a valid integer"
  const TypeErrorMessage := "TypeError"

  /** A saved beneficiary is used when `beneficiary_id` is neither `undefined` nor `null`. */
  predicate UsesSavedBeneficiary(d: PayoutData)
  {
    !Nullish(d.beneficiaryId)
  }

  /** The object `initiateVendorPayout` posts. A field that is `None` is not a key of
      the object at all. */
  datatype PayoutPayload = PayoutPayload(
    vendorId: Value, amount: Value, beneficiaryId: Option<int>, transferType: Option<Value>,
    benName: Option<Value>, benPhoneNumber: Option<Value>, benVpaAddress: Option<Value>,
    benAccountNumber: Option<Value>, benIfsc: Option<Value>, benBankName: Option<Value>,
    narration: Option<Value>, merchantReferenceId: Option<Value>)

  /** No `ben_*` field is present. */
  predicate NoBeneficiaryDetails(p: PayoutPayload)
  {
    p.benName.None? && p.benPhoneNumber.None? && p.benVpaAddress.None?
    && p.benAccountNumber.None? && p.benIfsc.None? && p.benBankName.None?
  }

  /** `Some(v)` exactly when `v` is truthy: a field the source sets under `if (v)`. */
  function IfTruthy(v: Value): (r: Option<Value>)
    ensures r.Some? <==> Truthy(v)
    ensures r.Some? ==> r.value == v
  {
    if Truthy(v) then Some(v) else None
  }

  /** The payload `initiateVendorPayout` posts, or the error it throws before posting:
      an id that `parseInt` cannot read, or a `transfer_type` override that is truthy but
      not a string (which has no `toUpperCase`). */
  method InitiateVendorPayoutPayload(d: PayoutData) returns (r: Result<PayoutPayload, string>)
    ensures r.Err? <==>
              UsesSavedBeneficiary(d)
              && (ParseIntValue(d.beneficiaryId).None? || (Truthy(d.transferType) && !d.transferType.Str?))
    ensures r.Err? && ParseIntValue(d.beneficiaryId).None? ==> r.error == InvalidBeneficiaryMessage
    ensures r.Ok? ==> r.value.vendorId == d.vendorId && r.value.amount == NumberOrNaN(ParseFloatValue(d.amount))
    ensures r.Ok? && UsesSavedBeneficiary(d) ==>
              r.value.beneficiaryId == ParseIntValue(d.beneficiaryId) && NoBeneficiaryDetails(r.value)
              && r.value.transferType == if Truthy(d.transferType) then Some(Str(ToUpper(d.transferType.s))) else None
    ensures r.Ok? && !UsesSavedBeneficiary(d) ==>
              r.value.beneficiaryId.None? && r.value.transferType == Some(d.transferType)
              && r.value.benName == Some(d.benName) && r.value.benPhoneNumber == Some(d.benPhoneNumber)
    ensures r.Ok? && !UsesSavedBeneficiary(d) && d.transferType == Str("UPI") ==>
              r.value.benVpaAddress == Some(d.benVpaAddress)
              && r.value.benAccountNumber.None? && r.value.benIfsc.None? && r.value.benBankName.None?
    ensures r.Ok? && !UsesSavedBeneficiary(d) && d.transferType != Str("UPI") ==>
              r.value.benVpaAddress.None? && r.value.benAccountNumber == Some(d.benAccountNumber)
              && r.value.benIfsc == Some(d.benIfsc) && r.value.benBankName == Some(d.benBankName)
    ensures r.Ok? ==> r.value.narration == IfTruthy(d.narration)
                      && r.value.merchantReferenceId == IfTruthy(d.merchantReferenceId)
  {
    var payload := PayoutPayload(d.vendorId, NumberOrNaN(ParseFloatValue(d.amount)),
                                 None, None, None, None, None, None, None, None, None, None);
    if UsesSavedBeneficiary(d) {
      var id := ParseIntValue(d.beneficiaryId);
      if id.None? {
        return Err(InvalidBeneficiaryMessage);
      }
      payload := payload.(beneficiaryId := id);
      if Truthy(d.transferType) {
        if !d.transferType.Str? {
          return Err(TypeErrorMessage);
        }
        payload := payload.(transferType := Some(Str(ToUpper(d.transferType.s))));
      }
    } else {
      payload := payload.(transferType := Some(d.transferType));
      payload := payload.(benName := Some(d.benName));
      payload := payload.(benPhoneNumber := Some(d.benPhoneNumber));
      if d.transferType == Str("UPI") {
        payload := payload.(benVpaAddress := Some(d.benVpaAddress));
      } else {
        payload := payload.(benAccountNumber := Some(d.benAccountNumber));
        payload := payload.(benIfsc := Some(d.benIfsc));
        payload := payload.(benBankName := Some(d.benBankName));
      }
    }
    if Truthy(d.narration) {
      payload := payload.(narration := Some(d.narration));
    }
    if Truthy(d.merchantReferenceId) {
      payload := payload.(merchantReferenceId := Some(d.merchantReferenceId));
    }
    return Ok(payload);
  }
}
