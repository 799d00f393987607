/** The admin vendor list: which status action each vendor offers, the local status
    update after a successful change, and the status badges. */
module VendorsPage {
  import opened Wrappers
  import opened JsValue
  import VendorApi

  const DefaultSuccessMessage := "Vendor status updated successfully"
  const UpdateFailedMessage := "Failed to update vendor status"
  const TypeErrorMessage := "TypeError"

  /** The status buttons shown for a vendor: approve a pending one, suspend an active
      one, activate a suspended one, and nothing otherwise. */
  function Actions(status: Value): (actions: seq<string>)
    ensures status == Str("pending") ==> actions == ["approve"]
    ensures status == Str("active") ==> actions == ["suspend"]
    ensures status == Str("suspended") ==> actions == ["activate"]
    ensures status != Str("pending") && status != Str("active") && status != Str("suspended") ==> actions == []
  {
    (if status == Str("pending") then ["approve"] else [])
    + (if status == Str("active") then ["suspend"] else [])
    + (if status == Str("suspended") then ["activate"] else [])
  }

  /** Every action a button offers is one the vendor client accepts, so the request
      body is built. */
  lemma OfferedActionsAccepted(status: Value, vendorId: Value)
    ensures forall a :: a in Actions(status) ==> VendorApi.UpdateVendorStatusBody(vendorId, Str(a)).Ok?
  {
    forall a | a in Actions(status)
      ensures VendorApi.UpdateVendorStatusBody(vendorId, Str(a)).Ok?
    {
      assert a in VendorApi.StatusActions;
    }
  }

  /** The badge class for a vendor status. The vendor list has its own
      `getStatusBadgeClass`: the vendor statuses active, pending and suspended take the
      colours the top-up requests page gives approved, pending and rejected. */
  function BadgeClass(status: Value): (c: string)
    ensures status == Str("active") ==> c == "bg-green-100 text-green-800"
    ensures status == Str("pending") ==> c == "bg-yellow-100 text-yellow-800"
    ensures status == Str("suspended") ==> c == "bg-red-100 text-red-800"
    ensures status != Str("active") && status != Str("pending") && status != Str("suspended") ==>
              c == "bg-gray-100 text-gray-800"
  {
    if status == Str("active") then "bg-green-100 text-green-800"
    else if status == Str("pending") then "bg-yellow-100 text-yellow-800"
    else if status == Str("suspended") then "bg-red-100 text-red-800"
    else "bg-gray-100 text-gray-800"
  }

  /** Different known statuses get different badges, and an unknown one the grey one. */
  lemma BadgesDistinct(a: Value, b: Value)
    requires a == Str("active") || a == Str("pending") || a == Str("suspended")
    requires a != b
    ensures BadgeClass(a) != BadgeClass(b)
  {
  }

  /** `vendors.map(v => v.id === vendorId ? { ...v, status } : v)`. */
  function WithStatus(vendors: seq<Payload>, vendorId: Value, status: Value): (r: seq<Payload>)
    ensures |r| == |vendors|
    ensures forall i :: 0 <= i < |r| && StrictEquals(Field(vendors[i], "id"), vendorId) ==>
              r[i] == vendors[i]["status" := status]
    ensures forall i :: 0 <= i < |r| && !StrictEquals(Field(vendors[i], "id"), vendorId) ==> r[i] == vendors[i]
  {
    seq(|vendors|, i requires 0 <= i < |vendors| =>
      if StrictEquals(Field(vendors[i], "id"), vendorId) then vendors[i]["status" := status] else vendors[i])
  }

  /** Only the matching vendor's status changes: every vendor keeps its id and every
      other field, so applying the same update again changes nothing. */
  lemma WithStatusIdempotent(vendors: seq<Payload>, vendorId: Value, status: Value)
    ensures WithStatus(WithStatus(vendors, vendorId, status), vendorId, status) == WithStatus(vendors, vendorId, status)
  {
    var once := WithStatus(vendors, vendorId, status);
    var twice := WithStatus(once, vendorId, status);
    forall i | 0 <= i < |once|
      ensures twice[i] == once[i]
    {
      assert Field(once[i], "id") == Field(vendors[i], "id");
    }
  }

  /** The status in a successful reply: `result.data.vendor.status`. */
  function RepliedStatus(result: Value): Value
  {
    OptGet(OptGet(OptGet(result, "data"), "vendor"), "status")
  }

  /** Whether `result.data.vendor.status` can be read: neither `result.data` nor
      `result.data.vendor` is `null` or `undefined`. */
  predicate StatusReadable(result: Value)
  {
    !Nullish(OptGet(result, "data")) && !Nullish(OptGet(OptGet(result, "data"), "vendor"))
  }

  /** Whether some vendor in the list has the id, so the update reads the replied status. */
  predicate AnyMatches(vendors: seq<Payload>, vendorId: Value)
  {
    exists i :: 0 <= i < |vendors| && StrictEquals(Field(vendors[i], "id"), vendorId)
  }

  /** The vendor list. `crashed` records that a state updater threw while the page was
      rendering, which unmounts it. */
  class Page {
    var vendors: seq<Payload>
    var crashed: bool

    constructor(vendors: seq<Payload>)
      ensures this.vendors == vendors && !crashed
    {
      this.vendors := vendors;
      crashed := false;
    }

    /** `handleStatusChange(vendorId, action)`: `reply` is what `updateVendorStatus`
        resolves to (`Err` for the message it throws); `alert` is the message shown.
        The list is updated through a state updater that React runs when it renders,
        after the handler has returned: if it reads `result.data.vendor.status` from a
        reply without them, it throws there, outside the handler's `try`, and the
        success alert has already been shown. */
    method HandleStatusChange(vendorId: Value, reply: Result<Value, string>) returns (alert: Option<Value>)
      modifies this
      ensures reply.Ok? && !Nullish(reply.value) && OptGet(reply.value, "status") == Str("success") ==>
                alert == Some(Or(OptGet(reply.value, "message"), Str(DefaultSuccessMessage)))
      ensures reply.Ok? && !Nullish(reply.value) && OptGet(reply.value, "status") == Str("success")
              && (StatusReadable(reply.value) || !AnyMatches(old(vendors), vendorId)) ==>
                vendors == WithStatus(old(vendors), vendorId, RepliedStatus(reply.value))
                && crashed == old(crashed)
      ensures reply.Ok? && !Nullish(reply.value) && OptGet(reply.value, "status") == Str("success")
              && !StatusReadable(reply.value) && AnyMatches(old(vendors), vendorId) ==>
                vendors == old(vendors) && crashed
      ensures reply.Ok? && Nullish(reply.value) ==>
                vendors == old(vendors) && crashed == old(crashed) && alert == Some(Str(TypeErrorMessage))
      ensures reply.Ok? && !Nullish(reply.value) && OptGet(reply.value, "status") != Str("success") ==>
                vendors == old(vendors) && crashed == old(crashed) && alert == None
      ensures reply.Err? ==>
                vendors == old(vendors) && crashed == old(crashed)
                && alert == Some(Str(if reply.error != "" then reply.error else UpdateFailedMessage))
    {
      alert := None;
      match reply {
        case Err(e) =>
          alert := Some(Str(if e != "" then e else UpdateFailedMessage));
        case Ok(result) =>
          if Nullish(result) {
            alert := Some(Str(TypeErrorMessage));
          } else if OptGet(result, "status") == Str("success") {
            if StatusReadable(result) || !AnyMatches(vendors, vendorId) {
              vendors := WithStatus(vendors, vendorId, RepliedStatus(result));
            } else {
              crashed := true;
            }
            alert := Some(Or(OptGet(result, "message"), Str(DefaultSuccessMessage)));
          }
      }
    }
  }
}
