/** The admin vendor client: the query of `getAllVendors` and the body of
    `updateVendorStatus`. The HTTP round trip itself is outside the model. */
module VendorApi {
  import opened Wrappers
  import opened JsValue
  import opened Query

  /** The options object of `getAllVendors`; an option not given is `Undefined`. */
  datatype ListOptions = ListOptions(status: Value, role: Value, page: Value, limit: Value)

  const VendorsPath := "/vendors.php"

  /** The actions `updateVendorStatus` accepts. */
  const StatusActions: seq<string> := ["approve", "suspend", "activate"]

  const InvalidActionMessage := "Invalid action. Must be one of: approve, suspend, activate"

  /** The URL `getAllVendors` fetches: `status` unless it is missing or `'all'`, and
      `role`, `page` and `limit` only when truthy, in that order. */
  method GetAllVendorsUrl(adminApiUrl: string, options: ListOptions) returns (url: string, params: Params)
    ensures Lookup(params, "status") ==
            if Truthy(options.status) && options.status != Str("all") then Some(ToJsString(options.status)) else None
    ensures Lookup(params, "role") == if Truthy(options.role) then Some(ToJsString(options.role)) else None
    ensures Lookup(params, "page") == if Truthy(options.page) then Some(ToJsString(options.page)) else None
    ensures Lookup(params, "limit") == if Truthy(options.limit) then Some(ToJsString(options.limit)) else None
    ensures forall name :: name !in {"status", "role", "page", "limit"} ==> Lookup(params, name).None?
    ensures url == WithQuery(adminApiUrl + VendorsPath, params)
  {
    var status, role, page, limit :=
      ToJsString(options.status), ToJsString(options.role), ToJsString(options.page), ToJsString(options.limit);
    params := [];
    params := AppendIf(params, Truthy(options.status) && options.status != Str("all"), "status", status);
    params := AppendIf(params, Truthy(options.role), "role", role);
    params := AppendIf(params, Truthy(options.page), "page", page);
    params := AppendIf(params, Truthy(options.limit), "limit", limit);
    LookupOfFourAppends(Truthy(options.status) && options.status != Str("all"), "status", status,
                        Truthy(options.role), "role", role, Truthy(options.page), "page", page,
                        Truthy(options.limit), "limit", limit);
    url := WithQuery(adminApiUrl + VendorsPath, params);
  }

  /** The body `updateVendorStatus` posts: refused, before any request, for an action
      outside the whitelist; otherwise exactly `vendor_id` and `action`. */
  function UpdateVendorStatusBody(vendorId: Value, action: Value): (r: Result<Payload, string>)
    ensures r.Err? <==> !(action.Str? && action.s in StatusActions)
    ensures r.Err? ==> r.error == InvalidActionMessage
    ensures r.Ok? ==> r.value.Keys == {"vendor_id", "action"}
                      && r.value["vendor_id"] == vendorId && r.value["action"] == action
  {
    if !(action.Str? && action.s in StatusActions) then Err(InvalidActionMessage)
    else Ok(map["vendor_id" := vendorId, "action" := action])
  }
}
