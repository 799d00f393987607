/** The admin top-up client: the query of `listTopupRequests` and the request body of
    `processTopupRequest`. The HTTP round trip itself is outside the model. */
module TopupApi {
  import opened Wrappers
  import opened JsValue
  import opened Query

  /** The options object of `listTopupRequests`; an option not given is `Undefined`. */
  datatype ListOptions = ListOptions(status: Value, vendorId: Value, page: Value, limit: Value)

  const ListPath := "/topup/list.php"

  const InvalidActionMessage := "Invalid action. Must be either \"approve\" or \"reject\""

  /** The URL `listTopupRequests` fetches: `status` unless it is missing or `'all'`, and
      `vendor_id`, `page` and `limit` only when truthy, in that order. */
  method ListTopupRequestsUrl(adminApiUrl: string, options: ListOptions) returns (url: string, params: Params)
    ensures Lookup(params, "status") ==
            if Truthy(options.status) && options.status != Str("all") then Some(ToJsString(options.status)) else None
    ensures Lookup(params, "vendor_id") == if Truthy(options.vendorId) then Some(ToJsString(options.vendorId)) else None
    ensures Lookup(params, "page") == if Truthy(options.page) then Some(ToJsString(options.page)) else None
    ensures Lookup(params, "limit") == if Truthy(options.limit) then Some(ToJsString(options.limit)) else None
    ensures forall name :: name !in {"status", "vendor_id", "page", "limit"} ==> Lookup(params, name).None?
    ensures url == WithQuery(adminApiUrl + ListPath, params)
  {
    var status, vendorId, page, limit :=
      ToJsString(options.status), ToJsString(options.vendorId), ToJsString(options.page), ToJsString(options.limit);
    params := [];
    params := AppendIf(params, Truthy(options.status) && options.status != Str("all"), "status", status);
    params := AppendIf(params, Truthy(options.vendorId), "vendor_id", vendorId);
    params := AppendIf(params, Truthy(options.page), "page", page);
    params := AppendIf(params, Truthy(options.limit), "limit", limit);
    LookupOfFourAppends(Truthy(options.status) && options.status != Str("all"), "status", status,
                        Truthy(options.vendorId), "vendor_id", vendorId, Truthy(options.page), "page", page,
                        Truthy(options.limit), "limit", limit);
    url := WithQuery(adminApiUrl + ListPath, params);
  }

  /** The body `processTopupRequest` posts: refused for an action other than `'approve'`
      or `'reject'`; otherwise `request_id`, `action` and `admin_id`, plus `admin_notes`
      and `rejection_reason` only when truthy. */
  method ProcessTopupRequestBody(requestId: Value, action: string, adminId: Value,
                                 adminNotes: Value, rejectionReason: Value)
    returns (r: Result<Payload, string>)
    ensures r.Err? <==> action != "approve" && action != "reject"
    ensures r.Err? ==> r.error == InvalidActionMessage
    ensures r.Ok? ==>
              r.value.Keys == {"request_id", "action", "admin_id"}
                              + (if Truthy(adminNotes) then {"admin_notes"} else {})
                              + (if Truthy(rejectionReason) then {"rejection_reason"} else {})
    ensures r.Ok? ==> r.value["request_id"] == requestId && r.value["action"] == Str(action)
                      && r.value["admin_id"] == adminId
    ensures r.Ok? && Truthy(adminNotes) ==> r.value["admin_notes"] == adminNotes
    ensures r.Ok? && Truthy(rejectionReason) ==> r.value["rejection_reason"] == rejectionReason
  {
    if action != "approve" && action != "reject" {
      return Err(InvalidActionMessage);
    }
    var payload: Payload := map["request_id" := requestId, "action" := Str(action), "admin_id" := adminId];
    if Truthy(adminNotes) {
      payload := payload["admin_notes" := adminNotes];
    }
    if Truthy(rejectionReason) {
      payload := payload["rejection_reason" := rejectionReason];
    }
    return Ok(payload);
  }
}
