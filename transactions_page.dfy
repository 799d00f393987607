/** The payout transactions page: the list request it posts, the rows it builds from
    the reply, and its filters and pagination. */
module TransactionsPage {
  import opened Wrappers
  import opened JsText
  import opened JsValue

  const PageSize := 20
  const NotAuthenticatedMessage := "User not authenticated"
  const FetchFailedMessage := "Failed to fetch transactions"
  const ErrorAlertPrefix := "Error fetching transactions: "
  const TypeErrorMessage := "TypeError"

  /** The JSON body of the list request; a `None` field is not a key. */
  datatype ListBody = ListBody(page: int, limit: int, vendorId: Option<Value>,
                               status: Option<string>, transferType: Option<string>)

  /** The list endpoint: the admin one for admins, the vendor one for every other role.
      `apiBase` is the configured API root. */
  function ListEndpoint(apiBase: string, role: string): (url: string)
    ensures role == "admin" ==> url == apiBase + "/admin/payout/list.php"
    ensures role != "admin" ==> url == apiBase + "/vendor/payout/list.php"
  {
    apiBase + (if role == "admin" then "/admin" else "/vendor") + "/payout/list.php"
  }

  /** The body `fetchTransactions` posts, or the error it throws first when there is no
      stored user or it has no id. */
  method RequestBody(user: Value, role: string, currentPage: int, statusFilter: string, typeFilter: string)
    returns (r: Result<ListBody, string>)
    ensures r.Err? <==> !Truthy(user) || !Truthy(OptGet(user, "id"))
    ensures r.Err? ==> r.error == NotAuthenticatedMessage
    ensures r.Ok? ==> r.value.page == currentPage && r.value.limit == PageSize
    ensures r.Ok? ==> (r.value.vendorId.Some? <==> role == "vendor")
    ensures r.Ok? && role == "vendor" ==> r.value.vendorId == Some(OptGet(user, "id"))
    ensures r.Ok? ==> r.value.status == if statusFilter != "all" then Some(ToUpper(statusFilter)) else None
    ensures r.Ok? ==> r.value.transferType == if typeFilter != "all" then Some(ToUpper(typeFilter)) else None
  {
    if !Truthy(user) || !Truthy(OptGet(user, "id")) {
      return Err(NotAuthenticatedMessage);
    }
    var body := ListBody(currentPage, PageSize, None, None, None);
    if role == "vendor" {
      body := body.(vendorId := Some(OptGet(user, "id")));
    }
    if statusFilter != "all" {
      body := body.(status := Some(ToUpper(statusFilter)));
    }
    if typeFilter != "all" {
      body := body.(transferType := Some(ToUpper(typeFilter)));
    }
    return Ok(body);
  }

  /** One displayed row, built from one transaction of the reply. */
  datatype Row = Row(
    id: Value, merchantReferenceId: Value, payninjaTransactionId: Value, utr: Value,
    beneficiaryId: Value, beneficiaryName: Value, beneficiary: Value,
    amount: Value, transferType: Value, narration: Value, status: Value, paymentMode: Value,
    createdAt: Value, updatedAt: Value, apiError: Value, vendorEmail: Value, vendorId: Value)

  /** The row for transaction `t` of a reply whose `data` is `data`: the nested
      `transaction` and `timestamps` fields are lifted up, and the vendor's email and id
      fall back to the reply-level ones when the transaction has none. The callback reads
      `t.id` without optional chaining, so a `null` or `undefined` entry throws; that
      case is the caller's (`ListingOf`). */
  function ToRow(t: Value, data: Value): (row: Row)
    requires !Nullish(t)
    ensures row.id == OptGet(t, "id") && row.utr == OptGet(t, "utr")
    ensures row.merchantReferenceId == OptGet(t, "merchant_reference_id")
    ensures row.vendorEmail == if Truthy(OptGet(t, "vendor_email")) then OptGet(t, "vendor_email")
                               else OptGet(data, "vendor_email")
    ensures row.vendorId == if Truthy(OptGet(t, "vendor_id")) then OptGet(t, "vendor_id") else OptGet(data, "vendor_id")
    ensures row.amount == OptGet(OptGet(t, "transaction"), "amount")
    ensures row.status == OptGet(OptGet(t, "transaction"), "status")
    ensures row.beneficiaryName == OptGet(OptGet(t, "beneficiary"), "name")
    ensures row.payninjaTransactionId == OptGet(t, "payninja_transaction_id")
    ensures row.beneficiaryId == OptGet(t, "beneficiary_id") && row.beneficiary == OptGet(t, "beneficiary")
    ensures row.apiError == OptGet(t, "api_error")
    ensures row.transferType == OptGet(OptGet(t, "transaction"), "transfer_type")
    ensures row.narration == OptGet(OptGet(t, "transaction"), "narration")
    ensures row.paymentMode == OptGet(OptGet(t, "transaction"), "payment_mode")
    ensures row.createdAt == OptGet(OptGet(t, "timestamps"), "created_at")
    ensures row.updatedAt == OptGet(OptGet(t, "timestamps"), "updated_at")
  {
    var tx := OptGet(t, "transaction");
    var ts := OptGet(t, "timestamps");
    Row(OptGet(t, "id"), OptGet(t, "merchant_reference_id"), OptGet(t, "payninja_transaction_id"), OptGet(t, "utr"),
        OptGet(t, "beneficiary_id"), OptGet(OptGet(t, "beneficiary"), "name"), OptGet(t, "beneficiary"),
        OptGet(tx, "amount"), OptGet(tx, "transfer_type"), OptGet(tx, "narration"), OptGet(tx, "status"),
        OptGet(tx, "payment_mode"), OptGet(ts, "created_at"), OptGet(ts, "updated_at"), OptGet(t, "api_error"),
        Or(OptGet(t, "vendor_email"), OptGet(data, "vendor_email")), Or(OptGet(t, "vendor_id"), OptGet(data, "vendor_id")))
  }

  /** What the page shows after a reply: the rows and the pagination, or an alert. */
  datatype Listing = Listing(rows: seq<Row>, pagination: Value, alert: Option<string>)

  /** A success reply with data, the case in which the page transforms the transactions. */
  predicate Successful(result: Value)
  {
    OptGet(result, "status") == Str("success") && Truthy(OptGet(result, "data"))
  }

  /** `result.data.transactions || []`. */
  function TransactionsOf(result: Value): Value
  {
    Or(OptGet(OptGet(result, "data"), "transactions"), Arr([]))
  }

  /** Whether `transactionsData.map(...)` runs to the end: the value is an array and no
      entry is `null` or `undefined`. */
  predicate Mappable(txs: Value)
  {
    txs.Arr? && forall i :: 0 <= i < |txs.items| ==> !Nullish(txs.items[i])
  }

  /** The end of `fetchTransactions`. `reply` is the parsed body of a successful
      response, or `Err` with the message thrown for a failed one. Anything thrown ends
      in the catch, which alerts and empties the list. */
  function ListingOf(reply: Result<Value, string>): (l: Listing)
    ensures reply.Err? ==> l == Listing([], Null, Some(ErrorAlertPrefix + reply.error))
    ensures reply.Ok? && Nullish(reply.value) ==> l == Listing([], Null, Some(ErrorAlertPrefix + TypeErrorMessage))
    ensures reply.Ok? && !Nullish(reply.value) && !Successful(reply.value) ==> l == Listing([], Null, None)
    ensures reply.Ok? && Successful(reply.value) && !Mappable(TransactionsOf(reply.value)) ==>
              l == Listing([], Null, Some(ErrorAlertPrefix + TypeErrorMessage))
    ensures reply.Ok? && Successful(reply.value) && Mappable(TransactionsOf(reply.value)) ==>
              l.alert == None
              && l.pagination == Or(OptGet(OptGet(reply.value, "data"), "pagination"), Null)
              && |l.rows| == |TransactionsOf(reply.value).items|
              && forall i :: 0 <= i < |l.rows| ==>
                   l.rows[i] == ToRow(TransactionsOf(reply.value).items[i], OptGet(reply.value, "data"))
    ensures l.alert.None? <==> reply.Ok? && !Nullish(reply.value)
                               && (Successful(reply.value) ==> Mappable(TransactionsOf(reply.value)))
  {
    match reply
    case Err(e) => Listing([], Null, Some(ErrorAlertPrefix + e))
    case Ok(result) =>
      if Nullish(result) then Listing([], Null, Some(ErrorAlertPrefix + TypeErrorMessage))
      else if !Successful(result) then Listing([], Null, None)
      else
        var data := OptGet(result, "data");
        var txs := TransactionsOf(result);
        if !Mappable(txs) then Listing([], Null, Some(ErrorAlertPrefix + TypeErrorMessage))
        else Listing(seq(|txs.items|, i requires 0 <= i < |txs.items| => ToRow(txs.items[i], data)),
                     Or(OptGet(data, "pagination"), Null), None)
  }

  /** The listing shows the reply's transactions one row each, in the reply's order:
      the row ids are the transaction ids. */
  lemma ListingKeepsOrder(result: Value)
    requires Successful(result) && Mappable(TransactionsOf(result))
    ensures var rows := ListingOf(Ok(result)).rows;
            var txs := TransactionsOf(result).items;
            seq(|rows|, i requires 0 <= i < |rows| => rows[i].id)
            == seq(|txs|, i requires 0 <= i < |txs| => OptGet(txs[i], "id"))
  {
    var rows := ListingOf(Ok(result)).rows;
    var txs := TransactionsOf(result).items;
    assert |rows| == |txs|;
    forall i | 0 <= i < |rows| ensures rows[i].id == OptGet(txs[i], "id") {
      assert rows[i] == ToRow(txs[i], OptGet(result, "data"));
    }
  }

  /** The Previous button: one page back, never below the first. */
  function PreviousPage(page: int): (p: int)
    ensures p >= 1
    ensures page > 1 ==> p == page - 1
  {
    if page - 1 > 1 then page - 1 else 1
  }

  /** The Next button: one page on, never past the last. */
  function NextPage(page: int, totalPages: int): (p: int)
    ensures p <= totalPages
    ensures page < totalPages ==> p == page + 1
  {
    if page + 1 < totalPages then page + 1 else totalPages
  }

  /** Paging back and forth keeps a page that starts within `1..totalPages` there. */
  lemma PagingStaysInRange(page: int, totalPages: int)
    requires 1 <= page <= totalPages
    ensures 1 <= PreviousPage(page) <= totalPages
    ensures 1 <= NextPage(page, totalPages) <= totalPages
    ensures PreviousPage(NextPage(page, totalPages)) == page || page == totalPages
  {
  }

  /** The page's state. */
  class Page {
    var userRole: string
    var typeFilter: string
    var statusFilter: string
    var currentPage: int
    var rows: seq<Row>
    var pagination: Value

    /** The state after `checkUserRole`: the stored user's role, `'vendor'` when it has
        none, and the empty string when there is no user (nothing is fetched then). */
    constructor(user: Value)
      ensures userRole == if !Truthy(user) then ""
                          else if Truthy(OptGet(user, "role")) then ToJsString(OptGet(user, "role")) else "vendor"
      ensures typeFilter == "all" && statusFilter == "all" && currentPage == 1 && rows == [] && pagination == Null
    {
      userRole := if !Truthy(user) then ""
                  else if Truthy(OptGet(user, "role")) then ToJsString(OptGet(user, "role")) else "vendor";
      typeFilter := "all";
      statusFilter := "all";
      currentPage := 1;
      rows := [];
      pagination := Null;
    }

    /** The transfer type select: a new filter starts again from the first page. */
    method SetTypeFilter(value: string)
      modifies this
      ensures typeFilter == value && currentPage == 1
      ensures userRole == old(userRole) && statusFilter == old(statusFilter)
      ensures rows == old(rows) && pagination == old(pagination)
    {
      typeFilter := value;
      currentPage := 1;
    }

    /** The status select: a new filter starts again from the first page. */
    method SetStatusFilter(value: string)
      modifies this
      ensures statusFilter == value && currentPage == 1
      ensures userRole == old(userRole) && typeFilter == old(typeFilter)
      ensures rows == old(rows) && pagination == old(pagination)
    {
      statusFilter := value;
      currentPage := 1;
    }

    method Previous()
      modifies this
      ensures currentPage == PreviousPage(old(currentPage)) && currentPage >= 1
      ensures userRole == old(userRole) && typeFilter == old(typeFilter) && statusFilter == old(statusFilter)
      ensures rows == old(rows) && pagination == old(pagination)
    {
      currentPage := PreviousPage(currentPage);
    }

    method Next(totalPages: int)
      modifies this
      ensures currentPage == NextPage(old(currentPage), totalPages) && currentPage <= totalPages
      ensures userRole == old(userRole) && typeFilter == old(typeFilter) && statusFilter == old(statusFilter)
      ensures rows == old(rows) && pagination == old(pagination)
    {
      currentPage := NextPage(currentPage, totalPages);
    }

    /** `fetchTransactions`, run whenever the role, a filter or the page changes while
        the role is set. `posted` is the endpoint and body it posts, if it gets that
        far; `reply` is how the post settles. */
    method Fetch(apiBase: string, user: Value, reply: Result<Value, string>)
      returns (posted: Option<(string, ListBody)>, alert: Option<string>)
      modifies this
      ensures userRole == old(userRole) && typeFilter == old(typeFilter) && statusFilter == old(statusFilter)
      ensures currentPage == old(currentPage)
      ensures old(userRole) == "" ==> posted.None? && rows == old(rows) && pagination == old(pagination)
      ensures posted.Some? ==> posted.value.0 == ListEndpoint(apiBase, userRole)
                               && posted.value.1.page == currentPage
                               && (posted.value.1.vendorId.Some? <==> userRole == "vendor")
      ensures posted.Some? ==> rows == ListingOf(reply).rows && pagination == ListingOf(reply).pagination
                               && alert == ListingOf(reply).alert
      ensures old(userRole) != "" && posted.None? ==>
                rows == [] && pagination == Null && alert == Some(ErrorAlertPrefix + NotAuthenticatedMessage)
    {
      posted := None;
      alert := None;
      if userRole == "" {
        return;
      }
      var body := RequestBody(user, userRole, currentPage, statusFilter, typeFilter);
      if body.Err? {
        rows := [];
        pagination := Null;
        alert := Some(ErrorAlertPrefix + body.error);
        return;
      }
      posted := Some((ListEndpoint(apiBase, userRole), body.value));
      var listing := ListingOf(reply);
      rows := listing.rows;
      pagination := listing.pagination;
      alert := listing.alert;
    }
  }
}
