/** The application's route table and the role guard on the admin and vendor pages. */
module App {
  import opened Wrappers
  import opened JsText
  import opened JsValue
  import Login

  /** What a route shows: a page with no guard, a redirect, or a page behind the guard
      with the roles it lets in. */
  datatype Element = Open(page: string) | Redirect(to: string) | Guarded(roles: seq<string>, page: string)

  const LoginPath := "/vendor"

  /** The route table, looked up by a path's segments, each compared ignoring case;
      `:category` and `:id` match any one segment. */
  function RouteFor(segs: seq<string>): (e: Option<Element>)
    ensures e.Some? && e.value.Guarded? ==> |segs| == 2 && ToLower(segs[0]) in {"admin", "vendor"}
    ensures |segs| > 0 && ToLower(segs[0]) == "admin" && e.Some? ==> e.value.Guarded? && e.value.roles == ["admin"]
    ensures |segs| > 1 && ToLower(segs[0]) == "vendor" && e.Some? ==> e.value.Guarded? && e.value.roles == ["vendor"]
  {
    if |segs| == 0 then Some(Open("HomePage"))
    else
      var first := ToLower(segs[0]);
      if |segs| == 1 then
        if first == "cart" then Some(Open("CartPage"))
        else if first == "checkout" then Some(Open("CheckoutPage"))
        else if first == "order-success" then Some(Open("OrderSuccessPage"))
        else if first == "vendor" then Some(Open("Login"))
        else if first == "login" then Some(Redirect(LoginPath))
        else None
      else if |segs| == 2 then
        var second := ToLower(segs[1]);
        if first == "category" then Some(Open("CategoryPage"))
        else if first == "products" then Some(Open("ProductDetailPage"))
        else if first == "admin" then
          if second == "dashboard" then Some(Guarded(["admin"], "AdminDashboard"))
          else if second == "vendors" then Some(Guarded(["admin"], "VendorsPage"))
          else if second == "topup-requests" then Some(Guarded(["admin"], "TopUpRequestsPage"))
          else if second == "transactions" then Some(Guarded(["admin"], "TransactionsPage"))
          else None
        else if first == "vendor" then
          if second == "dashboard" then Some(Guarded(["vendor"], "VendorDashboard"))
          else if second == "beneficiaries" then Some(Guarded(["vendor"], "BeneficiariesPage"))
          else if second == "payouts" then Some(Guarded(["vendor"], "PayoutsPage"))
          else if second == "transactions" then Some(Guarded(["vendor"], "TransactionsPage"))
          else None
        else None
      else None
  }

  /** What the browser ends up on. */
  datatype Screen = Shown(page: string) | RedirectedTo(path: string) | NothingShown

  /** `ProtectedRoute` as written: no stored user, or a role outside the allowed ones,
      redirects to the login page; the account status is not looked at. */
  predicate AdmitsAsWritten(user: Value, roles: seq<string>)
  {
    Truthy(user) && OptGet(user, "role").Str? && OptGet(user, "role").s in roles
  }

  /** The guard with the login page's own status rule added: an account the login page
      turns away is not let in either. */
  predicate Admits(user: Value, roles: seq<string>)
  {
    AdmitsAsWritten(user, roles) && !Login.Blocked(user)
  }

  /** The screen for a path with the segments `segs`, with `user` the stored user
      record (`null` when there is none), under the given guard. */
  function Navigate(segs: seq<string>, user: Value, admits: (Value, seq<string>) -> bool): Screen
  {
    match RouteFor(segs)
    case None => NothingShown
    case Some(e) =>
      match e
      case Open(p) => Shown(p)
      case Redirect(to) => RedirectedTo(to)
      case Guarded(roles, p) => if admits(user, roles) then Shown(p) else RedirectedTo(LoginPath)
  }

  /** The screen under the corrected guard, which also turns away the pending and
      suspended accounts the login page refuses. */
  function Access(segs: seq<string>, user: Value): (s: Screen)
    ensures s.RedirectedTo? ==> s.path == LoginPath
  {
    Navigate(segs, user, Admits)
  }

  /** The screen as the application routes it, with `ProtectedRoute` as written. */
  function AccessAsWritten(segs: seq<string>, user: Value): (s: Screen)
    ensures s.RedirectedTo? ==> s.path == LoginPath
  {
    Navigate(segs, user, AdmitsAsWritten)
  }

  /** A path whose first segment is `admin`, in any case, shows a page only to a stored
      admin whose account is not pending or suspended, and one whose first segment is
      `vendor` likewise only to a vendor, except `/vendor` itself, the login page. */
  lemma GuardedPaths(segs: seq<string>, user: Value)
    ensures |segs| > 0 && ToLower(segs[0]) == "admin" && Access(segs, user).Shown? ==>
              Truthy(user) && OptGet(user, "role") == Str("admin") && !Login.Blocked(user)
    ensures |segs| > 1 && ToLower(segs[0]) == "vendor" && Access(segs, user).Shown? ==>
              Truthy(user) && OptGet(user, "role") == Str("vendor") && !Login.Blocked(user)
  {
  }

  /** `ProtectedRoute` as written: a guarded route shows its page exactly when a user is
      stored and their role is one the route allows, and otherwise redirects to the login
      page. So the admin pages are for admins only and the vendor pages for vendors only,
      whatever the account's status. */
  lemma {:induction false} GuardedPathsAsWritten(segs: seq<string>, user: Value)
    ensures RouteFor(segs).Some? && RouteFor(segs).value.Guarded? ==>
              (AccessAsWritten(segs, user).Shown? <==> AdmitsAsWritten(user, RouteFor(segs).value.roles))
              && (AccessAsWritten(segs, user).Shown? || AccessAsWritten(segs, user) == RedirectedTo(LoginPath))
    ensures !Truthy(user) && RouteFor(segs).Some? && RouteFor(segs).value.Guarded? ==>
              AccessAsWritten(segs, user) == RedirectedTo(LoginPath)
    ensures |segs| > 0 && ToLower(segs[0]) == "admin" && AccessAsWritten(segs, user).Shown? ==>
              Truthy(user) && OptGet(user, "role") == Str("admin")
    ensures |segs| > 1 && ToLower(segs[0]) == "vendor" && AccessAsWritten(segs, user).Shown? ==>
              Truthy(user) && OptGet(user, "role") == Str("vendor")
  {
    match RouteFor(segs) {
      case None =>
      case Some(e) =>
        if e.Guarded? {
          assert AccessAsWritten(segs, user) ==
                 if AdmitsAsWritten(user, e.roles) then Shown(e.page) else RedirectedTo(LoginPath);
        }
    }
  }

  /** `/login` goes to the login page, and the storefront pages need no user. */
  lemma OpenPaths(user: Value, category: string)
    requires category != ""
    ensures Access(["login"], user) == RedirectedTo(LoginPath)
    ensures Access([], user) == Shown("HomePage")
    ensures Access(["category", category], user) == Shown("CategoryPage")
  {
    assert ToLower("login") == "login";
    assert ToLower("category") == "category";
  }

  /** A vendor whose account is pending: the login page refuses them, but `login` has
      already stored their record, and the guard as written then shows them the vendor
      dashboard when they open it by address. */
  lemma PendingVendorReachesDashboard()
    ensures var user := Obj(map["role" := Str("vendor"), "status" := Str("pending")]);
            var reply := Obj(map["data" := Obj(map["user" := user])]);
            && Login.LoginResult(reply) == Login.Refused(Login.PendingMessage)
            && Login.StoredAfterLogin(Null, reply) == user
            && AccessAsWritten(["vendor", "dashboard"], Login.StoredAfterLogin(Null, reply)) == Shown("VendorDashboard")
            && Access(["vendor", "dashboard"], Login.StoredAfterLogin(Null, reply)) == RedirectedTo(LoginPath)
  {
    var user := Obj(map["role" := Str("vendor"), "status" := Str("pending")]);
    var reply := Obj(map["data" := Obj(map["user" := user])]);
    assert Login.ReplyUser(reply) == user;
    assert ToLower("vendor") == "vendor" && ToLower("dashboard") == "dashboard";
  }

  /** With the status-checking guard, whoever the login page refuses for their account
      status is shown no guarded page, whatever path they open. */
  lemma RefusedLoginOpensNoGuardedPage(previous: Value, reply: Value, segs: seq<string>)
    requires Login.LoginResult(reply) == Login.Refused(Login.PendingMessage)
             || Login.LoginResult(reply) == Login.Refused(Login.SuspendedMessage)
    ensures Access(segs, Login.StoredAfterLogin(previous, reply)).Shown? ==>
              RouteFor(segs).Some? && RouteFor(segs).value.Open?
  {
  }
}
