/** The vendor/admin login page: the sign-up checks, the login outcome, and the user
    record the auth client stores on login. */
module Login {
  import opened Wrappers
  import opened JsValue

  const PasswordMismatchMessage := "Passwords do not match"
  const PasswordTooShortMessage := "Password must be at least 6 characters"
  const SignUpSuccessMessage :=
    "Account created successfully! Your account is pending approval. Please wait for an admin to activate your account."
  const SignUpFailedMessage := "Sign up failed"
  const InvalidResponseMessage := "Invalid response from server"
  const PendingMessage := "Your account is pending approval. Please wait for an admin to activate your account."
  const SuspendedMessage := "Your account has been suspended"
  const LoginFailedMessage := "Login failed"
  const TypeErrorMessage := "TypeError"

  /** The shortest password sign-up accepts. */
  const MinPasswordLength := 6

  /** The checks `handleSignUp` makes before calling `signUp`, in order. */
  function SignUpCheck(password: string, confirmPassword: string): (r: Option<string>)
    ensures r == Some(PasswordMismatchMessage) <==> password != confirmPassword
    ensures r == Some(PasswordTooShortMessage) <==> password == confirmPassword && |password| < MinPasswordLength
    ensures r.None? <==> password == confirmPassword && |password| >= MinPasswordLength
  {
    if password != confirmPassword then Some(PasswordMismatchMessage)
    else if |password| < MinPasswordLength then Some(PasswordTooShortMessage)
    else None
  }

  /** `result.data?.user`. */
  function ReplyUser(result: Value): Value
  {
    OptGet(OptGet(result, "data"), "user")
  }

  /** Whether the login page turns a user away because of the account status. */
  predicate Blocked(user: Value)
  {
    OptGet(user, "status") == Str("pending") || OptGet(user, "status") == Str("suspended")
  }

  /** What `handleLogin` does with a reply it received. */
  datatype LoginOutcome = Refused(message: string) | NavigateTo(path: string)

  /** `handleLogin` after `login` resolved: no user is an error, a pending or suspended
      account is refused, and otherwise admins go to the admin dashboard and every
      other role to the vendor dashboard. */
  function LoginResult(result: Value): (o: LoginOutcome)
    ensures o == Refused(InvalidResponseMessage) <==> !Truthy(ReplyUser(result))
    ensures o.NavigateTo? <==> Truthy(ReplyUser(result)) && !Blocked(ReplyUser(result))
    ensures o == NavigateTo("/admin/dashboard") <==>
              o.NavigateTo? && OptGet(ReplyUser(result), "role") == Str("admin")
    ensures o.NavigateTo? ==> o.path in {"/admin/dashboard", "/vendor/dashboard"}
    ensures Truthy(ReplyUser(result)) && OptGet(ReplyUser(result), "status") == Str("pending") ==>
              o == Refused(PendingMessage)
    ensures Truthy(ReplyUser(result)) && OptGet(ReplyUser(result), "status") == Str("suspended") ==>
              o == Refused(SuspendedMessage)
  {
    var user := ReplyUser(result);
    if !Truthy(user) then Refused(InvalidResponseMessage)
    else if OptGet(user, "status") == Str("pending") then Refused(PendingMessage)
    else if OptGet(user, "status") == Str("suspended") then Refused(SuspendedMessage)
    else if OptGet(user, "role") == Str("admin") then NavigateTo("/admin/dashboard")
    else NavigateTo("/vendor/dashboard")
  }

  /** The user record in storage after `login` received `result`: the reply's user
      whenever there is one, whatever its status; otherwise what was there before. */
  function StoredAfterLogin(previous: Value, result: Value): (stored: Value)
    ensures Truthy(ReplyUser(result)) ==> stored == ReplyUser(result)
    ensures !Truthy(ReplyUser(result)) ==> stored == previous
  {
    if Truthy(ReplyUser(result)) then ReplyUser(result) else previous
  }

  /** The login form's state. */
  class LoginForm {
    var isSignUp: bool
    var email: string
    var password: string
    var confirmPassword: string
    var loading: bool
    var error: string
    var success: string

    constructor()
      ensures !isSignUp && email == "" && password == "" && confirmPassword == ""
      ensures !loading && error == "" && success == ""
    {
      isSignUp := false;
      email := "";
      password := "";
      confirmPassword := "";
      loading := false;
      error := "";
      success := "";
    }

    /** `handleSignUp`: `reply` is how `signUp` settles (`Err` for the message it
        throws); `called` says whether it was called. */
    method HandleSignUp(reply: Result<Value, string>) returns (called: bool)
      modifies this
      ensures !loading && isSignUp == old(isSignUp)
      ensures called <==> SignUpCheck(old(password), old(confirmPassword)).None?
      ensures !called ==>
                error == SignUpCheck(old(password), old(confirmPassword)).value && success == ""
                && email == old(email) && password == old(password) && confirmPassword == old(confirmPassword)
      ensures called && reply.Ok? ==>
                error == "" && success == SignUpSuccessMessage && email == "" && password == "" && confirmPassword == ""
      ensures called && reply.Err? ==>
                error == (if reply.error != "" then reply.error else SignUpFailedMessage) && success == ""
                && email == old(email) && password == old(password) && confirmPassword == old(confirmPassword)
    {
      loading := true;
      error := "";
      success := "";
      var check := SignUpCheck(password, confirmPassword);
      if check.Some? {
        error := check.value;
        loading := false;
        return false;
      }
      called := true;
      match reply {
        case Err(e) =>
          error := if e != "" then e else SignUpFailedMessage;
        case Ok(_) =>
          success := SignUpSuccessMessage;
          email := "";
          password := "";
          confirmPassword := "";
      }
      loading := false;
    }

    /** The timer three seconds after a successful sign-up: back to the login form,
        without the message. */
    method SignUpTimerFired()
      modifies this
      ensures !isSignUp && success == ""
      ensures email == old(email) && password == old(password) && confirmPassword == old(confirmPassword)
      ensures error == old(error) && loading == old(loading)
    {
      isSignUp := false;
      success := "";
    }

    /** `handleLogin`: `reply` is how `login` settles (`Err` for the message it throws);
        `navigated` is where the page goes, if anywhere. */
    method HandleLogin(reply: Result<Value, string>) returns (navigated: Option<string>)
      modifies this
      ensures !loading && success == ""
      ensures email == old(email) && password == old(password) && confirmPassword == old(confirmPassword)
      ensures reply.Err? ==>
                navigated.None? && error == (if reply.error != "" then reply.error else LoginFailedMessage)
      ensures reply.Ok? && LoginResult(reply.value).NavigateTo? ==>
                navigated == Some(LoginResult(reply.value).path) && error == ""
      ensures reply.Ok? && LoginResult(reply.value).Refused? ==>
                navigated.None? && error == LoginResult(reply.value).message
    {
      loading := true;
      error := "";
      success := "";
      navigated := None;
      match reply {
        case Err(e) =>
          error := if e != "" then e else LoginFailedMessage;
        case Ok(result) =>
          match LoginResult(result) {
            case Refused(m) => error := m;
            case NavigateTo(p) => navigated := Some(p);
          }
      }
      loading := false;
    }
  }
}
