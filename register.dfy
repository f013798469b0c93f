// The Register page's submit handler (src/components/page/Register.tsx): the
// checks made before any request, the two requests, the message shown on
// failure, the loading flag and the call to the auth store's login.

module Register {
  import opened Types
  import AuthStore

  const AllFieldsRequired := "All fields are required"
  const PasswordsDoNotMatch := "Passwords do not match"
  const RegistrationFailed := "Registration failed"
  const UserFetchFailed := "Failed to fetch user data"
  const RegistrationErrorFallback := "An error occurred during registration"

  /**
   * The checks before any request: every field filled in, then the two
   * passwords equal. None means both passed.
   */
  function PreCheck(name: string, email: string, password: string, confirmPassword: string): (r: Option<string>)
    ensures r == Some(AllFieldsRequired) <==> name == "" || email == "" || password == "" || confirmPassword == ""
    ensures r == Some(PasswordsDoNotMatch) <==>
              name != "" && email != "" && password != "" && confirmPassword != "" && password != confirmPassword
    ensures r == None <==> name != "" && email != "" && password != "" && password == confirmPassword
  {
    if name == "" || email == "" || password == "" || confirmPassword == "" then Some(AllFieldsRequired)
    else if password != confirmPassword then Some(PasswordsDoNotMatch)
    else None
  }

  /**
   * How POST /register ended: ok with `data.access_token`; not ok, with
   * `data.message` when the body had one; or a thrown error with its message
   * (a network failure, or a body that is not JSON).
   */
  datatype RegisterReply = Registered(accessToken: string) | Refused(serverMessage: Option<string>) | RegisterThrew(thrown: string)

  /** How GET /user ended: ok with the user, not ok, or a thrown error. */
  datatype UserReply = Fetched(user: User) | UserRefused | UserThrew(thrown: string)

  /** Where the try block ends: the call to login, or the message the catch shows. */
  datatype Outcome = LoggedIn(token: string, user: User) | Caught(message: string)

  /** The message the catch shows: the error's own message, or the generic fallback when that is empty. */
  function Shown(message: string): (r: string)
    ensures r != ""
    ensures message != "" ==> r == message
    ensures message == "" ==> r == RegistrationErrorFallback
  {
    if message != "" then message else RegistrationErrorFallback
  }

  /** The try block of handleSubmit, from the first request on. */
  function Submitted(reg: RegisterReply, user: UserReply): (r: Outcome)
    ensures r.LoggedIn? <==> reg.Registered? && user.Fetched?
    ensures r.LoggedIn? ==> r.token == reg.accessToken && r.user == user.user
    ensures r.Caught? ==> r.message != ""
    ensures reg.Refused? ==>
              r == Caught(if reg.serverMessage.Some? && reg.serverMessage.value != "" then reg.serverMessage.value else RegistrationFailed)
    ensures reg.Registered? && user.UserRefused? ==> r == Caught(UserFetchFailed)
    ensures reg.RegisterThrew? ==> r == Caught(Shown(reg.thrown))
    ensures reg.Registered? && user.UserThrew? ==> r == Caught(Shown(user.thrown))
  {
    match reg
    case RegisterThrew(m) => Caught(Shown(m))
    case Refused(m) =>
      // the refusal is thrown with the server's message, or the generic one when it sent none
      Caught(Shown(if m.Some? && m.value != "" then m.value else RegistrationFailed))
    case Registered(token) =>
      match user
      case UserThrew(m) => Caught(Shown(m))
      case UserRefused => Caught(Shown(UserFetchFailed))
      case Fetched(u) => LoggedIn(token, u)
  }

  /** The Register page's state, and the store its login goes to. */
  class RegisterForm {
    var name: string
    var email: string
    var password: string
    var confirmPassword: string
    var error: string
    var isLoading: bool
    const auth: AuthStore.AuthState

    constructor (auth: AuthStore.AuthState)
      ensures name == "" && email == "" && password == "" && confirmPassword == ""
      ensures error == "" && !isLoading && this.auth == auth
    {
      name, email, password, confirmPassword := "", "", "", "";
      error := "";
      isLoading := false;
      this.auth := auth;
    }

    /**
     * handleSubmit up to the first request: clear the error, run the checks;
     * a failed check shows its message and sends nothing; otherwise the
     * loading flag goes up and the registration request is sent.
     */
    method BeginSubmit() returns (sent: bool)
      modifies this`error, this`isLoading
      ensures sent <==> PreCheck(name, email, password, confirmPassword).None?
      ensures sent ==> error == "" && isLoading
      ensures !sent ==> error == PreCheck(name, email, password, confirmPassword).value && isLoading == old(isLoading)
    {
      error := "";
      var check := PreCheck(name, email, password, confirmPassword);
      if check.Some? {
        error := check.value;
        sent := false;
        return;
      }
      isLoading := true;
      sent := true;
    }

    /**
     * handleSubmit after the requests: login with the token (the fetched user
     * is dropped, since the store's login takes only the token) and navigate
     * home, or show the caught message. Loading ends on every path.
     */
    method CompleteSubmit(reg: RegisterReply, user: UserReply) returns (navigateHome: bool)
      requires auth.Valid()
      modifies this`error, this`isLoading, auth
      ensures !isLoading && auth.Valid()
      ensures navigateHome <==> Submitted(reg, user).LoggedIn?
      ensures Submitted(reg, user).LoggedIn? ==>
                && auth.isAuthenticated && auth.token == Some(reg.accessToken)
                && auth.actions == old(auth.actions) + [AuthStore.AuthAction.Login(reg.accessToken)]
                && error == old(error)
      ensures Submitted(reg, user).Caught? ==>
                error == Submitted(reg, user).message && unchanged(auth)
    {
      navigateHome := false;
      match Submitted(reg, user) {
        case LoggedIn(token, _) =>
          auth.Login(token);
          navigateHome := true;
        case Caught(m) =>
          error := m;
      }
      isLoading := false;
    }
  }
}
