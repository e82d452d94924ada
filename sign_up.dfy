/** The sign-up page: two password checks, the sign-up request and, after
    it succeeds, an automatic login whose user goes to the session store. */
module SignUp {
  import opened Text
  import opened Records
  import Session

  const PasswordsDiffer: string := "Passwords do not match."
  const PasswordTooShort: string := "Password must be at least 6 characters long."
  const RegistrationFailed: string := "Registration failed. Please try again."
  const AutoLoginFailed: string := "Auto-login failed. Please login manually."
  const NetworkError: string := "Network error. Could not connect to the server."

  const MinPasswordLength: nat := 6

  /** The page's own checks, in its order: the mismatch is reported before the length. */
  function PasswordError(password: string, confirmPassword: string): (r: Option<string>)
    ensures r.None? <==> password == confirmPassword && |password| >= MinPasswordLength
    ensures password != confirmPassword ==> r == Some(PasswordsDiffer)
    ensures password == confirmPassword && |password| < MinPasswordLength ==> r == Some(PasswordTooShort)
  {
    if password != confirmPassword then Some(PasswordsDiffer)
    else if |password| < MinPasswordLength then Some(PasswordTooShort)
    else None
  }

  /** The requests the page sends: both carry the form's email and password. */
  datatype AuthRequest = SignupRequest(email: string, password: string) | LoginRequest(email: string, password: string)

  /** How the sign-up request ends: it or its body threw (with the error's
      message, `""` for none), or a response with `ok` and the body's `message`. */
  datatype SignupOutcome = SignupThrew(errorMessage: string) | SignupResponse(ok: bool, message: string)

  /** How the login request ends, likewise, with the returned user. */
  datatype LoginOutcome = LoginThrew(errorMessage: string) | LoginResponse(ok: bool, user: Option<User>, message: string)

  /** The sign-up request was accepted. */
  predicate SignupOk(signup: SignupOutcome) {
    signup.SignupResponse? && signup.ok
  }

  /** The error the page shows when the checks pass: none after a complete
      success, the server's message for a refused sign-up, the login message
      (rethrown) for a refused login, and the thrown error's message otherwise. */
  function ServerError(signup: SignupOutcome, login: LoginOutcome): (r: string)
    ensures r == "" <==> SignupOk(signup) && login.LoginResponse? && login.ok
    ensures signup.SignupResponse? && !signup.ok ==> r == OrElse(signup.message, RegistrationFailed)
  {
    match signup
    case SignupThrew(m) => OrElse(m, NetworkError)
    case SignupResponse(ok, m) =>
      if !ok then OrElse(m, RegistrationFailed)
      else match login
        case LoginThrew(lm) => OrElse(lm, NetworkError)
        case LoginResponse(lok, _, lm) => if lok then "" else OrElse(lm, AutoLoginFailed)
  }

  class SignUpForm {
    var email: string
    var password: string
    var confirmPassword: string
    var error: string
    var isLoading: bool
    var requests: seq<AuthRequest>
    /** Where the page navigated, if anywhere. */
    var navigatedTo: Option<string>

    constructor (email: string, password: string, confirmPassword: string)
      ensures this.email == email && this.password == password && this.confirmPassword == confirmPassword
      ensures error == "" && !isLoading && requests == [] && navigatedTo.None?
    {
      this.email := email;
      this.password := password;
      this.confirmPassword := confirmPassword;
      error := "";
      isLoading := false;
      requests := [];
      navigatedTo := None;
    }

    /** `handleSubmit`; `onSignUp` is the session store's sign-up handler. */
    method HandleSubmit(signup: SignupOutcome, login: LoginOutcome, store: Session.SessionStore)
      modifies this, store
      ensures email == old(email) && password == old(password) && confirmPassword == old(confirmPassword)
      ensures !isLoading
      ensures PasswordError(password, confirmPassword).Some? ==>
                && error == PasswordError(password, confirmPassword).value
                && requests == old(requests) && navigatedTo == old(navigatedTo)
                && store.user == old(store.user) && store.local == old(store.local) && store.session == old(store.session)
      ensures PasswordError(password, confirmPassword).None? ==>
                && error == ServerError(signup, login)
                && requests == old(requests) + [SignupRequest(email, password)] +
                               (if SignupOk(signup) then [LoginRequest(email, password)] else [])
      ensures PasswordError(password, confirmPassword).None? && error == "" ==>
                && store.user == login.user
                && (login.user.Some? ==> store.session == login.user && store.local.None?)
                && (login.user.None? ==> store.local == old(store.local) && store.session == old(store.session))
                && navigatedTo == Some("/home")
      ensures PasswordError(password, confirmPassword).None? && error != "" ==>
                && navigatedTo == old(navigatedTo)
                && store.user == old(store.user) && store.local == old(store.local) && store.session == old(store.session)
    {
      error := "";
      isLoading := true;

      if password != confirmPassword {
        error := PasswordsDiffer;
        isLoading := false;
        return;
      }
      if |password| < MinPasswordLength {
        error := PasswordTooShort;
        isLoading := false;
        return;
      }

      requests := requests + [SignupRequest(email, password)];
      match signup {
        case SignupThrew(m) =>
          error := OrElse(m, NetworkError);
        case SignupResponse(ok, m) =>
          if ok {
            requests := requests + [LoginRequest(email, password)];
            match login {
              case LoginThrew(lm) =>
                error := OrElse(lm, NetworkError);
              case LoginResponse(lok, loginUser, lm) =>
                if lok {
                  store.HandleSignUp(loginUser);
                  navigatedTo := Some("/home");
                } else {
                  // The thrown error's message is never empty.
                  error := OrElse(lm, AutoLoginFailed);
                }
            }
          } else {
            error := OrElse(m, RegistrationFailed);
          }
      }
      isLoading := false;
    }
  }
}
