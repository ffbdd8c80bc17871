/**
 * The sign-in screen: the login and signup forms with their ordered
 * validation, and what a successful answer from the backend writes to the
 * session before the main screen opens.
 */
module Auth {
  import opened Wrappers
  import opened Text
  import opened Models
  import opened Session
  import Validation

  /** A signup password needs at least this many characters. */
  const MinPasswordLength := 6

  /** The request code of the Google sign-in activity. */
  const GoogleSignInRequestCode := 9001

  datatype LoginError = LoginEmailRequired | LoginPasswordRequired

  datatype SignupError = NameRequired | SignupEmailRequired | PhoneRequired | PasswordTooShort

  function LoginErrorText(e: LoginError): string {
    match e
    case LoginEmailRequired => "Email is required"
    case LoginPasswordRequired => "Password is required"
  }

  function SignupErrorText(e: SignupError): string {
    match e
    case NameRequired => "Name is required"
    case SignupEmailRequired => "Email is required"
    case PhoneRequired => "Phone is required"
    case PasswordTooShort => "Password must be at least 6 characters"
  }

  /** `validateLogin`: the first failing field, or None when the form may be
      sent. No length rule applies to a login password. */
  function ValidateLogin(email: string, password: string): (r: Option<LoginError>)
    ensures r.None? <==> email != "" && password != ""
    ensures email == "" ==> r == Some(LoginEmailRequired)
  {
    if email == "" then Some(LoginEmailRequired)
    else if password == "" then Some(LoginPasswordRequired)
    else None
  }

  /** `validateSignup`: name, email, phone, then password length. */
  function ValidateSignup(name: string, email: string, phone: string, password: string): (r: Option<SignupError>)
    ensures r.None? <==> name != "" && email != "" && phone != "" && |password| >= MinPasswordLength
  {
    if name == "" then Some(NameRequired)
    else if email == "" then Some(SignupEmailRequired)
    else if phone == "" then Some(PhoneRequired)
    else if |password| < MinPasswordLength then Some(PasswordTooShort)
    else None
  }

  /** The login checks, in the order the form runs them. */
  function LoginChecks(email: string, password: string): seq<Validation.Check<LoginError>> {
    [Validation.Check(email != "", LoginEmailRequired),
     Validation.Check(password != "", LoginPasswordRequired)]
  }

  /** The signup checks, in the order the form runs them. */
  function SignupChecks(name: string, email: string, phone: string, password: string): seq<Validation.Check<SignupError>> {
    [Validation.Check(name != "", NameRequired),
     Validation.Check(email != "", SignupEmailRequired),
     Validation.Check(phone != "", PhoneRequired),
     Validation.Check(|password| >= MinPasswordLength, PasswordTooShort)]
  }

  /** Login validation reports exactly the first failing check. */
  lemma LoginReportsFirstFailure(email: string, password: string)
    ensures ValidateLogin(email, password) == Validation.FirstFailure(LoginChecks(email, password))
  {
    var cs := LoginChecks(email, password);
    Validation.FirstFailureNoneIffAllPass(cs);
    if email == "" {
      Validation.FirstFailureReportsEarliest(cs, 0);
    } else if password == "" {
      Validation.FirstFailureReportsEarliest(cs, 1);
    }
  }

  /** Signup validation reports exactly the first failing check. */
  lemma SignupReportsFirstFailure(name: string, email: string, phone: string, password: string)
    ensures ValidateSignup(name, email, phone, password) == Validation.FirstFailure(SignupChecks(name, email, phone, password))
  {
    var cs := SignupChecks(name, email, phone, password);
    Validation.FirstFailureNoneIffAllPass(cs);
    if name == "" {
      Validation.FirstFailureReportsEarliest(cs, 0);
    } else if email == "" {
      Validation.FirstFailureReportsEarliest(cs, 1);
    } else if phone == "" {
      Validation.FirstFailureReportsEarliest(cs, 2);
    } else if |password| < MinPasswordLength {
      Validation.FirstFailureReportsEarliest(cs, 3);
    }
  }

  /** Only the password length decides a signup whose other fields are
      filled in. */
  lemma SignupPasswordRule(name: string, email: string, phone: string, password: string)
    requires name != "" && email != "" && phone != ""
    ensures ValidateSignup(name, email, phone, password).None? <==> |password| >= 6
    ensures |password| < 6 ==> ValidateSignup(name, email, phone, password) == Some(PasswordTooShort)
  {
  }

  datatype LoginRequest = LoginRequest(email: string, password: string)

  datatype RegisterRequest = RegisterRequest(name: string, email: string, password: string, phone: string)

  /** The login button: both fields are trimmed, then validated; a request is
      sent only when validation passes. */
  function LoginClick(rawEmail: string, rawPassword: string): (r: Result<LoginRequest, LoginError>)
    ensures r.Ok? <==> !IsBlank(rawEmail) && !IsBlank(rawPassword)
    ensures r.Ok? ==> r.value == LoginRequest(Trim(rawEmail), Trim(rawPassword))
    ensures IsBlank(rawEmail) ==> r == Err(LoginEmailRequired)
    ensures r.Err? ==> Some(r.error) == ValidateLogin(Trim(rawEmail), Trim(rawPassword))
  {
    TrimEmptyIffBlank(rawEmail);
    TrimEmptyIffBlank(rawPassword);
    var email := Trim(rawEmail);
    var password := Trim(rawPassword);
    match ValidateLogin(email, password)
    case Some(e) => Err(e)
    case None => Ok(LoginRequest(email, password))
  }

  /** The signup button: all four fields are trimmed, the password too, so
      surrounding spaces do not count towards its length. */
  function SignupClick(rawName: string, rawEmail: string, rawPhone: string, rawPassword: string): (r: Result<RegisterRequest, SignupError>)
    ensures r.Ok? <==> !IsBlank(rawName) && !IsBlank(rawEmail) && !IsBlank(rawPhone) && |Trim(rawPassword)| >= MinPasswordLength
    ensures r.Ok? ==> r.value == RegisterRequest(Trim(rawName), Trim(rawEmail), Trim(rawPassword), Trim(rawPhone))
    ensures r.Err? ==> Some(r.error) == ValidateSignup(Trim(rawName), Trim(rawEmail), Trim(rawPhone), Trim(rawPassword))
  {
    TrimEmptyIffBlank(rawName);
    TrimEmptyIffBlank(rawEmail);
    TrimEmptyIffBlank(rawPhone);
    var name, email, phone, password := Trim(rawName), Trim(rawEmail), Trim(rawPhone), Trim(rawPassword);
    match ValidateSignup(name, email, phone, password)
    case Some(e) => Err(e)
    case None => Ok(RegisterRequest(name, email, password, phone))
  }

  /** Where an authentication attempt ends: the main screen (with the
      "is_new_user" extra) or a toast on the sign-in screen. */
  datatype AuthResult = NavigateToMain(isNewUser: bool) | Toast(text: string)

  /** Writes a successful answer to the session: token first, then profile. */
  method SaveAuthResponse(session: SessionManager, body: AuthResponse)
    requires session.Valid()
    modifies session
    ensures session.Valid()
    ensures session.prefs == AfterSignIn(old(session.prefs), body.token, body.id, body.name, body.email, body.role)
    ensures session.IsLoggedIn() && session.GetAuthToken() == Some(body.token)
    ensures session.GetUserId() == Some(body.id) && session.GetUserName() == Some(body.name)
    ensures session.GetUserEmail() == Some(body.email) && session.GetUserRole() == Some(body.role)
    ensures session.IsFirstLaunch() == old(session.IsFirstLaunch())
  {
    session.SaveAuthToken(body.token);
    session.SaveUserData(body.id, body.name, body.email, body.role);
  }

  /** Handles the backend's answer to a login (`failurePrefix` "Login failed: ")
      or a signup ("Signup failed: "). */
  method CompleteAuthCall(session: SessionManager, response: Call<AuthResponse>, failurePrefix: string, isNewUser: bool)
    returns (r: AuthResult)
    requires session.Valid()
    modifies session
    ensures session.Valid()
    ensures response.HasBody() ==> r == NavigateToMain(isNewUser)
    ensures response.HasBody() ==> session.IsLoggedIn() && session.GetAuthToken() == Some(response.body.value.token)
    ensures response.HasBody() ==>
              var b := response.body.value;
              session.prefs == AfterSignIn(old(session.prefs), b.token, b.id, b.name, b.email, b.role)
    ensures !response.HasBody() ==> session.prefs == old(session.prefs)
    ensures response.Answered? && !response.HasBody() ==> r == Toast(failurePrefix + response.message)
    ensures response.Threw? ==> r == Toast("Error: " + response.error)
  {
    if response.Threw? {
      r := Toast("Error: " + response.error);
    } else if response.isSuccessful && response.body.Some? {
      SaveAuthResponse(session, response.body.value);
      r := NavigateToMain(isNewUser);
    } else {
      r := Toast(failurePrefix + response.message);
    }
  }

  /** `performLogin`: a successful login opens the main screen as a
      returning user. */
  method PerformLogin(session: SessionManager, response: Call<AuthResponse>) returns (r: AuthResult)
    requires session.Valid()
    modifies session
    ensures session.Valid()
    ensures response.HasBody() ==> r == NavigateToMain(false) && session.IsLoggedIn()
    ensures response.HasBody() ==>
              var b := response.body.value;
              session.prefs == AfterSignIn(old(session.prefs), b.token, b.id, b.name, b.email, b.role)
    ensures !response.HasBody() ==> session.prefs == old(session.prefs)
    ensures response.Answered? && !response.HasBody() ==> r == Toast("Login failed: " + response.message)
    ensures response.Threw? ==> r == Toast("Error: " + response.error)
  {
    r := CompleteAuthCall(session, response, "Login failed: ", false);
  }

  /** `performSignup`: the only path that opens the main screen as a new
      user. */
  method PerformSignup(session: SessionManager, response: Call<AuthResponse>) returns (r: AuthResult)
    requires session.Valid()
    modifies session
    ensures session.Valid()
    ensures response.HasBody() ==> r == NavigateToMain(true) && session.IsLoggedIn()
    ensures response.HasBody() ==>
              var b := response.body.value;
              session.prefs == AfterSignIn(old(session.prefs), b.token, b.id, b.name, b.email, b.role)
    ensures !response.HasBody() ==> session.prefs == old(session.prefs)
    ensures response.Answered? && !response.HasBody() ==> r == Toast("Signup failed: " + response.message)
    ensures response.Threw? ==> r == Toast("Error: " + response.error)
  {
    r := CompleteAuthCall(session, response, "Signup failed: ", true);
  }

  /** The account the Google sign-in activity hands back. */
  datatype SignInAccount = SignedIn(idToken: Option<string>) | SignInFailed(message: string)

  /**
   * `onActivityResult` followed by `handleGoogleSignIn`. Results for other
   * request codes are ignored. A missing id token fails the `!!` inside the
   * guarded block, so it ends in the generic error toast with the null
   * message, and no request is made.
   */
  method OnGoogleSignInResult(session: SessionManager, requestCode: int, account: SignInAccount, response: Call<AuthResponse>)
    returns (r: Option<AuthResult>)
    requires session.Valid()
    modifies session
    ensures session.Valid()
    ensures requestCode != GoogleSignInRequestCode ==> r.None?
    ensures (requestCode != GoogleSignInRequestCode || account.SignInFailed? || account.idToken.None? || !response.HasBody())
              ==> session.prefs == old(session.prefs)
    ensures requestCode == GoogleSignInRequestCode && account.SignInFailed? ==>
              r == Some(Toast("Google sign in failed: " + account.message))
    ensures requestCode == GoogleSignInRequestCode && account.SignedIn? && account.idToken.None? ==>
              r == Some(Toast("Error: null"))
    ensures requestCode == GoogleSignInRequestCode && account.SignedIn? && account.idToken.Some? ==>
              if response.HasBody() then
                && r == Some(NavigateToMain(false)) && session.IsLoggedIn()
                && var b := response.body.value;
                   session.prefs == AfterSignIn(old(session.prefs), b.token, b.id, b.name, b.email, b.role)
              else if response.Threw? then r == Some(Toast("Error: " + response.error))
              else r == Some(Toast("Google sign in failed"))
  {
    if requestCode != GoogleSignInRequestCode {
      r := None;
    } else if account.SignInFailed? {
      r := Some(Toast("Google sign in failed: " + account.message));
    } else if account.idToken.None? {
      r := Some(Toast("Error: null"));
    } else if response.Threw? {
      r := Some(Toast("Error: " + response.error));
    } else if response.isSuccessful && response.body.Some? {
      SaveAuthResponse(session, response.body.value);
      r := Some(NavigateToMain(false));
    } else {
      r := Some(Toast("Google sign in failed"));
    }
  }

  /** What pressing a form's button leads to: a validation error shown on the
      form (no request made), or the handled answer of the request. */
  datatype ClickOutcome<E> = Rejected(error: E) | Sent(result: AuthResult)

  /**
   * The login button, end to end. `response` is the answer the backend would
   * give; it is consulted only when the form validates.
   */
  method OnLoginClick(session: SessionManager, rawEmail: string, rawPassword: string, response: Call<AuthResponse>)
    returns (r: ClickOutcome<LoginError>)
    requires session.Valid()
    modifies session
    ensures session.Valid()
    ensures r.Sent? <==> LoginClick(rawEmail, rawPassword).Ok?
    ensures r.Rejected? ==> r.error == LoginClick(rawEmail, rawPassword).error && session.prefs == old(session.prefs)
    ensures r.Sent? && response.HasBody() ==> r.result == NavigateToMain(false) && session.IsLoggedIn()
    ensures r.Sent? && response.HasBody() ==>
              var b := response.body.value;
              session.prefs == AfterSignIn(old(session.prefs), b.token, b.id, b.name, b.email, b.role)
    ensures r.Sent? && !response.HasBody() ==> session.prefs == old(session.prefs)
  {
    match LoginClick(rawEmail, rawPassword)
    case Err(e) =>
      r := Rejected(e);
    case Ok(_) =>
      var res := PerformLogin(session, response);
      r := Sent(res);
  }

  /** The signup button, end to end. */
  method OnSignupClick(session: SessionManager, rawName: string, rawEmail: string, rawPhone: string, rawPassword: string,
                       response: Call<AuthResponse>)
    returns (r: ClickOutcome<SignupError>)
    requires session.Valid()
    modifies session
    ensures session.Valid()
    ensures r.Sent? <==> SignupClick(rawName, rawEmail, rawPhone, rawPassword).Ok?
    ensures r.Rejected? ==>
              r.error == SignupClick(rawName, rawEmail, rawPhone, rawPassword).error && session.prefs == old(session.prefs)
    ensures r.Sent? && response.HasBody() ==> r.result == NavigateToMain(true) && session.IsLoggedIn()
    ensures r.Sent? && response.HasBody() ==>
              var b := response.body.value;
              session.prefs == AfterSignIn(old(session.prefs), b.token, b.id, b.name, b.email, b.role)
    ensures r.Sent? && !response.HasBody() ==> session.prefs == old(session.prefs)
  {
    match SignupClick(rawName, rawEmail, rawPhone, rawPassword)
    case Err(e) =>
      r := Rejected(e);
    case Ok(_) =>
      var res := PerformSignup(session, response);
      r := Sent(res);
  }
}
