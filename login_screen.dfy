/**
 * The login screen: an email and a password, both required, posted as credentials.
 * A response with a token stores it; with or without one, a resolved login moves on
 * to the scanner.
 */
module LoginScreen {
  import opened Wrappers
  import opened JsText
  import opened Effects
  import SignupScreen

  const FillAllFields: string := "Please fill in all fields."

  const LoginFailed: string := "Login Failed"
  const LoginFallback: string := "Invalid credentials"
  const NoTokenAlert: Alert := Alert("Login Successful", "Logged in, but no token received.")

  /** The credentials body: `{email, password}`. */
  datatype LoginBody = LoginBody(email: string, password: string)

  /** The guard of `handleLogin`: both fields must be non-empty. */
  function LoginError(email: string, password: string): (error: Option<string>)
    ensures error.None? <==> email != "" && password != ""
    ensures error.Some? ==> error == Some(FillAllFields)
  {
    if email == "" || password == "" then Some(FillAllFields) else None
  }

  /**
   * A form the signup screen accepts also passes the login guard, with the same
   * message for missing fields.
   */
  lemma SignupFormPassesLoginGuard(email: string, password: string, confirmPassword: string, agreeTerms: bool)
    ensures SignupScreen.SignupError(email, password, confirmPassword, agreeTerms).None? ==> LoginError(email, password).None?
    ensures LoginError(email, password).Some? ==>
      SignupScreen.SignupError(email, password, confirmPassword, agreeTerms) == LoginError(email, password)
  {
  }

  /**
   * How an awaited login settles, given whether the token write resolves. The token is
   * stored exactly when nothing is alerted. Any navigation goes to the scanner, and it
   * happens exactly when the server accepted the login and no token write failed; a
   * rejection or a failed write keeps the user here with one "Login Failed" alert. No
   * alert has an empty message.
   */
  function LoginSettlement(response: AuthResponse, writeSucceeds: bool): (s: Settlement)
    ensures s.stored.Some? <==> response.Responded? && Truthy(response.token) && writeSucceeds
    ensures s.stored.Some? ==> response.token == Some(s.stored.value)
    ensures s.alert.None? <==> s.stored.Some?
    ensures s.alert.Some? ==> s.alert.value.message != ""
    ensures s.route.Some? ==> s.route == Some(BarcodeScanner)
    ensures s.route.Some? <==> response.Responded? && (writeSucceeds || !Truthy(response.token))
    ensures s.route.None? <==> s.alert.Some? && s.alert.value.title == LoginFailed
    ensures response.Responded? && !Truthy(response.token) ==> s.alert == Some(NoTokenAlert)
    ensures response.Responded? && Truthy(response.token) && !writeSucceeds ==>
      s.alert == Some(Alert(LoginFailed, LoginFallback))
    ensures response.Rejected? ==>
      s.alert == Some(Alert(LoginFailed, OrElse(response.serverMessage, LoginFallback)))
  {
    match response
    case Responded(token) =>
      if Truthy(token) then
        if writeSucceeds then Settlement(token, None, Some(BarcodeScanner))
        else Settlement(None, Some(Alert(LoginFailed, LoginFallback)), None)
      else Settlement(None, Some(NoTokenAlert), Some(BarcodeScanner))
    case Rejected(message) =>
      Settlement(None, Some(Alert(LoginFailed, OrElse(message, LoginFallback))), None)
  }

  /**
   * The two screens store a token in the same circumstances and store the same token;
   * they differ only where no token came back, where signup sends the user to log in and
   * login moves on to the scanner.
   */
  lemma LoginAndSignupStoreAlike(response: AuthResponse, writeSucceeds: bool)
    ensures LoginSettlement(response, writeSucceeds).stored == SignupScreen.SignupSettlement(response, writeSucceeds).stored
    ensures LoginSettlement(response, writeSucceeds).route != SignupScreen.SignupSettlement(response, writeSucceeds).route <==>
      response.Responded? && !Truthy(response.token)
  {
  }

  class LoginForm {
    /** The device store the token is written to. */
    const storage: Storage
    var email: string
    var password: string
    var loading: bool
    /** The login `handleLogin` is suspended on, if any. */
    var inFlight: Option<LoginBody>
    /** Every login posted, in order. */
    var requests: seq<LoginBody>
    var alerts: seq<Alert>
    var navigations: seq<Route>

    /**
     * The spinner shows exactly while a login is outstanding, and that is the last one
     * posted. Every login posted has a non-empty email and password. The screen only
     * ever navigates to the scanner or to signup.
     */
    ghost predicate Valid()
      reads this
    {
      && (loading <==> inFlight.Some?)
      && (inFlight.Some? ==> |requests| > 0 && inFlight.value == requests[|requests| - 1])
      && (forall i :: 0 <= i < |requests| ==> requests[i].email != "" && requests[i].password != "")
      && (forall i :: 0 <= i < |navigations| ==> navigations[i] == BarcodeScanner || navigations[i] == Signup)
    }

    /** Mounting the screen: empty fields, no spinner. */
    constructor (storage: Storage)
      ensures Valid()
      ensures this.storage == storage
      ensures email == "" && password == ""
      ensures !loading && requests == [] && alerts == [] && navigations == []
    {
      this.storage := storage;
      email := "";
      password := "";
      loading := false;
      inFlight := None;
      requests := [];
      alerts := [];
      navigations := [];
    }

    /** Typing into the email field (editable at all times). */
    method SetEmail(text: string)
      requires Valid()
      modifies this
      ensures Valid()
      ensures email == text && password == old(password)
      ensures loading == old(loading) && inFlight == old(inFlight) && requests == old(requests)
      ensures alerts == old(alerts) && navigations == old(navigations)
    {
      email := text;
    }

    /** Typing into the password field. */
    method SetPassword(text: string)
      requires Valid()
      modifies this
      ensures Valid()
      ensures password == text && email == old(email)
      ensures loading == old(loading) && inFlight == old(inFlight) && requests == old(requests)
      ensures alerts == old(alerts) && navigations == old(navigations)
    {
      password := text;
    }

    /** The "Sign Up" link below the form. */
    method GoToSignup()
      requires Valid()
      modifies this
      ensures Valid()
      ensures navigations == old(navigations) + [Signup]
      ensures email == old(email) && password == old(password)
      ensures loading == old(loading) && inFlight == old(inFlight)
      ensures requests == old(requests) && alerts == old(alerts)
    {
      navigations := navigations + [Signup];
    }

    /**
     * Pressing "Log In": `handleLogin` up to its `await`. The button is replaced by the
     * spinner while loading, so nothing happens then. Otherwise missing fields are
     * alerted under "Error" and nothing is posted; a complete form starts the spinner
     * and posts the credentials.
     */
    method Submit()
      requires Valid()
      modifies this
      ensures Valid()
      ensures email == old(email) && password == old(password) && navigations == old(navigations)
      ensures old(loading) ==> loading && inFlight == old(inFlight) && requests == old(requests) && alerts == old(alerts)
      ensures !old(loading) && LoginError(email, password).Some? ==>
        && alerts == old(alerts) + [Alert("Error", LoginError(email, password).value)]
        && !loading && requests == old(requests)
      ensures !old(loading) && LoginError(email, password).None? ==>
        && loading && inFlight == Some(LoginBody(email, password))
        && requests == old(requests) + [LoginBody(email, password)]
        && alerts == old(alerts)
    {
      if loading {
        return;
      }
      if email == "" || password == "" {
        alerts := alerts + [Alert("Error", FillAllFields)];
        return;
      }
      var body := LoginBody(email, password);
      loading := true;
      requests := requests + [body];
      inFlight := Some(body);
    }

    /**
     * The awaited login settles (and, when a token came back, the awaited token write):
     * storage, alerts and navigation change as `LoginSettlement` says, and the `finally`
     * always stops the spinner.
     */
    method Resolve(response: AuthResponse, writeSucceeds: bool)
      requires Valid()
      requires inFlight.Some?
      modifies this, storage
      ensures Valid()
      ensures var s := LoginSettlement(response, writeSucceeds);
        && storage.items == (if s.stored.Some? then old(storage.items)[AuthTokenKey := s.stored.value] else old(storage.items))
        && alerts == old(alerts) + s.alert.ToSeq()
        && navigations == old(navigations) + s.route.ToSeq()
      ensures !loading && inFlight == None && requests == old(requests)
      ensures email == old(email) && password == old(password)
    {
      match response {
        case Responded(token) =>
          if Truthy(token) {
            if writeSucceeds {
              storage.SetItem(AuthTokenKey, token.value);
              navigations := navigations + [BarcodeScanner];
            } else {
              alerts := alerts + [Alert(LoginFailed, LoginFallback)];
            }
          } else {
            alerts := alerts + [NoTokenAlert];
            navigations := navigations + [BarcodeScanner];
          }
        case Rejected(message) =>
          alerts := alerts + [Alert(LoginFailed, OrElse(message, LoginFallback))];
      }
      loading := false;
      inFlight := None;
    }
  }

  /**
   * A complete login whose response carries a token: the token lands under the
   * credential key, the user is taken to the scanner, and nothing is alerted.
   */
  method LoginStoresToken(storage: Storage, email: string, password: string, token: string) returns (f: LoginForm)
    requires email != "" && password != "" && token != ""
    modifies storage
    ensures f.Valid() && f.storage == storage
    ensures storage.items == old(storage.items)[AuthTokenKey := token]
    ensures storage.items[AuthTokenKey] == token
    ensures f.requests == [LoginBody(email, password)]
    ensures f.navigations == [BarcodeScanner] && f.alerts == [] && !f.loading
  {
    f := new LoginForm(storage);
    f.SetEmail(email);
    f.SetPassword(password);
    f.Submit();
    f.Resolve(Responded(Some(token)), true);
  }

  /**
   * A rejected login with no server message shows the fixed fallback text, stays on
   * this screen, and leaves the store as it was.
   */
  method LoginRejectedWithoutMessage(storage: Storage, email: string, password: string) returns (f: LoginForm)
    requires email != "" && password != ""
    modifies storage
    ensures f.Valid() && f.storage == storage
    ensures storage.items == old(storage.items)
    ensures f.alerts == [Alert(LoginFailed, LoginFallback)] && f.navigations == [] && !f.loading
  {
    f := new LoginForm(storage);
    f.SetEmail(email);
    f.SetPassword(password);
    f.Submit();
    f.Resolve(Rejected(None), true);
  }
}
