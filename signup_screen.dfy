/**
 * The signup screen: an email, a password, its confirmation and a terms checkbox,
 * checked in a fixed order before a registration request with role "user" is posted.
 * The response decides whether a token is stored and where the user goes next.
 */
module SignupScreen {
  import opened Wrappers
  import opened JsText
  import opened Effects

  const FillAllFields: string := "Please fill in all fields."
  const PasswordsDiffer: string := "Passwords do not match."
  const AgreeToTerms: string := "Please agree to the terms and conditions."

  const SignupFailed: string := "Signup Failed"
  const SignupFallback: string := "Something went wrong"
  const NoTokenAlert: Alert := Alert("Signup Successful", "Account created, but no token received.")

  /** The role every registration asks for. */
  const UserRole: string := "user"

  /** The registration body: `{email, password, role}`. */
  datatype RegisterBody = RegisterBody(email: string, password: string, role: string)

  /**
   * The guards of `handleSignup`, in order: the message of the first that fails, or
   * `None` when the form may be submitted. Each message is reported exactly when every
   * earlier check passes and its own fails.
   */
  function SignupError(email: string, password: string, confirmPassword: string, agreeTerms: bool): (error: Option<string>)
    ensures error.None? <==>
      email != "" && password != "" && confirmPassword != "" && password == confirmPassword && agreeTerms
    ensures error == Some(FillAllFields) <==> email == "" || password == "" || confirmPassword == ""
    ensures error == Some(PasswordsDiffer) <==>
      email != "" && password != "" && confirmPassword != "" && password != confirmPassword
    ensures error == Some(AgreeToTerms) <==>
      email != "" && password != "" && confirmPassword != "" && password == confirmPassword && !agreeTerms
  {
    if email == "" || password == "" || confirmPassword == "" then Some(FillAllFields)
    else if password != confirmPassword then Some(PasswordsDiffer)
    else if !agreeTerms then Some(AgreeToTerms)
    else None
  }

  /**
   * How an awaited registration settles, given whether the token write resolves. The
   * token is stored exactly when the app moves on to the scanner, and then nothing is
   * alerted; otherwise exactly one alert is shown, never with an empty message. A
   * response without a token sends the user to log in; a rejection, or a token write
   * that fails, keeps the user on this screen.
   */
  function SignupSettlement(response: AuthResponse, writeSucceeds: bool): (s: Settlement)
    ensures s.stored.Some? <==> response.Responded? && Truthy(response.token) && writeSucceeds
    ensures s.stored.Some? ==> response.token == Some(s.stored.value)
    ensures s.alert.None? <==> s.stored.Some?
    ensures s.alert.Some? ==> s.alert.value.message != ""
    ensures s.route == Some(BarcodeScanner) <==> s.stored.Some?
    ensures s.route == Some(Login) <==> response.Responded? && !Truthy(response.token)
    ensures s.route.None? <==> s.alert.Some? && s.alert.value.title == SignupFailed
    ensures response.Responded? && !Truthy(response.token) ==> s.alert == Some(NoTokenAlert)
    ensures response.Responded? && Truthy(response.token) && !writeSucceeds ==>
      s.alert == Some(Alert(SignupFailed, SignupFallback))
    ensures response.Rejected? ==>
      s.alert == Some(Alert(SignupFailed, OrElse(response.serverMessage, SignupFallback)))
  {
    match response
    case Responded(token) =>
      if Truthy(token) then
        if writeSucceeds then Settlement(token, None, Some(BarcodeScanner))
        else Settlement(None, Some(Alert(SignupFailed, SignupFallback)), None)
      else Settlement(None, Some(NoTokenAlert), Some(Login))
    case Rejected(message) =>
      Settlement(None, Some(Alert(SignupFailed, OrElse(message, SignupFallback))), None)
  }

  class SignupForm {
    /** The device store the token is written to. */
    const storage: Storage
    var email: string
    var password: string
    var confirmPassword: string
    var agreeTerms: bool
    var loading: bool
    /** The registration `handleSignup` is suspended on, if any. */
    var inFlight: Option<RegisterBody>
    /** Every registration posted, in order. */
    var requests: seq<RegisterBody>
    var alerts: seq<Alert>
    var navigations: seq<Route>

    /**
     * The spinner shows exactly while a registration is outstanding, and that is the
     * last one posted. Every registration posted asks for the user role with a non-empty
     * email and password. The screen only ever navigates to the scanner or to login.
     */
    ghost predicate Valid()
      reads this
    {
      && (loading <==> inFlight.Some?)
      && (inFlight.Some? ==> |requests| > 0 && inFlight.value == requests[|requests| - 1])
      && (forall i :: 0 <= i < |requests| ==>
            requests[i].role == UserRole && requests[i].email != "" && requests[i].password != "")
      && (forall i :: 0 <= i < |navigations| ==> navigations[i] == BarcodeScanner || navigations[i] == Login)
    }

    /** Mounting the screen: empty fields, the box unticked, no spinner. */
    constructor (storage: Storage)
      ensures Valid()
      ensures this.storage == storage
      ensures email == "" && password == "" && confirmPassword == "" && !agreeTerms
      ensures !loading && requests == [] && alerts == [] && navigations == []
    {
      this.storage := storage;
      email := "";
      password := "";
      confirmPassword := "";
      agreeTerms := false;
      loading := false;
      inFlight := None;
      requests := [];
      alerts := [];
      navigations := [];
    }

    /** Typing into the email field (editable at all times). */
    method SetEmail(text: string)
      requires Valid()
      modifies this
      ensures Valid()
      ensures email == text
      ensures password == old(password) && confirmPassword == old(confirmPassword) && agreeTerms == old(agreeTerms)
      ensures loading == old(loading) && inFlight == old(inFlight) && requests == old(requests)
      ensures alerts == old(alerts) && navigations == old(navigations)
    {
      email := text;
    }

    /** Typing into the password field. */
    method SetPassword(text: string)
      requires Valid()
      modifies this
      ensures Valid()
      ensures password == text
      ensures email == old(email) && confirmPassword == old(confirmPassword) && agreeTerms == old(agreeTerms)
      ensures loading == old(loading) && inFlight == old(inFlight) && requests == old(requests)
      ensures alerts == old(alerts) && navigations == old(navigations)
    {
      password := text;
    }

    /** Typing into the confirmation field. */
    method SetConfirmPassword(text: string)
      requires Valid()
      modifies this
      ensures Valid()
      ensures confirmPassword == text
      ensures email == old(email) && password == old(password) && agreeTerms == old(agreeTerms)
      ensures loading == old(loading) && inFlight == old(inFlight) && requests == old(requests)
      ensures alerts == old(alerts) && navigations == old(navigations)
    {
      confirmPassword := text;
    }

    /** Tapping the checkbox flips it. */
    method ToggleTerms()
      requires Valid()
      modifies this
      ensures Valid()
      ensures agreeTerms == !old(agreeTerms)
      ensures email == old(email) && password == old(password) && confirmPassword == old(confirmPassword)
      ensures loading == old(loading) && inFlight == old(inFlight) && requests == old(requests)
      ensures alerts == old(alerts) && navigations == old(navigations)
    {
      agreeTerms := !agreeTerms;
    }

    /** The "Log In" link below the form. */
    method GoToLogin()
      requires Valid()
      modifies this
      ensures Valid()
      ensures navigations == old(navigations) + [Login]
      ensures email == old(email) && password == old(password) && confirmPassword == old(confirmPassword)
      ensures agreeTerms == old(agreeTerms) && loading == old(loading) && inFlight == old(inFlight)
      ensures requests == old(requests) && alerts == old(alerts)
    {
      navigations := navigations + [Login];
    }

    /**
     * Pressing "Sign Up": `handleSignup` up to its `await`. The button is replaced by the
     * spinner while loading, so nothing happens then. Otherwise a failing guard is
     * alerted under "Error" and nothing is posted; a passing form starts the spinner and
     * posts its email and password with the user role.
     */
    method Submit()
      requires Valid()
      modifies this
      ensures Valid()
      ensures email == old(email) && password == old(password) && confirmPassword == old(confirmPassword)
      ensures agreeTerms == old(agreeTerms) && navigations == old(navigations)
      ensures old(loading) ==> loading && inFlight == old(inFlight) && requests == old(requests) && alerts == old(alerts)
      ensures !old(loading) && SignupError(email, password, confirmPassword, agreeTerms).Some? ==>
        && alerts == old(alerts) + [Alert("Error", SignupError(email, password, confirmPassword, agreeTerms).value)]
        && !loading && requests == old(requests)
      ensures !old(loading) && SignupError(email, password, confirmPassword, agreeTerms).None? ==>
        var body := RegisterBody(email, password, UserRole);
        && loading && inFlight == Some(body)
        && requests == old(requests) + [body]
        && alerts == old(alerts)
    {
      if loading {
        return;
      }
      if email == "" || password == "" || confirmPassword == "" {
        alerts := alerts + [Alert("Error", FillAllFields)];
        return;
      }
      if password != confirmPassword {
        alerts := alerts + [Alert("Error", PasswordsDiffer)];
        return;
      }
      if !agreeTerms {
        alerts := alerts + [Alert("Error", AgreeToTerms)];
        return;
      }
      var body := RegisterBody(email, password, UserRole);
      loading := true;
      requests := requests + [body];
      inFlight := Some(body);
    }

    /**
     * The awaited registration settles (and, when a token came back, the awaited token
     * write): storage, alerts and navigation change as `SignupSettlement` says, and the
     * `finally` always stops the spinner.
     */
    method Resolve(response: AuthResponse, writeSucceeds: bool)
      requires Valid()
      requires inFlight.Some?
      modifies this, storage
      ensures Valid()
      ensures var s := SignupSettlement(response, writeSucceeds);
        && storage.items == (if s.stored.Some? then old(storage.items)[AuthTokenKey := s.stored.value] else old(storage.items))
        && alerts == old(alerts) + s.alert.ToSeq()
        && navigations == old(navigations) + s.route.ToSeq()
      ensures !loading && inFlight == None && requests == old(requests)
      ensures email == old(email) && password == old(password) && confirmPassword == old(confirmPassword)
      ensures agreeTerms == old(agreeTerms)
    {
      match response {
        case Responded(token) =>
          if Truthy(token) {
            if writeSucceeds {
              storage.SetItem(AuthTokenKey, token.value);
              navigations := navigations + [BarcodeScanner];
            } else {
              alerts := alerts + [Alert(SignupFailed, SignupFallback)];
            }
          } else {
            alerts := alerts + [NoTokenAlert];
            navigations := navigations + [Login];
          }
        case Rejected(message) =>
          alerts := alerts + [Alert(SignupFailed, OrElse(message, SignupFallback))];
      }
      loading := false;
      inFlight := None;
    }
  }

  /**
   * A complete signup whose response carries a token: the token lands under the
   * credential key, the user is taken to the scanner, and nothing is alerted.
   */
  method SignupStoresToken(storage: Storage, email: string, password: string, token: string) returns (f: SignupForm)
    requires email != "" && password != "" && token != ""
    modifies storage
    ensures f.Valid() && f.storage == storage
    ensures storage.items == old(storage.items)[AuthTokenKey := token]
    ensures f.requests == [RegisterBody(email, password, UserRole)]
    ensures f.navigations == [BarcodeScanner] && f.alerts == [] && !f.loading
  {
    f := new SignupForm(storage);
    f.SetEmail(email);
    f.SetPassword(password);
    f.SetConfirmPassword(password);
    f.ToggleTerms();
    f.Submit();
    f.Resolve(Responded(Some(token)), true);
  }
}
