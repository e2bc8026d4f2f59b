/**
 * What the screens do to the world outside their own state, recorded as values:
 * an `Alert.alert(title, message)` dialog, a `navigation.navigate(route, params)` call,
 * and writes to the device's key-value store (AsyncStorage).
 */
module Effects {
  import opened Wrappers

  /** One `Alert.alert(title, message)` call. */
  datatype Alert = Alert(title: string, message: string)

  /** The body of the getUser response, passed on opaquely as `userData`. */
  datatype UserData = UserData(body: string)

  /** The parameters the scanner hands to the chat screen. */
  datatype AiScreenParams = AiScreenParams(
    restaurant_id: string,
    table_id: string,
    ai_agent_id: string,
    userData: UserData)

  /** A `navigation.navigate` target, named as the screens pass them to `navigation.navigate`. */
  datatype Route = Login | Signup | BarcodeScanner | AIScreen(params: AiScreenParams)

  /**
   * How an awaited `authApi.signup` / `authApi.login` call settles: resolved with
   * `response.data?.token`, or rejected with `error.response?.data?.message`
   * (`None` is `undefined`).
   */
  datatype AuthResponse = Responded(token: Option<string>) | Rejected(serverMessage: Option<string>)

  /** What a settled auth request leaves behind: a stored token, an alert, a navigation. */
  datatype Settlement = Settlement(stored: Option<string>, alert: Option<Alert>, route: Option<Route>)

  /** The storage key under which the login and signup screens keep the credential. */
  const AuthTokenKey: string := "authToken"

  /** The device's persistent key-value store, shared by every screen. */
  class Storage {
    var items: map<string, string>

    constructor ()
      ensures items == map[]
    {
      items := map[];
    }

    /** `AsyncStorage.setItem(key, value)` that resolves: the key now holds the value, nothing else changes. */
    method SetItem(key: string, value: string)
      modifies this
      ensures items == old(items)[key := value]
    {
      items := items[key := value];
    }
  }
}
