# Restaurant concierge client: scan handoff, chat log and sign-in screens

This project models the logic inside four screens of a React Native client. A restaurant patron
signs up or logs in, scans a table barcode, and chats with the restaurant's AI concierge.

- **Barcode scanner** (`BarcodeScannerScreen`). The scanned payload `k=v&k=v...` is split on `&`.
  Each segment is split on `=` and destructured into a key and a value, and the segments are folded
  into an object in which later keys win. The handoff needs `restaurantId`, `tableId` and
  `aiAgentId` all to be non-empty. A `scanned` flag switches the camera callback off while a scan is
  handled. A getUser fetch then either opens the chat screen with the parsed identifiers or re-arms
  scanning.
- **Chat** (`AIScreen`). The conversation log is append-only and starts with a welcome message.
  Blank input is ignored. Sending appends the user's untrimmed text, clears the input and sets
  `isLoading`, which locks the input and the send button. Exactly one AI message follows: the reply
  text, or a fixed error text.
- **Signup** (`SignupScreen`). Three ordered guards pick the error message, if any. A valid form posts
  `{email, password, role: "user"}`. The response decides whether the token is stored under
  `authToken`, where navigation goes, and which alert is shown.
- **Login** (`LoginScreen`). One guard, the payload `{email, password}`, and the same kind of
  response routing, with its own messages and destinations.

The model has these modules:

- `JsText` models the JavaScript string semantics the screens rely on: `split` with a one-character
  separator, `trim`, truthiness, and `a || b`.
- `Effects` holds the effects as values: alerts, navigation targets, and the key-value store.
- One module per screen.

Each asynchronous handler is modelled in two steps:

1. A method for the part before the `await`: `OnBarCodeScanned`, `Send` or `Submit`.
2. A method for the continuation: `ResolveFetch`, `Receive` or `Resolve`.

The awaited result is a parameter of the continuation. This lets each screen class state what holds
while a request is outstanding. Each `Resolve` is proved against a pure settlement function
(`SignupSettlement`, `LoginSettlement`), and the properties of the screen are proved about that function.

Notes on what the code does:

- The handoff needs all three identifiers.
- Scanning can start again while a getUser fetch is pending. "Tap to Scan Again" is shown whenever
  `scanned` is set, so a second fetch can start before the first settles (`TwoFetchesInFlight`).
- The chat post and the auth requests carry no bearer token. The chat body is
  `{prompt, restaurant_id, table_id, ai_agent_id, userData}`.

## Model

| member | source | states |
|---|---|---|
| JsText.Split | screens/BarcodeScannerScreen.js:32-33 | `split` with a one-character separator returns at least one piece (`""` gives `[""]`), and no piece contains the separator. Gluing the pieces back with the separator gives the input. |
| JsText.SplitNoSeparator | screens/BarcodeScannerScreen.js:33 | A string without the separator splits into itself alone. |
| JsText.SplitAtFirstSeparator | screens/BarcodeScannerScreen.js:32-33 | The first separator ends the first piece: `p + sep + t` splits into `[p]` followed by the pieces of `t`. |
| JsText.SplitJoin | screens/BarcodeScannerScreen.js:32-33 | Round trip: splitting the join of separator-free pieces gives the pieces back. |
| JsText.TrimStart | screens/AIScreen.js:38 | Leading `trim`: the result is a suffix of the input. Only white space was dropped, and the result does not start with white space. |
| JsText.TrimEnd | screens/AIScreen.js:38 | Trailing `trim`: the result is a prefix of the input. Only white space was dropped, and the result does not end with white space. |
| JsText.Trim | screens/AIScreen.js:38 | `input.trim()` is no longer than the input. A non-empty result starts and ends with a character that is not white space. |
| JsText.TrimEmptyIffBlank | screens/AIScreen.js:38 | `!input.trim()` holds exactly when every character is white space, the empty input included. |
| JsText.Truthy | screens/BarcodeScannerScreen.js:40 | JavaScript truthiness of a string that may be `undefined`: present and non-empty. `OrElse`, `RequiredIds` and the settlement functions state their cases through it. |
| JsText.OrElse | screens/SignupScreen.js:62 | `message \|\| fallback` is the message when it is present and non-empty, and the fallback otherwise. It is never empty when the fallback is not. |
| Effects.Storage.SetItem | screens/SignupScreen.js:49 | A resolved `setItem` binds the key to the value and leaves every other key as it was. |
| BarcodeScannerScreen.KeyValue | screens/BarcodeScannerScreen.js:33 | `[key, value] = item.split("=")`. `KeyValueShape`, `SegmentKeyValue`, `SegmentWithoutEquals` and `SegmentWithExtraEquals` prove where the key and the value come from. |
| BarcodeScannerScreen.KeyValueShape | screens/BarcodeScannerScreen.js:33 | The key is the text before the first `=`, or the whole segment when there is no `=`, and then the value is undefined. Otherwise the value is the text between the first `=` and the second `=` (or the end of the segment). |
| BarcodeScannerScreen.Collect | screens/BarcodeScannerScreen.js:32-36 | The `reduce` that assigns each segment's value to its key in order. `CollectKeys` and `LastOccurrenceWins` prove its keys and its values. |
| BarcodeScannerScreen.ParseParams | screens/BarcodeScannerScreen.js:32-36 | The payload as an object. `ParseEncoded`, `ParseEncodedKeys`, `ThreeSegments` and `ThreeIdsParse` prove what encoded payloads parse to. |
| BarcodeScannerScreen.CollectKeys | screens/BarcodeScannerScreen.js:32-36 | The folded object's keys are exactly the keys of the segments. |
| BarcodeScannerScreen.LastOccurrenceWins | screens/BarcodeScannerScreen.js:32-36 | A key maps to the value of its last segment. |
| BarcodeScannerScreen.Lookup | screens/BarcodeScannerScreen.js:38 | Reading a key the object does not have gives `undefined`. Reading a key it has gives the value bound to that key. |
| BarcodeScannerScreen.RequiredIds | screens/BarcodeScannerScreen.js:38-40 | The handoff proceeds exactly when all three identifiers are present and non-empty. It then carries them unchanged. |
| BarcodeScannerScreen.SegmentKeyValue | screens/BarcodeScannerScreen.js:33 | A segment `k=v` with `k` and `v` free of `&` and `=` destructures into `k` and `v`. |
| BarcodeScannerScreen.SplitEncoded | screens/BarcodeScannerScreen.js:32-33 | An encoded payload splits into its segments in order, and each one destructures into its pair. |
| BarcodeScannerScreen.ParseEncoded | screens/BarcodeScannerScreen.js:32-36 | Round trip: parsing `k1=v1&...&kn=vn` binds each key to the value of its last occurrence. |
| BarcodeScannerScreen.ParseEncodedKeys | screens/BarcodeScannerScreen.js:32-36 | Round trip: parsing an encoded payload yields exactly the keys written. |
| BarcodeScannerScreen.SplitThree | screens/BarcodeScannerScreen.js:32 | Three `&`-free segments joined by `&` split back into those three segments. |
| BarcodeScannerScreen.ThreeSegments | screens/BarcodeScannerScreen.js:32-36 | `k1=v1&k2=v2&k3=v3` parses to the map that binds k1, then k2, then k3, so a repeated key keeps its last value. |
| BarcodeScannerScreen.ThreeIdsParse | screens/BarcodeScannerScreen.js:30-38 | `restaurantId=R&tableId=T&aiAgentId=A` parses to exactly those three bindings. |
| BarcodeScannerScreen.ThreeIdsPayload | screens/BarcodeScannerScreen.js:30-40 | For `restaurantId=R&tableId=T&aiAgentId=A`, the handoff receives R, T and A unchanged exactly when all three are non-empty. |
| BarcodeScannerScreen.DocumentedPayload | screens/BarcodeScannerScreen.js:30-40 | The example payload `restaurantId=123&tableId=456&aiAgentId=789` yields the identifiers 123, 456 and 789. |
| BarcodeScannerScreen.SegmentWithoutEquals | screens/BarcodeScannerScreen.js:33 | A segment with no `=` is all key, and its value is undefined. |
| BarcodeScannerScreen.SegmentWithExtraEquals | screens/BarcodeScannerScreen.js:33 | In `k=v=rest` the value is `v`, and the text after the second `=` is dropped. |
| BarcodeScannerScreen.MissingRestaurantRefused | screens/BarcodeScannerScreen.js:38-40 | A payload naming only the table fails the handoff. |
| BarcodeScannerScreen.ChatRoute | screens/BarcodeScannerScreen.js:52-57 | The navigation to the chat screen carries the parsed identifiers unchanged and the fetched user data. |
| BarcodeScannerScreen.Scanner.constructor | screens/BarcodeScannerScreen.js:9 | Scanning starts armed, with nothing fetched, alerted or navigated. |
| BarcodeScannerScreen.Scanner.OnBarCodeScanned | screens/BarcodeScannerScreen.js:26-72 | While `scanned` is set, events are ignored. Otherwise `scanned` is set and the payload is parsed. Complete identifiers start exactly one getUser call with the restaurant id, the table id and the raw data. Anything else alerts "Invalid Barcode", makes no request and re-arms scanning. |
| BarcodeScannerScreen.Scanner.ResolveFetch | screens/BarcodeScannerScreen.js:48-65 | On success the chat screen opens with the parsed identifiers unchanged and the fetched user data, and `scanned` stays as it was. On failure one "Error" alert is shown and scanning is re-armed. |
| BarcodeScannerScreen.Scanner.TapToScanAgain | screens/BarcodeScannerScreen.js:83 | Clears `scanned` and changes nothing else. |
| BarcodeScannerScreen.TwoFetchesInFlight | screens/BarcodeScannerScreen.js:80-84 | A valid scan, a tap on "Tap to Scan Again" and a second scan leave two getUser calls outstanding. |
| ChatScreen.DefaultNull | screens/AIScreen.js:22-25 | A `= null` default replaces only `undefined`: afterwards the value is never `undefined`, and a `null` or a value passes through unchanged. |
| ChatScreen.ContextOf | screens/AIScreen.js:21-26 | No field of the context is `undefined`. A field holds a value exactly when the route passed that value. Missing route params make every field `null`. |
| ChatScreen.ReplyMessage | screens/AIScreen.js:54-62 | The message added when the post settles is from the AI. It carries the reply's `message` when the post resolved with a body, and the fixed error text when the post failed or the body was null. |
| ChatScreen.ScanIdsReachRequests | screens/BarcodeScannerScreen.js:52-57 | The identifiers and user data handed over by the scanner are exactly what every chat request carries. |
| ChatScreen.Chat.constructor | screens/AIScreen.js:21-35 | The log is exactly the welcome message, the input is empty, nothing is loading, and the context is the defaulted route params. |
| ChatScreen.Chat.Type | screens/AIScreen.js:101-107 | Typing replaces the input unless a request is outstanding, when the field is not editable. |
| ChatScreen.Chat.Send | screens/AIScreen.js:37-52 | While loading, or on blank input, nothing changes and nothing is posted. Otherwise exactly one user message with the untrimmed input is appended, the input is cleared, loading starts, and one request is posted with the input as prompt and the route context. The log keeps the shape of the welcome message followed by prompt/reply pairs matched to requests in order. |
| ChatScreen.Chat.Receive | screens/AIScreen.js:54-65 | Exactly one message, `ReplyMessage(reply)`, is added after the earlier messages, which stay as they were. Loading ends, and the log keeps its welcome/prompt/reply shape. |
| ChatScreen.DoubleSubmit | screens/AIScreen.js:106-110 | Pressing send twice before the reply posts one request, and the log ends as the welcome message, the prompt and its reply. |
| SignupScreen.SignupError | screens/SignupScreen.js:26-37 | Each guard's message is reported exactly when every earlier guard passes and its own fails. No message is reported exactly when the form is complete, the passwords match and the terms are agreed. |
| SignupScreen.SignupSettlement | screens/SignupScreen.js:45-66 | The token is stored exactly when the response carried one and the write resolved, and then the app goes to the scanner with no alert. A response without a token alerts and goes to Login. A rejection shows the server message or "Something went wrong" and stays on the screen. A failed write shows "Something went wrong" and stays on the screen. Every alert has a non-empty message. |
| SignupScreen.SignupForm.constructor | screens/SignupScreen.js:18-22 | All fields start empty, the terms box starts unticked, and nothing is loading. |
| SignupScreen.SignupForm.SetEmail | screens/SignupScreen.js:73-81 | Typing replaces the email and nothing else. |
| SignupScreen.SignupForm.SetPassword | screens/SignupScreen.js:83-90 | Typing replaces the password and nothing else. |
| SignupScreen.SignupForm.SetConfirmPassword | screens/SignupScreen.js:92-99 | Typing replaces the confirmation and nothing else. |
| SignupScreen.SignupForm.ToggleTerms | screens/SignupScreen.js:102 | Flips `agreeTerms` and nothing else. |
| SignupScreen.SignupForm.GoToLogin | screens/SignupScreen.js:122 | The link navigates to Login. |
| SignupScreen.SignupForm.Submit | screens/SignupScreen.js:25-47 | While loading the button is hidden and nothing happens. A failing guard alerts its message under "Error" and posts nothing. A passing form starts loading and posts `{email, password, role: "user"}` without the confirmation. |
| SignupScreen.SignupForm.Resolve | screens/SignupScreen.js:47-66 | Storage, alerts and navigation change exactly as `SignupSettlement` says, and loading always ends. |
| SignupScreen.SignupStoresToken | screens/SignupScreen.js:39-50 | A complete signup answered with a token stores it under `authToken`, goes to the scanner and shows no alert. |
| LoginScreen.LoginError | screens/LoginScreen.js:22-25 | "Please fill in all fields." is reported exactly when the email or the password is empty. |
| LoginScreen.SignupFormPassesLoginGuard | screens/LoginScreen.js:22-25 | A form that signup accepts passes the login guard, and both screens report the same message for missing fields. |
| LoginScreen.LoginSettlement | screens/LoginScreen.js:32-55 | The token is stored exactly when nothing is alerted. Any navigation goes to the scanner, and it happens exactly when the login resolved and no token write failed. A rejection shows the server message or "Invalid credentials" and stays on the screen. A resolved login without a token shows a notice. Every alert has a non-empty message. |
| LoginScreen.LoginAndSignupStoreAlike | screens/LoginScreen.js:36-43 | Login and signup store the same token in the same cases. Their destinations differ exactly when no token came back. |
| LoginScreen.LoginForm.constructor | screens/LoginScreen.js:16-18 | Both fields start empty and nothing is loading. |
| LoginScreen.LoginForm.SetEmail | screens/LoginScreen.js:62-70 | Typing replaces the email and nothing else. |
| LoginScreen.LoginForm.SetPassword | screens/LoginScreen.js:72-79 | Typing replaces the password and nothing else. |
| LoginScreen.LoginForm.GoToSignup | screens/LoginScreen.js:91 | The link navigates to Signup. |
| LoginScreen.LoginForm.Submit | screens/LoginScreen.js:21-34 | While loading the button is hidden and nothing happens. Missing fields alert under "Error" and nothing is posted. A complete form starts loading and posts exactly `{email, password}`. |
| LoginScreen.LoginForm.Resolve | screens/LoginScreen.js:34-55 | Storage, alerts and navigation change exactly as `LoginSettlement` says, and loading always ends. |
| LoginScreen.LoginStoresToken | screens/LoginScreen.js:36-39 | A complete login answered with a token leaves that token under `authToken` and goes to the scanner with no alert. |
| LoginScreen.LoginRejectedWithoutMessage | screens/LoginScreen.js:44-52 | A rejection without a server message shows "Invalid credentials", does not navigate and leaves the store unchanged. |

## Left out

- The camera permission request and its two placeholder screens (screens/BarcodeScannerScreen.js:12-24): they are hardware and UI.
- All JSX layout and style sheets, except which controls are visible, editable or disabled. That gating appears in the method contracts.
- `console.log` and `console.error` calls: they are diagnostics with no effect on state.
- The HTTP wrappers in api/auth.js and api/api.js only re-throw errors. Their results are parameters of the continuation methods (`AuthResponse`, `FetchOutcome`, `ChatReply`). The URLs are not modelled.
- getUser's arguments are passed to `axios.get` as its config object rather than as query parameters. The model records the argument object as given and does not model what axios sends.
- App.js registers Signup, Login and BarcodeScanner but not AIScreen, so the scanner's navigation would find no such route at run time. The model records the navigation call as made.
- React scheduling and re-rendering: each handler step is one atomic transition, and the interleaving of outstanding fetches is chosen by the caller of `ResolveFetch`. A response arriving after the user navigated away is treated like any other.
- JavaScript object prototype keys: a segment keyed `__proto__` or `constructor` behaves differently on a plain object. The model treats every key as an own property.
- Non-string values: a token or chat reply that is a number or an object is not modelled. `Option<string>` covers present strings, `undefined` and `null`.
- A rejected token write (`AsyncStorage.setItem`) is the `writeSucceeds` parameter. Its error has no `response`, so the screens show their generic fallback.
