# Twitter login plugin for Flutter: the Android login coordinator

This project models the Android half of the `flutter_twitter_login` plugin. The plugin
is a `TwitterLoginPlugin` object. It answers three method-channel calls:
`getCurrentSession`, `authorize` and `logOut`. It receives the Twitter SDK's
`success`/`failure` callbacks for an interactive login. It forwards activity results
to the SDK's auth client. It has two fields:

- `pendingResult`: the one `Result` waiting for the outcome of a login.
- `authClientInstance`: the auth client, created the first time it is needed. It
  also records that the SDK was configured, and which consumer key and secret it used.

Modules:

- `Wrappers`: `Option`, for Java references that may be null.
- `Decimal`: `String.valueOf(long)` as `LongToString`. `ParseLong` is its partner:
  parsing the formatted text gives the number back.
- `Channel`: what crosses the Flutter channel. A value is null, a string or a map.
  A response is `success`, `error` or `notImplemented`. Each `Result` object is a
  responder id, and each answer is a `Reply` to that id.
- `SessionMap`: `sessionToMap`, and a decoder `MapToSession` that recovers the session
  from the map.
- `Coordinator`: one pure transition function per plugin method. Each one maps the
  whole state to the new state: the two fields, the SDK state the plugin touches
  (active session, started handshakes, forwarded activity results) and the log of
  replies sent.
- `Plugin`: the class `TwitterLoginPlugin`. It has the two Java fields and fields for
  that outside state. Its methods assign them step by step, like the Java. Each method
  is proved to perform the transition of the `Coordinator` function of the same name.
- `Traces`: runs of events (channel calls, SDK callbacks, activity results) and lemmas
  across several events.

The model follows the code. A busy `setPendingResult` sends the new caller a
`TWITTER_LOGIN_IN_PROGRESS` error, but it does not return: the new caller still
overwrites `pendingResult`, and `authorize` still starts a second SDK handshake. One
might expect a busy slot to reject the second `authorize` and leave the first attempt
alone; the code does neither. `Traces.SecondAuthorizeOverlaps` proves the consequence:
after two `authorize` calls and one login, the plugin sends the second caller both the
error and the login envelope. `Traces.FirstAuthorizeAbandoned` proves that the first
caller is then never answered at all.

The plugin's `success` callback does not store the session itself: storing it is the
SDK's job. So `activeSession` is abstract SDK state. The constructor takes its initial
value, `logOut` clears it, and in a run the SDK's session manager stores a session
through the event `Traces.SessionStored`, which changes nothing else.
`Traces.LoginQueryLogOutQuery` follows a login, a query, a log-out and a second query.

## Model

| member | source | states |
|---|---|---|
| `Decimal.LongToString` | android/src/main/java/com/roughike/fluttertwitterlogin/fluttertwitterlogin/TwitterLoginPlugin.java:130 | the user id's text is non-empty and starts with a minus sign exactly when the id is negative |
| `Decimal.NatToString` | android/src/main/java/com/roughike/fluttertwitterlogin/fluttertwitterlogin/TwitterLoginPlugin.java:130 | the digits are all decimal digits, and there is no leading zero except for 0 itself |
| `Decimal.ParseNatToString` | android/src/main/java/com/roughike/fluttertwitterlogin/fluttertwitterlogin/TwitterLoginPlugin.java:130 | parsing the digits of a natural number gives that number |
| `Decimal.LongToStringRoundTrip` | android/src/main/java/com/roughike/fluttertwitterlogin/fluttertwitterlogin/TwitterLoginPlugin.java:130 | parsing `String.valueOf(userId)` gives the user id back, for every long |
| `Decimal.LongToStringInjective` | android/src/main/java/com/roughike/fluttertwitterlogin/fluttertwitterlogin/TwitterLoginPlugin.java:130 | two user ids have the same text exactly when they are equal |
| `Channel.Argument` | android/src/main/java/com/roughike/fluttertwitterlogin/fluttertwitterlogin/TwitterLoginPlugin.java:93-94 | `call.argument(key)` is the argument passed under that key, and null when the caller passed none |
| `SessionMap.SessionToMap` | android/src/main/java/com/roughike/fluttertwitterlogin/fluttertwitterlogin/TwitterLoginPlugin.java:122-133 | a null session maps to null; otherwise the map has exactly the keys secret, token, userId and username |
| `SessionMap.SessionToMapEntries` | android/src/main/java/com/roughike/fluttertwitterlogin/fluttertwitterlogin/TwitterLoginPlugin.java:127-132 | the four entries are the token's secret, the token, the user id as decimal text and the user name |
| `SessionMap.SessionToMapRoundTrip` | android/src/main/java/com/roughike/fluttertwitterlogin/fluttertwitterlogin/TwitterLoginPlugin.java:122-133 | decoding the map gives back exactly the session that was sent, and null for null |
| `SessionMap.SessionToMapInjective` | android/src/main/java/com/roughike/fluttertwitterlogin/fluttertwitterlogin/TwitterLoginPlugin.java:122-133 | two sessions give the same map exactly when they are equal |
| `Coordinator.Initial` | android/src/main/java/com/roughike/fluttertwitterlogin/fluttertwitterlogin/TwitterLoginPlugin.java:33-34 | a new plugin has no pending result and no client, and has sent nothing |
| `Coordinator.InProgressMessage` | android/src/main/java/com/roughike/fluttertwitterlogin/fluttertwitterlogin/TwitterLoginPlugin.java:69-70 | the in-progress message starts with the name of the method that was called |
| `Coordinator.InProgressError` | android/src/main/java/com/roughike/fluttertwitterlogin/fluttertwitterlogin/TwitterLoginPlugin.java:67-72 | the busy-slot answer is an error with code TWITTER_LOGIN_IN_PROGRESS, the in-progress message and null details |
| `Coordinator.LoggedInEnvelope` | android/src/main/java/com/roughike/fluttertwitterlogin/fluttertwitterlogin/TwitterLoginPlugin.java:138-142 | the login envelope has exactly the keys status and session; status is "loggedIn" and the session decodes to the SDK's session |
| `Coordinator.ErrorEnvelope` | android/src/main/java/com/roughike/fluttertwitterlogin/fluttertwitterlogin/TwitterLoginPlugin.java:152-155 | the failure envelope has exactly the keys status and errorMessage; status is "error" and errorMessage is the exception's message, null when that is null |
| `Coordinator.SetPendingResult` | android/src/main/java/com/roughike/fluttertwitterlogin/fluttertwitterlogin/TwitterLoginPlugin.java:65-76 | a busy slot sends the new caller the TWITTER_LOGIN_IN_PROGRESS error, an empty slot sends nothing; either way the new caller holds the slot and nothing else changes |
| `Coordinator.ConfiguredClient` | android/src/main/java/com/roughike/fluttertwitterlogin/fluttertwitterlogin/TwitterLoginPlugin.java:91-100 | the returned client is the existing one, or else one configured with the call's consumerKey and consumerSecret |
| `Coordinator.InitializeAuthClient` | android/src/main/java/com/roughike/fluttertwitterlogin/fluttertwitterlogin/TwitterLoginPlugin.java:91-100 | afterwards a client exists; when one already existed, nothing changes; nothing but the client field ever changes |
| `Coordinator.InitializeAuthClientIdempotent` | android/src/main/java/com/roughike/fluttertwitterlogin/fluttertwitterlogin/TwitterLoginPlugin.java:91-100 | after the first configuration, later calls change nothing, ignore their arguments and return the first client |
| `Coordinator.GetCurrentSession` | android/src/main/java/com/roughike/fluttertwitterlogin/fluttertwitterlogin/TwitterLoginPlugin.java:78-84 | the caller is answered with `sessionToMap` of the active session; the pending slot and the session are unchanged; nothing but the client and the replies changes |
| `Coordinator.GetCurrentSessionIgnoresPending` | android/src/main/java/com/roughike/fluttertwitterlogin/fluttertwitterlogin/TwitterLoginPlugin.java:78-84 | the outcome of `getCurrentSession` does not depend on the pending slot, and the slot is left as it was |
| `Coordinator.Authorize` | android/src/main/java/com/roughike/fluttertwitterlogin/fluttertwitterlogin/TwitterLoginPlugin.java:86-89 | the caller holds the slot, gets what `setPendingResult` sends, and a handshake is always started with the configured client |
| `Coordinator.LogOut` | android/src/main/java/com/roughike/fluttertwitterlogin/fluttertwitterlogin/TwitterLoginPlugin.java:112-120 | the active session is cleared, the caller is answered null, and the pending slot is unchanged |
| `Coordinator.LogOutIgnoresPending` | android/src/main/java/com/roughike/fluttertwitterlogin/fluttertwitterlogin/TwitterLoginPlugin.java:112-120 | the outcome of `logOut` does not depend on the pending slot, and the slot is left as it was |
| `Coordinator.OnMethodCall` | android/src/main/java/com/roughike/fluttertwitterlogin/fluttertwitterlogin/TwitterLoginPlugin.java:47-63 | the three known names go to their handlers; any other name is answered notImplemented and changes nothing else |
| `Coordinator.AuthSuccess` | android/src/main/java/com/roughike/fluttertwitterlogin/fluttertwitterlogin/TwitterLoginPlugin.java:135-147 | a pending caller gets exactly one login envelope and the slot is emptied; with nobody pending nothing changes |
| `Coordinator.AuthFailure` | android/src/main/java/com/roughike/fluttertwitterlogin/fluttertwitterlogin/TwitterLoginPlugin.java:149-160 | a pending caller gets exactly one error envelope, on the success channel, and the slot is emptied; with nobody pending nothing changes |
| `Coordinator.OnActivityResult` | android/src/main/java/com/roughike/fluttertwitterlogin/fluttertwitterlogin/TwitterLoginPlugin.java:162-169 | always returns false; the event reaches the client exactly when a client exists; no plugin field changes |
| `Coordinator.EnvelopesDistinguishable` | android/src/main/java/com/roughike/fluttertwitterlogin/fluttertwitterlogin/TwitterLoginPlugin.java:139-155 | a login and a failed login are told apart by the status entry alone |
| `Plugin.TwitterLoginPlugin.constructor` | android/src/main/java/com/roughike/fluttertwitterlogin/fluttertwitterlogin/TwitterLoginPlugin.java:42-45 | a new plugin is in the initial state |
| `Plugin.TwitterLoginPlugin.OnMethodCall` | android/src/main/java/com/roughike/fluttertwitterlogin/fluttertwitterlogin/TwitterLoginPlugin.java:47-63 | the dispatch performs the `Coordinator.OnMethodCall` transition |
| `Plugin.TwitterLoginPlugin.SetPendingResult` | android/src/main/java/com/roughike/fluttertwitterlogin/fluttertwitterlogin/TwitterLoginPlugin.java:65-76 | the new caller holds the slot; a busy slot sends it the in-progress error first |
| `Plugin.TwitterLoginPlugin.GetCurrentSession` | android/src/main/java/com/roughike/fluttertwitterlogin/fluttertwitterlogin/TwitterLoginPlugin.java:78-84 | the caller is answered with the active session's map |
| `Plugin.TwitterLoginPlugin.Authorize` | android/src/main/java/com/roughike/fluttertwitterlogin/fluttertwitterlogin/TwitterLoginPlugin.java:86-89 | the caller holds the slot and a handshake is started |
| `Plugin.TwitterLoginPlugin.InitializeAuthClient` | android/src/main/java/com/roughike/fluttertwitterlogin/fluttertwitterlogin/TwitterLoginPlugin.java:91-100 | returns the stored client; an existing client is returned unchanged |
| `Plugin.TwitterLoginPlugin.LogOut` | android/src/main/java/com/roughike/fluttertwitterlogin/fluttertwitterlogin/TwitterLoginPlugin.java:112-120 | the active session is cleared and the caller is answered null |
| `Plugin.TwitterLoginPlugin.Success` | android/src/main/java/com/roughike/fluttertwitterlogin/fluttertwitterlogin/TwitterLoginPlugin.java:135-147 | the slot is empty afterwards and the `Coordinator.AuthSuccess` transition is made |
| `Plugin.TwitterLoginPlugin.Failure` | android/src/main/java/com/roughike/fluttertwitterlogin/fluttertwitterlogin/TwitterLoginPlugin.java:149-160 | the slot is empty afterwards and the `Coordinator.AuthFailure` transition is made |
| `Plugin.TwitterLoginPlugin.OnActivityResult` | android/src/main/java/com/roughike/fluttertwitterlogin/fluttertwitterlogin/TwitterLoginPlugin.java:162-169 | returns false and leaves both plugin fields unchanged |
| `Traces.AtMostOneEnvelopePerResponder` | android/src/main/java/com/roughike/fluttertwitterlogin/fluttertwitterlogin/TwitterLoginPlugin.java:135-160 | when every call brings a new `Result`, no `Result` is answered on the success channel more than once, and the pending one not at all yet |
| `Traces.StaleResponderNeverAnswered` | android/src/main/java/com/roughike/fluttertwitterlogin/fluttertwitterlogin/TwitterLoginPlugin.java:135-160 | a `Result` that is not pending and makes no further call gets no further reply, whatever happens |
| `Traces.SecondAuthorizeOverlaps` | android/src/main/java/com/roughike/fluttertwitterlogin/fluttertwitterlogin/TwitterLoginPlugin.java:65-89 | two `authorize` calls and one login: the second caller gets the in-progress error and then the envelope, the first gets nothing, and two handshakes start |
| `Traces.FirstAuthorizeAbandoned` | android/src/main/java/com/roughike/fluttertwitterlogin/fluttertwitterlogin/TwitterLoginPlugin.java:65-89 | the first of two overlapping `authorize` callers is never answered afterwards |
| `Traces.LogOutThenNoSession` | android/src/main/java/com/roughike/fluttertwitterlogin/fluttertwitterlogin/TwitterLoginPlugin.java:78-120 | `logOut` then `getCurrentSession` answers null to both, from any state, and leaves the slot alone |
| `Traces.LoginQueryLogOutQuery` | android/src/main/java/com/roughike/fluttertwitterlogin/fluttertwitterlogin/TwitterLoginPlugin.java:78-147 | authorize, the SDK stores the session and reports success, then getCurrentSession, logOut, getCurrentSession: the caller gets the login envelope, the first query the stored session, the log-out and the second query null |
| `Traces.StaleCallbackIgnored` | android/src/main/java/com/roughike/fluttertwitterlogin/fluttertwitterlogin/TwitterLoginPlugin.java:135-160 | a login callback with nobody pending changes nothing |

## Left out

- Channel registration and the activity-listener hookup (lines 36-45): these are Flutter plumbing. The constructor only sets up the initial state.
- Cookie clearing in `logOut` (lines 113-115): this is web-view I/O with no effect on the plugin's state.
- `configureClient` (lines 102-110): it builds the SDK configuration and calls `Twitter.initialize`. The model keeps only the fact that the client exists, with its key and secret. The SDK's configuration rejects a null key or secret with an exception, which the model does not capture: it configures a client with absent values instead. In the code, that exception would leave `authClientInstance` null, and in `authorize` the caller would already hold the pending slot (line 87) although no handshake starts.
- The OAuth handshake inside `TwitterAuthClient.authorize`, and how the SDK stores sessions. A handshake is a logged start. Its outcome arrives as a `success` or `failure` event the model puts no limits on. Nothing in the model sets the active session on a login, because the plugin code does not.
- The `Intent` payload of `onActivityResult`, and what the SDK does with the forwarded event: only the two codes are logged.
- Threading: events are delivered one at a time, as the code assumes.
- Null strings inside a session (token, secret or user name) are not modelled. Every session field is a string.
- How `call.argument` behaves when an argument is not a string (a `ClassCastException`): arguments are strings or absent.
- Coordinator.AuthSuccess, Coordinator.AuthFailure: Flutter allows one reply per `Result` and throws on a second. So for a caller that already got the in-progress error, the reply at line 144 (or 157) would throw and skip `pendingResult = null` at line 145 (or 158), leaving the slot occupied. The model does not capture that exception: it records both replies and empties the slot.
