/**
 * The login coordinator of the Android plugin as pure transitions over its
 * state: the plugin's two fields (`pendingResult`, `authClientInstance`), the
 * Twitter SDK state the plugin touches (the active session, the handshakes it
 * started, the activity results it forwarded) and everything sent back over
 * the channel. One function per method of the plugin; the class in module
 * Plugin is proved to perform exactly these transitions.
 */
module Coordinator {
  import opened Wrappers
  import opened Channel
  import opened SessionMap

  const MethodGetCurrentSession := "getCurrentSession"
  const MethodAuthorize := "authorize"
  const MethodLogOut := "logOut"
  const LoginInProgress := "TWITTER_LOGIN_IN_PROGRESS"

  /** A Java `int`. */
  type Int32 = x: int | -0x8000_0000 <= x < 0x8000_0000

  /** A `TwitterAuthClient`, known by the consumer key and secret the SDK was configured with. */
  datatype AuthClient = AuthClient(consumerKey: Option<string>, consumerSecret: Option<string>)

  /** The codes of an `onActivityResult` event (its `Intent` is not modelled). */
  datatype ActivityResult = ActivityResult(requestCode: Int32, resultCode: Int32)

  datatype State = State(
    pendingResult: Option<ResponderId>,
    authClientInstance: Option<AuthClient>,
    activeSession: Option<Session>,
    sent: seq<Reply>,
    handshakes: seq<AuthClient>,
    forwarded: seq<ActivityResult>)

  /** A fresh plugin, with whatever session the SDK has stored. */
  function Initial(session: Option<Session>): (s: State)
    ensures s.pendingResult.None? && s.authClientInstance.None?
    ensures s.activeSession == session
    ensures s.sent == [] && s.handshakes == [] && s.forwarded == []
  {
    State(None, None, session, [], [], [])
  }

  function InProgressMessage(methodName: string): (m: string)
    ensures methodName <= m
  {
    methodName + " called while another Twitter login operation was in progress."
  }

  /** The error a new caller receives while another login is pending. */
  function InProgressError(methodName: string): (e: Response)
    ensures e.Error? && e.errorCode == LoginInProgress
    ensures e.errorMessage == InProgressMessage(methodName)
    ensures e.errorDetails == VNull
  {
    Error(LoginInProgress, InProgressMessage(methodName), VNull)
  }

  /** The envelope sent when the SDK reports a successful login. */
  function LoggedInEnvelope(data: Option<Session>): (v: Value)
    ensures v.VMap? && v.entries.Keys == {"status", "session"}
    ensures v.entries["status"] == VString("loggedIn")
    ensures MapToSession(v.entries["session"]) == data
  {
    SessionToMapRoundTrip(data);
    VMap(map["status" := VString("loggedIn"), "session" := SessionToMap(data)])
  }

  /** The envelope sent when the SDK reports a failed login; a null message stays null. */
  function ErrorEnvelope(message: Option<string>): (v: Value)
    ensures v.VMap? && v.entries.Keys == {"status", "errorMessage"}
    ensures v.entries["status"] == VString("error")
    ensures message.None? <==> v.entries["errorMessage"] == VNull
    ensures message.Some? ==> v.entries["errorMessage"] == VString(message.value)
  {
    var text := match message case None => VNull case Some(m) => VString(m);
    VMap(map["status" := VString("error"), "errorMessage" := text])
  }

  /**
   * `setPendingResult`: a busy slot sends the new caller an error, and the new
   * caller takes the slot in either case.
   */
  function SetPendingResult(s: State, methodName: string, result: ResponderId): (t: State)
    ensures t.pendingResult == Some(result)
    ensures s.pendingResult.Some? ==> t.sent == s.sent + [Reply(result, InProgressError(methodName))]
    ensures s.pendingResult.None? ==> t.sent == s.sent
    ensures t == s.(pendingResult := t.pendingResult, sent := t.sent)
  {
    var s' := if s.pendingResult.Some? then s.(sent := s.sent + [Reply(result, InProgressError(methodName))]) else s;
    s'.(pendingResult := Some(result))
  }

  /** The client `initializeAuthClient` returns: the existing one, or one configured from the call's arguments. */
  function ConfiguredClient(instance: Option<AuthClient>, call: MethodCall): (c: AuthClient)
    ensures instance.Some? ==> c == instance.value
    ensures instance.None? ==>
      c.consumerKey == Argument(call, "consumerKey") && c.consumerSecret == Argument(call, "consumerSecret")
  {
    match instance
    case Some(client) => client
    case None => AuthClient(Argument(call, "consumerKey"), Argument(call, "consumerSecret"))
  }

  /** `initializeAuthClient`: configures the client only when none exists. */
  function InitializeAuthClient(s: State, call: MethodCall): (t: State)
    ensures t.authClientInstance == Some(ConfiguredClient(s.authClientInstance, call))
    ensures s.authClientInstance.Some? ==> t == s
    ensures t == s.(authClientInstance := t.authClientInstance)
  {
    s.(authClientInstance := Some(ConfiguredClient(s.authClientInstance, call)))
  }

  /** `getCurrentSession`: answers the SDK's active session as a map (null when there is none). */
  function GetCurrentSession(s: State, result: ResponderId, call: MethodCall): (t: State)
    ensures t.sent == s.sent + [Reply(result, Success(SessionToMap(s.activeSession)))]
    ensures t.pendingResult == s.pendingResult && t.activeSession == s.activeSession
    ensures t == InitializeAuthClient(s, call).(sent := t.sent)
  {
    var s' := InitializeAuthClient(s, call);
    s'.(sent := s'.sent + [Reply(result, Success(SessionToMap(s'.activeSession)))])
  }

  /** `authorize`: claims the pending slot, then always starts a handshake with the client. */
  function Authorize(s: State, result: ResponderId, call: MethodCall): (t: State)
    ensures t.pendingResult == Some(result)
    ensures t.sent == SetPendingResult(s, MethodAuthorize, result).sent
    ensures t.handshakes == s.handshakes + [ConfiguredClient(s.authClientInstance, call)]
    ensures t.authClientInstance == Some(ConfiguredClient(s.authClientInstance, call))
    ensures t.activeSession == s.activeSession && t.forwarded == s.forwarded
  {
    var s' := SetPendingResult(s, MethodAuthorize, result);
    var client := ConfiguredClient(s'.authClientInstance, call);
    var s'' := InitializeAuthClient(s', call);
    s''.(handshakes := s''.handshakes + [client])
  }

  /** `logOut`: clears the SDK's active session and answers null. */
  function LogOut(s: State, result: ResponderId, call: MethodCall): (t: State)
    ensures t.activeSession.None?
    ensures t.sent == s.sent + [Reply(result, Success(VNull))]
    ensures t.pendingResult == s.pendingResult
    ensures t == InitializeAuthClient(s, call).(activeSession := None, sent := t.sent)
  {
    var s' := InitializeAuthClient(s, call);
    s'.(activeSession := None, sent := s'.sent + [Reply(result, Success(VNull))])
  }

  /** `onMethodCall`: routes the three known methods; any other name is not implemented. */
  function OnMethodCall(s: State, call: MethodCall, result: ResponderId): (t: State)
    ensures call.methodName == MethodGetCurrentSession ==> t == GetCurrentSession(s, result, call)
    ensures call.methodName == MethodAuthorize ==> t == Authorize(s, result, call)
    ensures call.methodName == MethodLogOut ==> t == LogOut(s, result, call)
    ensures call.methodName !in {MethodGetCurrentSession, MethodAuthorize, MethodLogOut} ==>
      t == s.(sent := s.sent + [Reply(result, NotImplemented)])
  {
    match call.methodName
    case "getCurrentSession" => GetCurrentSession(s, result, call)
    case "authorize" => Authorize(s, result, call)
    case "logOut" => LogOut(s, result, call)
    case _ => s.(sent := s.sent + [Reply(result, NotImplemented)])
  }

  /** The SDK's `success` callback: answers the pending caller once and empties the slot. */
  function AuthSuccess(s: State, data: Option<Session>): (t: State)
    ensures t.pendingResult.None?
    ensures s.pendingResult.Some? ==>
      t.sent == s.sent + [Reply(s.pendingResult.value, Success(LoggedInEnvelope(data)))]
    ensures s.pendingResult.None? ==> t == s
    ensures t == s.(pendingResult := None, sent := t.sent)
  {
    match s.pendingResult
    case None => s
    case Some(pending) =>
      s.(sent := s.sent + [Reply(pending, Success(LoggedInEnvelope(data)))], pendingResult := None)
  }

  /**
   * The SDK's `failure` callback: answers the pending caller once, through the
   * success channel with an error envelope, and empties the slot.
   */
  function AuthFailure(s: State, message: Option<string>): (t: State)
    ensures t.pendingResult.None?
    ensures s.pendingResult.Some? ==>
      t.sent == s.sent + [Reply(s.pendingResult.value, Success(ErrorEnvelope(message)))]
    ensures s.pendingResult.None? ==> t == s
    ensures t == s.(pendingResult := None, sent := t.sent)
  {
    match s.pendingResult
    case None => s
    case Some(pending) =>
      s.(sent := s.sent + [Reply(pending, Success(ErrorEnvelope(message)))], pendingResult := None)
  }

  /** `onActivityResult`: the new state, and the boolean the listener returns. */
  function OnActivityResult(s: State, event: ActivityResult): (r: (State, bool))
    ensures !r.1
    ensures s.authClientInstance.Some? ==> r.0.forwarded == s.forwarded + [event]
    ensures s.authClientInstance.None? ==> r.0.forwarded == s.forwarded
    ensures r.0 == s.(forwarded := r.0.forwarded)
  {
    if s.authClientInstance.Some? then (s.(forwarded := s.forwarded + [event]), false) else (s, false)
  }

  /** Once a client exists, later configurations change nothing and return the first client. */
  lemma InitializeAuthClientIdempotent(s: State, first: MethodCall, later: MethodCall)
    ensures InitializeAuthClient(InitializeAuthClient(s, first), later) == InitializeAuthClient(s, first)
    ensures ConfiguredClient(InitializeAuthClient(s, first).authClientInstance, later)
         == ConfiguredClient(s.authClientInstance, first)
  {
  }

  /** `getCurrentSession` neither reads nor writes the pending slot. */
  lemma GetCurrentSessionIgnoresPending(s: State, p: Option<ResponderId>, result: ResponderId, call: MethodCall)
    ensures GetCurrentSession(s.(pendingResult := p), result, call)
         == GetCurrentSession(s, result, call).(pendingResult := p)
  {
  }

  /** `logOut` neither reads nor writes the pending slot. */
  lemma LogOutIgnoresPending(s: State, p: Option<ResponderId>, result: ResponderId, call: MethodCall)
    ensures LogOut(s.(pendingResult := p), result, call) == LogOut(s, result, call).(pendingResult := p)
  {
  }

  /** A caller tells a login from a failed login by the envelope's status alone. */
  lemma EnvelopesDistinguishable(data: Option<Session>, message: Option<string>)
    ensures LoggedInEnvelope(data).entries["status"] != ErrorEnvelope(message).entries["status"]
  {
  }
}
