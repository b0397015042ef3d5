/**
 * The plugin object. Its own fields are `pendingResult` and
 * `authClientInstance`; the other fields stand for the state outside it that
 * its methods change: the SDK's active session, the handshakes started on the
 * SDK client, the activity results forwarded to it, and the replies sent over
 * the channel. Each method is proved to make the transition of the function of
 * the same name in module Coordinator.
 */
module Plugin {
  import opened Wrappers
  import opened Channel
  import opened SessionMap
  import Coordinator

  class TwitterLoginPlugin {
    var authClientInstance: Option<Coordinator.AuthClient>
    var pendingResult: Option<ResponderId>

    var activeSession: Option<Session>
    var handshakes: seq<Coordinator.AuthClient>
    var forwarded: seq<Coordinator.ActivityResult>
    var sent: seq<Reply>

    /** The whole observable state, as a value. */
    function Model(): Coordinator.State
      reads this
    {
      Coordinator.State(pendingResult, authClientInstance, activeSession, sent, handshakes, forwarded)
    }

    constructor (session: Option<Session>)
      ensures Model() == Coordinator.Initial(session)
    {
      authClientInstance := None;
      pendingResult := None;
      activeSession := session;
      handshakes := [];
      forwarded := [];
      sent := [];
    }

    method OnMethodCall(call: MethodCall, result: ResponderId)
      modifies this
      ensures Model() == Coordinator.OnMethodCall(old(Model()), call, result)
    {
      match call.methodName
      case "getCurrentSession" => GetCurrentSession(result, call);
      case "authorize" => Authorize(result, call);
      case "logOut" => LogOut(result, call);
      case _ => sent := sent + [Reply(result, NotImplemented)];
    }

    method SetPendingResult(methodName: string, result: ResponderId)
      modifies this
      ensures pendingResult == Some(result)
      ensures old(pendingResult).Some? ==> sent == old(sent) + [Reply(result, Coordinator.InProgressError(methodName))]
      ensures Model() == Coordinator.SetPendingResult(old(Model()), methodName, result)
    {
      if pendingResult.Some? {
        sent := sent + [Reply(result, Coordinator.InProgressError(methodName))];
      }
      pendingResult := Some(result);
    }

    method GetCurrentSession(result: ResponderId, call: MethodCall)
      modifies this
      ensures sent == old(sent) + [Reply(result, Channel.Success(SessionToMap(activeSession)))]
      ensures Model() == Coordinator.GetCurrentSession(old(Model()), result, call)
    {
      var _ := InitializeAuthClient(call);
      var session := activeSession;
      var sessionMap := SessionToMap(session);
      sent := sent + [Reply(result, Channel.Success(sessionMap))];
    }

    method Authorize(result: ResponderId, call: MethodCall)
      modifies this
      ensures pendingResult == Some(result)
      ensures Model() == Coordinator.Authorize(old(Model()), result, call)
    {
      SetPendingResult(Coordinator.MethodAuthorize, result);
      var client := InitializeAuthClient(call);
      handshakes := handshakes + [client];
    }

    method InitializeAuthClient(call: MethodCall) returns (client: Coordinator.AuthClient)
      modifies this
      ensures authClientInstance == Some(client)
      ensures old(authClientInstance).Some? ==> client == old(authClientInstance).value
      ensures client == Coordinator.ConfiguredClient(old(authClientInstance), call)
      ensures Model() == Coordinator.InitializeAuthClient(old(Model()), call)
    {
      if authClientInstance.None? {
        var consumerKey := Argument(call, "consumerKey");
        var consumerSecret := Argument(call, "consumerSecret");
        authClientInstance := Some(Coordinator.AuthClient(consumerKey, consumerSecret));
      }
      client := authClientInstance.value;
    }

    method LogOut(result: ResponderId, call: MethodCall)
      modifies this
      ensures activeSession.None?
      ensures Model() == Coordinator.LogOut(old(Model()), result, call)
    {
      var _ := InitializeAuthClient(call);
      activeSession := None;
      sent := sent + [Reply(result, Channel.Success(VNull))];
    }

    method Success(data: Option<Session>)
      modifies this
      ensures pendingResult.None?
      ensures Model() == Coordinator.AuthSuccess(old(Model()), data)
    {
      if pendingResult.Some? {
        var resultMap := Coordinator.LoggedInEnvelope(data);
        sent := sent + [Reply(pendingResult.value, Channel.Success(resultMap))];
        pendingResult := None;
      }
    }

    method Failure(message: Option<string>)
      modifies this
      ensures pendingResult.None?
      ensures Model() == Coordinator.AuthFailure(old(Model()), message)
    {
      if pendingResult.Some? {
        var resultMap := Coordinator.ErrorEnvelope(message);
        sent := sent + [Reply(pendingResult.value, Channel.Success(resultMap))];
        pendingResult := None;
      }
    }

    method OnActivityResult(event: Coordinator.ActivityResult) returns (handled: bool)
      modifies this
      ensures !handled
      ensures pendingResult == old(pendingResult) && authClientInstance == old(authClientInstance)
      ensures (Model(), handled) == Coordinator.OnActivityResult(old(Model()), event)
    {
      if authClientInstance.Some? {
        forwarded := forwarded + [event];
      }
      handled := false;
    }
  }
}
