/**
 * Runs of the coordinator: the sequence of events it sees (channel calls,
 * SDK callbacks, activity results) and what it has sent after them. The
 * lemmas here relate several events: who can be answered, how often, and
 * what a second `authorize` does to the first caller.
 */
module Traces {
  import opened Wrappers
  import opened Channel
  import opened SessionMap
  import opened Coordinator

  datatype Event =
    | Call(call: MethodCall, responder: ResponderId)
    | AuthSucceeded(data: Option<Session>)
    | AuthFailed(message: Option<string>)
    | ActivityResultDelivered(activity: ActivityResult)
      /** The SDK's session manager stores a session (as it does on a login); the plugin is not involved. */
    | SessionStored(session: Option<Session>)

  function Apply(s: State, e: Event): State {
    match e
    case Call(call, responder) => OnMethodCall(s, call, responder)
    case AuthSucceeded(data) => AuthSuccess(s, data)
    case AuthFailed(message) => AuthFailure(s, message)
    case ActivityResultDelivered(activity) => OnActivityResult(s, activity).0
    case SessionStored(session) => s.(activeSession := session)
  }

  function Run(s: State, events: seq<Event>): State
    decreases |events|
  {
    if events == [] then s else Run(Apply(s, events[0]), events[1..])
  }

  /** The responders of the channel calls in a run. */
  function CallIds(events: seq<Event>): set<ResponderId>
    decreases |events|
  {
    if events == [] then {}
    else (if events[0].Call? then {events[0].responder} else {}) + CallIds(events[1..])
  }

  /** How many replies of any kind r has received. */
  function RepliesTo(sent: seq<Reply>, r: ResponderId): nat
    decreases |sent|
  {
    if sent == [] then 0
    else RepliesTo(sent[..|sent| - 1], r) + (if sent[|sent| - 1].to == r then 1 else 0)
  }

  /** How many success-channel replies r has received. */
  function SuccessesTo(sent: seq<Reply>, r: ResponderId): nat
    decreases |sent|
  {
    if sent == [] then 0
    else SuccessesTo(sent[..|sent| - 1], r) + (if sent[|sent| - 1].to == r && sent[|sent| - 1].response.Success? then 1 else 0)
  }

  /** A responder the coordinator has never answered and does not hold. */
  predicate Fresh(s: State, r: ResponderId) {
    RepliesTo(s.sent, r) == 0 && s.pendingResult != Some(r)
  }

  /** Every channel call of the run comes with a fresh responder, as Flutter does. */
  predicate FreshCalls(s: State, events: seq<Event>)
    decreases |events|
  {
    events != [] ==>
      (events[0].Call? ==> Fresh(s, events[0].responder)) && FreshCalls(Apply(s, events[0]), events[1..])
  }

  /** Each responder has had at most one success reply, and the pending one none yet. */
  ghost predicate AtMostOneEnvelope(s: State) {
    (forall r :: SuccessesTo(s.sent, r) <= 1)
    && (s.pendingResult.Some? ==> SuccessesTo(s.sent, s.pendingResult.value) == 0)
  }

  lemma RepliesToAppend(sent: seq<Reply>, x: Reply, r: ResponderId)
    ensures RepliesTo(sent + [x], r) == RepliesTo(sent, r) + (if x.to == r then 1 else 0)
    ensures SuccessesTo(sent + [x], r) == SuccessesTo(sent, r) + (if x.to == r && x.response.Success? then 1 else 0)
  {
    assert (sent + [x])[..|sent|] == sent;
  }

  lemma {:induction false} SuccessesAtMostReplies(sent: seq<Reply>, r: ResponderId)
    ensures SuccessesTo(sent, r) <= RepliesTo(sent, r)
    decreases |sent|
  {
    if sent != [] {
      SuccessesAtMostReplies(sent[..|sent| - 1], r);
    }
  }

  lemma {:induction false} RunAppend(s: State, a: seq<Event>, b: seq<Event>)
    ensures Run(s, a + b) == Run(Run(s, a), b)
    decreases |a|
  {
    if a == [] {
      assert a + b == b;
    } else {
      assert (a + b)[0] == a[0];
      assert (a + b)[1..] == a[1..] + b;
      RunAppend(Apply(s, a[0]), a[1..], b);
    }
  }

  lemma RunOne(s: State, e: Event)
    ensures Run(s, [e]) == Apply(s, e)
  {
    assert [e][1..] == [];
  }

  lemma RunTwo(s: State, e1: Event, e2: Event)
    ensures Run(s, [e1, e2]) == Apply(Apply(s, e1), e2)
  {
    assert [e1, e2][1..] == [e2];
    RunOne(Apply(s, e1), e2);
  }

  lemma RunThree(s: State, e1: Event, e2: Event, e3: Event)
    ensures Run(s, [e1, e2, e3]) == Apply(Apply(Apply(s, e1), e2), e3)
  {
    assert [e1, e2, e3][1..] == [e2, e3];
    RunTwo(Apply(s, e1), e2, e3);
  }

  /** One event keeps the invariant when a call's responder is fresh. */
  lemma ApplyKeepsAtMostOneEnvelope(s: State, e: Event)
    requires AtMostOneEnvelope(s)
    requires e.Call? ==> Fresh(s, e.responder)
    ensures AtMostOneEnvelope(Apply(s, e))
  {
    var t := Apply(s, e);
    if e.Call? {
      SuccessesAtMostReplies(s.sent, e.responder);
    }
    if t.sent != s.sent {
      var x := t.sent[|t.sent| - 1];
      assert t.sent == s.sent + [x];
      forall r ensures SuccessesTo(t.sent, r) <= 1 {
        RepliesToAppend(s.sent, x, r);
      }
      if t.pendingResult.Some? {
        RepliesToAppend(s.sent, x, t.pendingResult.value);
      }
    }
  }

  /**
   * As long as every call brings a fresh responder, no responder ever gets
   * more than one success-channel reply (data, envelope or null).
   */
  lemma {:induction false} AtMostOneEnvelopePerResponder(s: State, events: seq<Event>)
    requires AtMostOneEnvelope(s)
    requires FreshCalls(s, events)
    ensures AtMostOneEnvelope(Run(s, events))
    decreases |events|
  {
    if events != [] {
      ApplyKeepsAtMostOneEnvelope(s, events[0]);
      AtMostOneEnvelopePerResponder(Apply(s, events[0]), events[1..]);
    }
  }

  /** A responder that is not pending and calls no more is never answered again. */
  lemma {:induction false} StaleResponderNeverAnswered(s: State, events: seq<Event>, r: ResponderId)
    requires s.pendingResult != Some(r)
    requires r !in CallIds(events)
    ensures RepliesTo(Run(s, events).sent, r) == RepliesTo(s.sent, r)
    decreases |events|
  {
    if events != [] {
      var t := Apply(s, events[0]);
      if t.sent != s.sent {
        var x := t.sent[|t.sent| - 1];
        assert t.sent == s.sent + [x];
        RepliesToAppend(s.sent, x, r);
      }
      StaleResponderNeverAnswered(t, events[1..], r);
    }
  }

  /**
   * Two `authorize` calls in a row, then one login: the second caller gets the
   * in-progress error and then the envelope, the first caller gets nothing,
   * and two handshakes were started.
   */
  lemma SecondAuthorizeOverlaps(s: State, first: MethodCall, second: MethodCall, r1: ResponderId, r2: ResponderId, data: Option<Session>)
    requires s.pendingResult.None?
    requires first.methodName == MethodAuthorize && second.methodName == MethodAuthorize
    ensures Run(s, [Call(first, r1), Call(second, r2), AuthSucceeded(data)]).sent
         == s.sent + [Reply(r2, InProgressError(MethodAuthorize)), Reply(r2, Success(LoggedInEnvelope(data)))]
    ensures |Run(s, [Call(first, r1), Call(second, r2), AuthSucceeded(data)]).handshakes| == |s.handshakes| + 2
  {
    var s1 := Apply(s, Call(first, r1));
    var s2 := Apply(s1, Call(second, r2));
    var s3 := Apply(s2, AuthSucceeded(data));
    RunThree(s, Call(first, r1), Call(second, r2), AuthSucceeded(data));
  }

  /**
   * The first of two overlapping `authorize` callers is abandoned: whatever
   * happens afterwards, it is never answered, as long as it does not call again.
   */
  lemma FirstAuthorizeAbandoned(s: State, first: MethodCall, second: MethodCall, r1: ResponderId, r2: ResponderId, later: seq<Event>)
    requires s.pendingResult.None? && RepliesTo(s.sent, r1) == 0 && r1 != r2
    requires first.methodName == MethodAuthorize && second.methodName == MethodAuthorize
    requires r1 !in CallIds(later)
    ensures RepliesTo(Run(s, [Call(first, r1), Call(second, r2)] + later).sent, r1) == 0
  {
    var s1 := Apply(s, Call(first, r1));
    var s2 := Apply(s1, Call(second, r2));
    RunAppend(s, [Call(first, r1), Call(second, r2)], later);
    RunTwo(s, Call(first, r1), Call(second, r2));
    if s2.sent != s1.sent {
      RepliesToAppend(s1.sent, s2.sent[|s2.sent| - 1], r1);
      assert s2.sent == s1.sent + [s2.sent[|s2.sent| - 1]];
    }
    StaleResponderNeverAnswered(s2, later, r1);
  }

  /** After `logOut`, `getCurrentSession` answers null, whatever the state was. */
  lemma LogOutThenNoSession(s: State, logOut: MethodCall, query: MethodCall, r1: ResponderId, r2: ResponderId)
    requires logOut.methodName == MethodLogOut && query.methodName == MethodGetCurrentSession
    ensures Run(s, [Call(logOut, r1), Call(query, r2)]).sent
         == s.sent + [Reply(r1, Success(VNull)), Reply(r2, Success(VNull))]
    ensures Run(s, [Call(logOut, r1), Call(query, r2)]).pendingResult == s.pendingResult
  {
    RunTwo(s, Call(logOut, r1), Call(query, r2));
  }

  /**
   * A login that the SDK stores, then a query, a log-out and another query:
   * the caller gets the login envelope, the query answers the stored session,
   * and after `logOut` the query answers null.
   */
  lemma LoginQueryLogOutQuery(s: State, login: MethodCall, query: MethodCall, logOut: MethodCall,
                              r1: ResponderId, r2: ResponderId, r3: ResponderId, r4: ResponderId, d: Session)
    requires s.pendingResult.None?
    requires login.methodName == MethodAuthorize && logOut.methodName == MethodLogOut
    requires query.methodName == MethodGetCurrentSession
    ensures Run(s, [Call(login, r1), SessionStored(Some(d)), AuthSucceeded(Some(d)),
                    Call(query, r2), Call(logOut, r3), Call(query, r4)]).sent
         == s.sent + [Reply(r1, Success(LoggedInEnvelope(Some(d)))), Reply(r2, Success(SessionToMap(Some(d)))),
                      Reply(r3, Success(VNull)), Reply(r4, Success(VNull))]
    ensures Run(s, [Call(login, r1), SessionStored(Some(d)), AuthSucceeded(Some(d)),
                    Call(query, r2), Call(logOut, r3), Call(query, r4)]).pendingResult.None?
  {
    var a := [Call(login, r1), SessionStored(Some(d)), AuthSucceeded(Some(d))];
    var b := [Call(query, r2), Call(logOut, r3), Call(query, r4)];
    assert a + b == [Call(login, r1), SessionStored(Some(d)), AuthSucceeded(Some(d)),
                     Call(query, r2), Call(logOut, r3), Call(query, r4)];
    RunAppend(s, a, b);
    RunThree(s, Call(login, r1), SessionStored(Some(d)), AuthSucceeded(Some(d)));
    var s1 := Authorize(s, r1, login);
    var s2 := s1.(activeSession := Some(d));
    var s3 := AuthSuccess(s2, Some(d));
    assert s3.sent == s.sent + [Reply(r1, Success(LoggedInEnvelope(Some(d))))];
    assert s3.activeSession == Some(d) && s3.pendingResult.None?;
    assert Run(s, a) == s3;
    RunThree(s3, Call(query, r2), Call(logOut, r3), Call(query, r4));
    var s4 := GetCurrentSession(s3, r2, query);
    var s5 := LogOut(s4, r3, logOut);
    var s6 := GetCurrentSession(s5, r4, query);
    assert s6.sent == s3.sent + [Reply(r2, Success(SessionToMap(Some(d)))),
                                Reply(r3, Success(VNull)), Reply(r4, Success(VNull))];
    assert Run(s3, b) == s6;
  }

  /** A callback with nobody pending has no effect at all. */
  lemma StaleCallbackIgnored(s: State, e: Event)
    requires s.pendingResult.None?
    requires e.AuthSucceeded? || e.AuthFailed?
    ensures Apply(s, e) == s
  {
  }
}
