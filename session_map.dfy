/**
 * `sessionToMap`: the Twitter session as the flat string map sent over the
 * channel, and a decoder (what the Dart side reads) that recovers the session.
 */
module SessionMap {
  import opened Wrappers
  import opened Decimal
  import opened Channel

  datatype AuthToken = AuthToken(token: string, secret: string)

  /** A `TwitterSession`: its auth token, numeric user id and user name. */
  datatype Session = Session(authToken: AuthToken, userId: Long, userName: string)

  /** The key set of a serialized session. */
  const SessionKeys: set<string> := {"secret", "token", "userId", "username"}

  function SessionToMap(session: Option<Session>): (v: Value)
    ensures session.None? <==> v == VNull
    ensures session.Some? ==> v.VMap? && v.entries.Keys == SessionKeys
  {
    match session
    case None => VNull
    case Some(s) =>
      VMap(map[
        "secret" := VString(s.authToken.secret),
        "token" := VString(s.authToken.token),
        "userId" := VString(LongToString(s.userId)),
        "username" := VString(s.userName)])
  }

  /** Reads a serialized session back; null and malformed maps give None. */
  function MapToSession(v: Value): Option<Session> {
    match v
    case VMap(m) =>
      if && "secret" in m && m["secret"].VString?
         && "token" in m && m["token"].VString?
         && "userId" in m && m["userId"].VString?
         && "username" in m && m["username"].VString?
      then
        match ParseLong(m["userId"].str)
        case Some(id) =>
          if -0x8000_0000_0000_0000 <= id < 0x8000_0000_0000_0000 then
            Some(Session(AuthToken(m["token"].str, m["secret"].str), id, m["username"].str))
          else None
        case None => None
      else None
    case _ => None
  }

  /** The entries of a serialized session are the session's own fields. */
  lemma SessionToMapEntries(s: Session)
    ensures SessionToMap(Some(s)).entries["secret"] == VString(s.authToken.secret)
    ensures SessionToMap(Some(s)).entries["token"] == VString(s.authToken.token)
    ensures SessionToMap(Some(s)).entries["userId"] == VString(LongToString(s.userId))
    ensures SessionToMap(Some(s)).entries["username"] == VString(s.userName)
  {
  }

  /** The receiver recovers exactly the session that was sent, or null for null. */
  lemma SessionToMapRoundTrip(session: Option<Session>)
    ensures MapToSession(SessionToMap(session)) == session
  {
    if session.Some? {
      LongToStringRoundTrip(session.value.userId);
    }
  }

  /** Different sessions give different maps. */
  lemma SessionToMapInjective(a: Option<Session>, b: Option<Session>)
    ensures SessionToMap(a) == SessionToMap(b) <==> a == b
  {
    SessionToMapRoundTrip(a);
    SessionToMapRoundTrip(b);
  }
}
