/** lib/api/auth.ts: the bearer-token check the web API routes share. The
    `Authorization` header must start with exactly "Bearer " (the scheme is
    matched case-sensitively, unlike section 2.1 of RFC 6750); the rest is
    the session token, which must name exactly one session that expires
    strictly after now. The clock is an input. */
module ApiAuth {
  import opened Wrappers
  import opened Strings
  import opened Types
  import opened Supabase

  const BearerPrefix := "Bearer "
  const MissingHeader := "Missing or invalid authorization header"
  const InvalidSession := "Invalid or expired session"

  /** A JSON error response: its HTTP status and its `error` text. */
  datatype ApiError = ApiError(status: int, error: string)

  /** The token of an `Authorization` header: everything after the first
      seven characters, when the header starts with "Bearer ". */
  function BearerToken(header: Option<string>): (r: Option<string>)
    ensures r.Some? <==> header.Some? && StartsWith(header.value, BearerPrefix)
    ensures r.Some? ==> header.value == BearerPrefix + r.value
  {
    if header.Some? && StartsWith(header.value, BearerPrefix) then
      assert header.value == header.value[..7] + header.value[7..];
      Some(header.value[7..])
    else None
  }

  /** Any token sent as "Bearer <token>" is recovered unchanged. */
  lemma BearerRoundTrip(token: string)
    ensures BearerToken(Some(BearerPrefix + token)) == Some(token)
  {
    assert (BearerPrefix + token)[..7] == BearerPrefix;
    assert (BearerPrefix + token)[7..] == token;
  }

  /** The scheme is matched case-sensitively: "bearer " is refused. */
  lemma LowerCaseSchemeRefused(token: string)
    ensures BearerToken(Some("bearer " + token)).None?
  {
    assert ("bearer " + token)[0] == 'b';
  }

  /** `validateSession`: the session's telegram id, or an error response.
      The result carries exactly one of the two. */
  datatype AuthResult = Authed(telegramId: int) | AuthFailed(err: ApiError)

  function ValidateSessionOn(sessions: seq<Session>, header: Option<string>, now: int): (r: AuthResult)
    ensures r.Authed? <==> BearerToken(header).Some? && SessionByToken(sessions, BearerToken(header).value, now).Some?
    ensures r.Authed? ==> r.telegramId == SessionByToken(sessions, BearerToken(header).value, now).value.telegramId
    ensures BearerToken(header).None? ==> r == AuthFailed(ApiError(401, MissingHeader))
    ensures BearerToken(header).Some? && r.AuthFailed? ==> r == AuthFailed(ApiError(401, InvalidSession))
  {
    match BearerToken(header)
    case None => AuthFailed(ApiError(401, MissingHeader))
    case Some(token) =>
      match SessionByToken(sessions, token, now)
      case None => AuthFailed(ApiError(401, InvalidSession))
      case Some(session) => Authed(session.telegramId)
  }

  /** A request is authenticated as the user of a session only when that
      session carries the header's token and expires strictly after now. */
  lemma AuthedByLiveSession(sessions: seq<Session>, header: Option<string>, now: int)
    ensures var r := ValidateSessionOn(sessions, header, now);
      r.Authed? ==>
        exists s :: s in sessions && header == Some(BearerPrefix + s.token) && s.expiresAt > now && s.telegramId == r.telegramId
  {
    var r := ValidateSessionOn(sessions, header, now);
    if r.Authed? {
      var s := SessionByToken(sessions, BearerToken(header).value, now).value;
      assert s in sessions && header == Some(BearerPrefix + s.token);
    }
  }

  /** When no session with the token outlives `now`, the request is refused
      with 401 "Invalid or expired session". */
  lemma NoLiveSessionRefused(sessions: seq<Session>, token: string, now: int)
    requires forall s | s in sessions && s.token == token :: s.expiresAt <= now
    ensures ValidateSessionOn(sessions, Some(BearerPrefix + token), now) == AuthFailed(ApiError(401, InvalidSession))
  {
    BearerRoundTrip(token);
    NoMatchNoSession(sessions, token, now);
  }

  /** With no live session for a token, the lookup finds nothing. */
  lemma NoMatchNoSession(sessions: seq<Session>, token: string, now: int)
    requires forall s | s in sessions && s.token == token :: s.expiresAt <= now
    ensures SessionByToken(sessions, token, now).None?
  {
    var live := Filter(sessions, LiveToken(token, now));
    if |live| > 0 {
      assert live[0] in live;
    }
  }
}

/** app/api/auth/me/route.ts: the signed-in user and the expiry of the
    session, read-only. */
module MeRoute {
  import opened Wrappers
  import opened Types
  import opened Supabase
  import opened ApiAuth

  const UserNotFound := "User not found"

  /** The JSON body: the six user fields and the session's `expires_at`, or
      an error response. */
  datatype MeResponse = MeOk(user: UserView, sessionExpiresAt: int) | MeError(err: ApiError)

  /** `GET` on tables `t` at time `now`. */
  function MeOn(t: Tables, header: Option<string>, now: int): (r: MeResponse)
    ensures BearerToken(header).None? ==> r == MeError(ApiError(401, MissingHeader))
  {
    match BearerToken(header)
    case None => MeError(ApiError(401, MissingHeader))
    case Some(token) =>
      match SessionByToken(t.sessions, token, now)
      case None => MeError(ApiError(401, InvalidSession))
      case Some(session) =>
        if session.telegramId !in t.users then MeError(ApiError(404, UserNotFound))
        else MeOk(ViewOf(t.users[session.telegramId]), session.expiresAt)
  }

  /** The route refuses with 401 exactly when the shared session check
      does; past that, it answers 404 exactly when the session's user has no
      row, and otherwise the six fields of that user's row and the expiry of
      that session. */
  lemma MeFollowsValidateSession(t: Tables, header: Option<string>, now: int)
    ensures var r := MeOn(t, header, now);
      var auth := ValidateSessionOn(t.sessions, header, now);
      && ((r.MeError? && r.err.status == 401) <==> auth.AuthFailed?)
      && (r.MeError? && r.err.status == 401 ==> r.err == auth.err)
      && (auth.Authed? ==>
            var session := SessionByToken(t.sessions, BearerToken(header).value, now).value;
            && (r == MeError(ApiError(404, UserNotFound)) <==> auth.telegramId !in t.users)
            && (r.MeOk? ==>
                  && r.user == ViewOf(t.users[auth.telegramId])
                  && (ValidTables(t) ==> r.user.telegramId == auth.telegramId)
                  && r.sessionExpiresAt == session.expiresAt
                  && r.sessionExpiresAt > now))
  {
  }

  /** The response never comes from a row other than the session's user:
      the user view is determined by the session alone. */
  lemma MeIgnoresOtherUsers(t: Tables, header: Option<string>, now: int, other: int, u: User)
    requires ValidateSessionOn(t.sessions, header, now).Authed?
    requires other != ValidateSessionOn(t.sessions, header, now).telegramId
    ensures MeOn(t.(users := t.users[other := u]), header, now) == MeOn(t, header, now)
  {
  }
}

/** app/api/auth/logout/route.ts: deleting every session with the
    header's token. */
module LogoutRoute {
  import opened Wrappers
  import opened Types
  import opened Supabase
  import opened ApiAuth

  const LogoutFailed := "Failed to logout"

  /** `{ success: true }`, or an error response. */
  datatype LogoutResponse = LoggedOut | LogoutError(err: ApiError)

  /** `POST` on tables `t`; `fails` says whether the delete is refused. */
  function LogoutOn(t: Tables, header: Option<string>, fails: bool): (r: (LogoutResponse, Tables))
    ensures ValidTables(t) ==> ValidTables(r.1)
  {
    match BearerToken(header)
    case None => (LogoutError(ApiError(401, MissingHeader)), t)
    case Some(token) =>
      var (ok, t') := DeleteSessionOn(t, token, fails);
      if !ok then (LogoutError(ApiError(500, LogoutFailed)), t) else (LoggedOut, t')
  }

  /** Without a "Bearer " header, or when the delete is refused, nothing is
      deleted; otherwise the answer is success whether or not a session
      matched, every session with the token is gone and every other session
      and table is untouched. */
  lemma LogoutOutcomes(t: Tables, header: Option<string>, fails: bool)
    ensures var (r, t') := LogoutOn(t, header, fails);
      && (BearerToken(header).None? ==> r == LogoutError(ApiError(401, MissingHeader)) && t' == t)
      && (BearerToken(header).Some? && fails ==> r == LogoutError(ApiError(500, LogoutFailed)) && t' == t)
      && (BearerToken(header).Some? && !fails ==>
            && r == LoggedOut
            && t' == t.(sessions := t'.sessions)
            && forall s :: s in t'.sessions <==> s in t.sessions && s.token != BearerToken(header).value)
  {
  }

  /** After a successful logout the same header no longer authenticates, at
      any time. */
  lemma LoggedOutHeaderRefused(t: Tables, header: Option<string>, now: int)
    requires BearerToken(header).Some?
    ensures var (r, t') := LogoutOn(t, header, false);
      r == LoggedOut && ValidateSessionOn(t'.sessions, header, now) == AuthFailed(ApiError(401, InvalidSession))
  {
    var token := BearerToken(header).value;
    var t' := LogoutOn(t, header, false).1;
    NoMatchNoSession(t'.sessions, token, now);
  }

  /** Logging out twice is the same as logging out once, and the second
      call still reports success. */
  lemma LogoutIdempotent(t: Tables, header: Option<string>)
    requires BearerToken(header).Some?
    ensures var t1 := LogoutOn(t, header, false).1;
      LogoutOn(t1, header, false) == (LoggedOut, t1)
  {
    DeleteSessionIdempotent(t, BearerToken(header).value);
  }

  method Logout(db: Store, header: Option<string>, fails: bool) returns (r: LogoutResponse)
    requires db.Valid()
    modifies db
    ensures db.Valid()
    ensures (r, db.Snapshot()) == LogoutOn(old(db.Snapshot()), header, fails)
  {
    var token := BearerToken(header);
    if token.None? {
      return LogoutError(ApiError(401, MissingHeader));
    }
    var ok := db.DeleteSession(token.value, fails);
    if !ok {
      return LogoutError(ApiError(500, LogoutFailed));
    }
    r := LoggedOut;
  }
}
