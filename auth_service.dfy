/** lib/services/auth.ts: consuming a login code typed into the bot. The code
    must be pending, unexpired and under the attempt limit; the user is
    created if missing, a session is minted, and the code is marked verified
    with the user and the session token. The session token (32 random bytes
    in hex) is an input. */
module AuthService {
  import opened Wrappers
  import opened Strings
  import opened Types
  import opened Supabase

  /** `{ success, error? }`. */
  datatype VerifyResult = VerifyResult(success: bool, error: Option<string>)

  const InvalidOrExpired := "Invalid or expired code"
  const CodeHasExpired := "Code has expired"
  const TooManyAttempts := "Too many attempts"
  const UserCreationFailed := "Failed to create user"
  const SessionCreationFailed := "Failed to create session"
  const CodeUpdateFailed := "Failed to verify code"
  const MaxCodeAttempts := 3

  function Failure(error: string): VerifyResult {
    VerifyResult(false, Some(error))
  }

  /** The record a typed code refers to: the single pending record with the
      upper-cased code. */
  function PendingRecord(codes: seq<LoginCode>, code: string): Option<LoginCode> {
    PendingWithCode(codes, AsciiUpper(code))
  }

  /** `verifyLoginCode(code, telegramId, firstName)` on tables `t` at time
      `now`, with `token` as the fresh session token. */
  function VerifyLoginCodeOn(t: Tables, code: string, telegramId: int, firstName: string,
                             now: int, token: string, faults: Faults): (r: (VerifyResult, Tables))
    ensures ValidTables(t) ==> ValidTables(r.1)
  {
    var found := PendingRecord(t.loginCodes, code);
    if found.None? then (Failure(InvalidOrExpired), t)
    else if found.value.expiresAt < now then
      (Failure(CodeHasExpired), SetCodeStatusOn(t, found.value.id, Expired, faults.codeWrite))
    else if found.value.attempts >= MaxCodeAttempts then
      (Failure(TooManyAttempts), SetCodeStatusOn(t, found.value.id, Expired, faults.codeWrite))
    else CompleteLoginOn(t, found.value.id, telegramId, firstName, now, token, faults)
  }

  /** The user a login is for: the existing row, or a newly created one. */
  function LoginUserOn(t: Tables, telegramId: int, firstName: string, now: int, fails: bool): (r: (Option<User>, Tables))
    ensures ValidTables(t) ==> ValidTables(r.1)
    ensures r.0.Some? <==> telegramId in t.users || !fails
    ensures r.1.loginCodes == t.loginCodes && r.1.sessions == t.sessions && r.1.nextId == t.nextId
  {
    if telegramId in t.users then (Some(t.users[telegramId]), t)
    else CreateUserOn(t, telegramId, firstName, now, fails)
  }

  /** The steps after the code has been accepted: the user, the session,
      then the update of the code record `id`. The codes are either left as
      they were or only that update is made. */
  function CompleteLoginOn(t: Tables, id: int, telegramId: int, firstName: string,
                           now: int, token: string, faults: Faults): (r: (VerifyResult, Tables))
    ensures ValidTables(t) ==> ValidTables(r.1)
    ensures r.1.loginCodes == t.loginCodes
         || (r.0.success && r.1.loginCodes == MarkCodeVerifiedOn(t, id, telegramId, token, false).loginCodes)
  {
    var (user, t1) := LoginUserOn(t, telegramId, firstName, now, faults.userWrite);
    if user.None? then (Failure(UserCreationFailed), t1)
    else
      var (inserted, t2) := InsertSessionOn(t1, telegramId, token, now + SessionLifetimeMs, now, faults.sessionWrite);
      if !inserted then (Failure(SessionCreationFailed), t2)
      else if faults.codeWrite then (Failure(CodeUpdateFailed), t2)
      else (VerifyResult(true, None), MarkCodeVerifiedOn(t2, id, telegramId, token, false))
  }

  /** The conditions under which a login succeeds. */
  predicate LoginSucceeds(t: Tables, code: string, telegramId: int, now: int, faults: Faults) {
    var found := PendingRecord(t.loginCodes, code);
    && found.Some?
    && !(found.value.expiresAt < now)
    && found.value.attempts < MaxCodeAttempts
    && (telegramId in t.users || !faults.userWrite)
    && !faults.sessionWrite
    && !faults.codeWrite
  }

  /** Success happens exactly under `LoginSucceeds`, and every failure
      carries an error text. */
  lemma SuccessIff(t: Tables, code: string, telegramId: int, firstName: string, now: int, token: string, faults: Faults)
    ensures var (r, _) := VerifyLoginCodeOn(t, code, telegramId, firstName, now, token, faults);
      && (r.success <==> LoginSucceeds(t, code, telegramId, now, faults))
      && (r.success <==> r.error.None?)
  {
  }

  /** An unknown code, or one that is not pending, fails with "Invalid or
      expired code" and changes nothing. */
  lemma NoPendingRecordChangesNothing(t: Tables, code: string, telegramId: int, firstName: string, now: int, token: string, faults: Faults)
    requires PendingRecord(t.loginCodes, code).None?
    ensures VerifyLoginCodeOn(t, code, telegramId, firstName, now, token, faults) == (Failure(InvalidOrExpired), t)
  {
  }

  /** A pending code past its expiry fails with "Code has expired" whatever
      its attempt count (the expiry is checked first): the record is set to
      `expired`, and no user or session is created. */
  lemma ExpiredCodeRefused(t: Tables, code: string, telegramId: int, firstName: string, now: int, token: string, faults: Faults)
    requires var found := PendingRecord(t.loginCodes, code); found.Some? && found.value.expiresAt < now
    ensures var (r, t') := VerifyLoginCodeOn(t, code, telegramId, firstName, now, token, faults);
      && r == Failure(CodeHasExpired)
      && t'.users == t.users && t'.sessions == t.sessions
      && t' == SetCodeStatusOn(t, PendingRecord(t.loginCodes, code).value.id, Expired, faults.codeWrite)
  {
  }

  /** An unexpired pending code with three or more attempts fails with "Too
      many attempts" and is set to `expired`; nothing here increments
      `attempts`, so a code that starts below the limit never reaches it. */
  lemma ExhaustedCodeRefused(t: Tables, code: string, telegramId: int, firstName: string, now: int, token: string, faults: Faults)
    requires var found := PendingRecord(t.loginCodes, code);
      found.Some? && !(found.value.expiresAt < now) && found.value.attempts >= MaxCodeAttempts
    ensures var (r, t') := VerifyLoginCodeOn(t, code, telegramId, firstName, now, token, faults);
      && r == Failure(TooManyAttempts)
      && t'.users == t.users && t'.sessions == t.sessions
      && t' == SetCodeStatusOn(t, PendingRecord(t.loginCodes, code).value.id, Expired, faults.codeWrite)
  {
  }

  /** No call changes the `attempts` of any record. */
  lemma AttemptsNeverChange(t: Tables, code: string, telegramId: int, firstName: string, now: int, token: string, faults: Faults)
    ensures var (_, t') := VerifyLoginCodeOn(t, code, telegramId, firstName, now, token, faults);
      && |t'.loginCodes| == |t.loginCodes|
      && forall i | 0 <= i < |t.loginCodes| :: t'.loginCodes[i].attempts == t.loginCodes[i].attempts
  {
    var found := PendingRecord(t.loginCodes, code);
    if found.Some? {
      CodeUpdatesKeepAttempts(t, found.value.id, telegramId, token, faults.codeWrite);
      CodeUpdatesKeepAttempts(t, found.value.id, telegramId, token, false);
    }
  }

  /** Neither code update touches `attempts`. */
  lemma CodeUpdatesKeepAttempts(t: Tables, id: int, telegramId: int, token: string, fails: bool)
    ensures var t' := SetCodeStatusOn(t, id, Expired, fails);
      forall i | 0 <= i < |t.loginCodes| :: t'.loginCodes[i].attempts == t.loginCodes[i].attempts
    ensures var t' := MarkCodeVerifiedOn(t, id, telegramId, token, fails);
      forall i | 0 <= i < |t.loginCodes| :: t'.loginCodes[i].attempts == t.loginCodes[i].attempts
  {
  }

  /** On success exactly one session is added, for this user, with the
      given token and an expiry seven days from now; the user exists
      (created at step `weight` if they were unknown); and the code's record
      becomes `verified` with the user and the token. */
  lemma SuccessfulLogin(t: Tables, code: string, telegramId: int, firstName: string, now: int, token: string, faults: Faults)
    requires LoginSucceeds(t, code, telegramId, now, faults)
    ensures var (r, t') := VerifyLoginCodeOn(t, code, telegramId, firstName, now, token, faults);
      var id := PendingRecord(t.loginCodes, code).value.id;
      && r == VerifyResult(true, None)
      && t'.sessions == t.sessions + [Session(t.nextId, telegramId, token, now + 7 * 24 * 60 * 60 * 1000, now)]
      && telegramId in t'.users
      && (telegramId in t.users ==> t'.users == t.users)
      && (telegramId !in t.users ==> t'.users == t.users[telegramId := NewUser(telegramId, firstName, now)])
      && |t'.loginCodes| == |t.loginCodes|
      && forall i | 0 <= i < |t.loginCodes| ::
           t'.loginCodes[i] == if t.loginCodes[i].id == id
             then t.loginCodes[i].(status := Verified, telegramId := Some(telegramId), sessionToken := Some(token))
             else t.loginCodes[i]
  {
  }

  /** A refused user insert fails before any session exists; a refused
      session insert leaves the code pending; a refused code update leaves
      the inserted session in place. */
  lemma PartialFailures(t: Tables, code: string, telegramId: int, firstName: string, now: int, token: string, faults: Faults)
    requires var found := PendingRecord(t.loginCodes, code);
      found.Some? && !(found.value.expiresAt < now) && found.value.attempts < MaxCodeAttempts
    ensures var (r, t') := VerifyLoginCodeOn(t, code, telegramId, firstName, now, token, faults);
      && (telegramId !in t.users && faults.userWrite ==>
            r == Failure(UserCreationFailed) && t' == t)
      && ((telegramId in t.users || !faults.userWrite) && faults.sessionWrite ==>
            r == Failure(SessionCreationFailed) && t'.sessions == t.sessions && t'.loginCodes == t.loginCodes)
      && ((telegramId in t.users || !faults.userWrite) && !faults.sessionWrite && faults.codeWrite ==>
            && r == Failure(CodeUpdateFailed)
            && t'.sessions == t.sessions + [Session(t.nextId, telegramId, token, now + SessionLifetimeMs, now)]
            && t'.loginCodes == t.loginCodes)
  {
  }

  /** A code is consumed at most once: after a successful login the record
      it found is no longer pending, so a later lookup of the same text can
      only find a different record. */
  lemma ConsumedAtMostOnce(t: Tables, code: string, telegramId: int, firstName: string, now: int, token: string, faults: Faults)
    requires LoginSucceeds(t, code, telegramId, now, faults)
    ensures var (_, t') := VerifyLoginCodeOn(t, code, telegramId, firstName, now, token, faults);
      var again := PendingRecord(t'.loginCodes, code);
      again.None? || again.value.id != PendingRecord(t.loginCodes, code).value.id
  {
    var (_, t') := VerifyLoginCodeOn(t, code, telegramId, firstName, now, token, faults);
    var id := PendingRecord(t.loginCodes, code).value.id;
    SuccessfulLogin(t, code, telegramId, firstName, now, token, faults);
    var again := PendingRecord(t'.loginCodes, code);
    if again.Some? {
      var rows := Filter(t'.loginCodes, PendingCodeIs(AsciiUpper(code)));
      assert again.value in rows;
      var i :| 0 <= i < |t'.loginCodes| && t'.loginCodes[i] == again.value;
      assert again.value.status == Pending;
    }
  }

  /** `verifyLoginCode` on the database object. */
  method VerifyLoginCode(db: Store, code: string, telegramId: int, firstName: string,
                         now: int, token: string, faults: Faults) returns (r: VerifyResult)
    requires db.Valid()
    modifies db
    ensures db.Valid()
    ensures (r, db.Snapshot()) == VerifyLoginCodeOn(old(db.Snapshot()), code, telegramId, firstName, now, token, faults)
  {
    var found := PendingWithCode(db.loginCodes, AsciiUpper(code));
    if found.None? {
      return Failure(InvalidOrExpired);
    }
    var loginCode := found.value;
    if loginCode.expiresAt < now {
      db.SetCodeStatus(loginCode.id, Expired, faults.codeWrite);
      return Failure(CodeHasExpired);
    }
    if loginCode.attempts >= MaxCodeAttempts {
      db.SetCodeStatus(loginCode.id, Expired, faults.codeWrite);
      return Failure(TooManyAttempts);
    }
    r := CompleteLogin(db, loginCode.id, telegramId, firstName, now, token, faults);
  }

  /** The steps of `verifyLoginCode` after the code has been accepted. */
  method CompleteLogin(db: Store, id: int, telegramId: int, firstName: string,
                       now: int, token: string, faults: Faults) returns (r: VerifyResult)
    requires db.Valid()
    modifies db
    ensures db.Valid()
    ensures (r, db.Snapshot()) == CompleteLoginOn(old(db.Snapshot()), id, telegramId, firstName, now, token, faults)
  {
    var user := if telegramId in db.users then Some(db.users[telegramId]) else None;
    if user.None? {
      user := db.CreateUser(telegramId, firstName, now, faults.userWrite);
    }
    if user.None? {
      return Failure(UserCreationFailed);
    }
    var inserted := db.InsertSession(telegramId, token, now + SessionLifetimeMs, now, faults.sessionWrite);
    if !inserted {
      return Failure(SessionCreationFailed);
    }
    if faults.codeWrite {
      return Failure(CodeUpdateFailed);
    }
    db.MarkCodeVerified(id, telegramId, token, false);
    r := VerifyResult(true, None);
  }
}

/** lib/handlers/login.ts: a login code sent to the bot. */
module LoginHandler {
  import opened Wrappers
  import opened Types
  import opened Messages
  import opened Supabase
  import opened AuthService

  /** The reply to a verification result; a failure without an error text
      reads "Invalid code". */
  function LoginReply(result: VerifyResult): (r: Reply)
    ensures result.success <==> r == Reply(LoginSuccess, MenuButtons)
    ensures !result.success && result.error.Some? && result.error.value != "" ==> r == Reply(InvalidCode(result.error.value), NoMarkup)
    ensures !result.success && (result.error.None? || result.error.value == "") ==> r == Reply(InvalidCode("Invalid code"), NoMarkup)
  {
    if result.success then Reply(LoginSuccess, MenuButtons)
    else Reply(InvalidCode(if result.error.Some? && result.error.value != "" then result.error.value else "Invalid code"), NoMarkup)
  }

  /** `handleLoginCode` on tables `t`: nothing at all without a sender id,
      otherwise one reply to the verification. */
  function HandleLoginCodeOn(t: Tables, from: Option<Sender>, code: string, now: int, token: string, faults: Faults): (r: (seq<Reply>, Tables))
    ensures ValidTables(t) ==> ValidTables(r.1)
  {
    match SenderId(from)
    case None => ([], t)
    case Some(telegramId) =>
      var (result, t') := VerifyLoginCodeOn(t, code, telegramId, FirstNameOf(from), now, token, faults);
      ([LoginReply(result)], t')
  }

  /** Without a sender id nothing is verified or replied; with one, exactly
      one reply is sent, the success reply exactly when the login succeeds,
      and an unknown user is created under the sender's first name, "there"
      when it is absent. */
  lemma LoginHandlerReplies(t: Tables, from: Option<Sender>, code: string, now: int, token: string, faults: Faults)
    ensures var (replies, t') := HandleLoginCodeOn(t, from, code, now, token, faults);
      && (SenderId(from).None? ==> replies == [] && t' == t)
      && (SenderId(from).Some? ==>
            && |replies| == 1
            && (replies[0] == Reply(LoginSuccess, MenuButtons) <==> LoginSucceeds(t, code, from.value.id, now, faults))
            && (LoginSucceeds(t, code, from.value.id, now, faults) && from.value.id !in t.users ==>
                  t'.users[from.value.id].firstName == (if from.value.firstName.Some? then from.value.firstName.value else "there")))
  {
    if SenderId(from).Some? {
      SuccessIff(t, code, from.value.id, FirstNameOf(from), now, token, faults);
      if LoginSucceeds(t, code, from.value.id, now, faults) {
        SuccessfulLogin(t, code, from.value.id, FirstNameOf(from), now, token, faults);
      }
    }
  }

  method HandleLoginCode(db: Store, from: Option<Sender>, code: string, now: int, token: string, faults: Faults)
    returns (replies: seq<Reply>)
    requires db.Valid()
    modifies db
    ensures db.Valid()
    ensures (replies, db.Snapshot()) == HandleLoginCodeOn(old(db.Snapshot()), from, code, now, token, faults)
  {
    var telegramId := SenderId(from);
    if telegramId.None? {
      return [];
    }
    var result := VerifyLoginCode(db, code, telegramId.value, FirstNameOf(from), now, token, faults);
    replies := [LoginReply(result)];
  }
}
