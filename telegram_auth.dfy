/** app/api/auth/telegram/route.ts: signing in with the Telegram Login
    Widget. The widget's fields other than `hash` are sorted by key into the
    data-check-string ("Checking authorization" in Telegram's Login Widget
    documentation), whose HMAC-SHA-256 under the SHA-256 of the bot token
    must equal `hash`. The digest is an input function; the bot token, the
    clock and the fresh session token are inputs too. */
module TelegramAuthRoute {
  import opened Wrappers
  import opened Strings
  import opened Types
  import opened Supabase
  import opened ApiAuth

  /** The widget's payload (`TelegramAuthData`); absent optional fields are
      `None`. */
  datatype AuthData = AuthData(
    id: int,
    firstName: string,
    lastName: Option<string>,
    username: Option<string>,
    photoUrl: Option<string>,
    authDate: int,
    hash: string)

  function KeyIf(key: string, value: Option<string>): seq<string> {
    if value.Some? then [key] else []
  }

  /** `Object.keys` of the payload without `hash`, in the widget's order: an
      optional field the widget leaves out has no key. */
  function Keys(d: AuthData): seq<string> {
    ["id", "first_name"] + KeyIf("last_name", d.lastName) + KeyIf("username", d.username)
      + KeyIf("photo_url", d.photoUrl) + ["auth_date"]
  }

  /** The value a key holds as `${...}` prints it; `None` when undefined. */
  function ValueOf(d: AuthData, key: string): Option<string> {
    if key == "id" then Some(IntToString(d.id))
    else if key == "first_name" then Some(d.firstName)
    else if key == "last_name" then d.lastName
    else if key == "username" then d.username
    else if key == "photo_url" then d.photoUrl
    else if key == "auth_date" then Some(IntToString(d.authDate))
    else None
  }

  // -------------------------------------------------------------------
  // Sorting the keys: `Array.prototype.sort` on strings
  // -------------------------------------------------------------------

  /** No key is after a later one. */
  predicate Ordered(s: seq<string>) {
    forall i, j | 0 <= i < j < |s| :: !StrLess(s[j], s[i])
  }

  /** Inserts `x` before the first key not before it. */
  function Insert(x: string, s: seq<string>): (r: seq<string>)
    ensures multiset(r) == multiset(s) + multiset{x}
  {
    if s == [] then [x]
    else if StrLess(s[0], x) then
      assert s == [s[0]] + s[1..];
      [s[0]] + Insert(x, s[1..])
    else [x] + s
  }

  /** The keys in sorted order. */
  function SortKeys(keys: seq<string>): (r: seq<string>)
    ensures multiset(r) == multiset(keys)
  {
    if keys == [] then []
    else
      assert keys == [keys[0]] + keys[1..];
      Insert(keys[0], SortKeys(keys[1..]))
  }

  lemma {:induction false} InsertOrdered(x: string, s: seq<string>)
    requires Ordered(s)
    ensures Ordered(Insert(x, s))
  {
    if s != [] {
      var r := Insert(x, s);
      if StrLess(s[0], x) {
        InsertOrdered(x, s[1..]);
        var tail := Insert(x, s[1..]);
        assert r == [s[0]] + tail;
        forall j | 0 < j < |r|
          ensures !StrLess(r[j], s[0])
        {
          assert r[j] == tail[j - 1];
          assert r[j] in multiset(s[1..]) + multiset{x};
          if r[j] == x {
            StrLessAsymmetric(s[0], x);
          } else {
            assert r[j] in s[1..];
          }
        }
      } else {
        forall j | 0 < j < |s|
          ensures !StrLess(s[j], x)
        {
          NotLessTransitive(x, s[0], s[j]);
        }
      }
    }
  }

  /** The sorted keys are in order. */
  lemma {:induction false} SortKeysOrdered(keys: seq<string>)
    ensures Ordered(SortKeys(keys))
  {
    if keys != [] {
      SortKeysOrdered(keys[1..]);
      InsertOrdered(keys[0], SortKeys(keys[1..]));
    }
  }

  /** The first of ordered keys is not after any of them. */
  lemma HeadIsLeast(a: seq<string>, x: string)
    requires Ordered(a) && x in a
    ensures !StrLess(x, a[0])
  {
    var i :| 0 <= i < |a| && a[i] == x;
    if i == 0 {
      StrLessIrreflexive(x);
    }
  }

  lemma OrderedTail(a: seq<string>)
    requires Ordered(a) && a != []
    ensures Ordered(a[1..])
  {
    forall i, j | 0 <= i < j < |a| - 1
      ensures !StrLess(a[1..][j], a[1..][i])
    {
      assert a[1..][j] == a[j + 1] && a[1..][i] == a[i + 1];
    }
  }

  /** Two ordered arrangements of the same keys are the same sequence. */
  lemma {:induction false} OrderedUnique(a: seq<string>, b: seq<string>)
    requires Ordered(a) && Ordered(b) && multiset(a) == multiset(b)
    ensures a == b
  {
    if a != [] {
      assert a[0] in multiset(b);
      assert b != [];
      assert b[0] in multiset(a);
      HeadIsLeast(b, a[0]);
      HeadIsLeast(a, b[0]);
      if a[0] != b[0] {
        StrLessTotal(a[0], b[0]);
      }
      assert a == [a[0]] + a[1..] && b == [b[0]] + b[1..];
      assert multiset(a[1..]) == multiset(a) - multiset{a[0]};
      assert multiset(b[1..]) == multiset(b) - multiset{b[0]};
      OrderedTail(a);
      OrderedTail(b);
      OrderedUnique(a[1..], b[1..]);
    }
  }

  /** The sorted order of the keys does not depend on the order the
      payload's keys arrive in. */
  lemma KeyOrderIrrelevant(p: seq<string>, q: seq<string>)
    requires multiset(p) == multiset(q)
    ensures SortKeys(p) == SortKeys(q)
  {
    SortKeysOrdered(p);
    SortKeysOrdered(q);
    OrderedUnique(SortKeys(p), SortKeys(q));
  }

  // -------------------------------------------------------------------
  // The data-check-string
  // -------------------------------------------------------------------

  /** `key=value` for each defined key, in the given order. */
  function Lines(d: AuthData, keys: seq<string>): (r: seq<string>)
    ensures |r| <= |keys|
  {
    if keys == [] then []
    else
      var rest := Lines(d, keys[1..]);
      match ValueOf(d, keys[0])
      case None => rest
      case Some(v) => [keys[0] + "=" + v] + rest
  }

  /** The data-check-string: the keys sorted, undefined ones dropped, each
      printed as `key=value`, joined with line feeds. */
  function CheckString(d: AuthData): (r: string)
    ensures r == Join(Lines(d, SortedKeys(d)), "\n")
  {
    SortedKeysAreSorted(d);
    Join(Lines(d, SortKeys(Keys(d))), "\n")
  }

  /** The keys in the order Telegram prescribes. */
  function SortedKeys(d: AuthData): seq<string> {
    ["auth_date", "first_name", "id"] + KeyIf("last_name", d.lastName) + KeyIf("photo_url", d.photoUrl)
      + KeyIf("username", d.username)
  }

  /** Keys whose first characters increase are in order. */
  lemma OrderedByFirstChar(s: seq<string>)
    requires forall i | 0 <= i < |s| :: s[i] != []
    requires forall i, j | 0 <= i < j < |s| :: s[i][0] < s[j][0]
    ensures Ordered(s)
  {
  }

  /** Sorting the payload's keys gives the prescribed order. */
  lemma SortedKeysAreSorted(d: AuthData)
    ensures SortKeys(Keys(d)) == SortedKeys(d)
  {
    var k := SortedKeys(d);
    KeysArePermuted(d);
    FirstCharsIncrease(d);
    OrderedByFirstChar(k);
    SortKeysOrdered(Keys(d));
    OrderedUnique(SortKeys(Keys(d)), k);
  }

  lemma KeysArePermuted(d: AuthData)
    ensures multiset(SortedKeys(d)) == multiset(Keys(d))
  {
    var last := KeyIf("last_name", d.lastName);
    var photo := KeyIf("photo_url", d.photoUrl);
    var user := KeyIf("username", d.username);
    calc {
      multiset(SortedKeys(d));
      multiset(["auth_date", "first_name", "id"]) + multiset(last) + multiset(photo) + multiset(user);
      multiset(["id", "first_name"]) + multiset(last) + multiset(user) + multiset(photo) + multiset(["auth_date"]);
      multiset(Keys(d));
    }
  }

  lemma FirstCharsIncrease(d: AuthData)
    ensures var k := SortedKeys(d);
      && (forall i | 0 <= i < |k| :: k[i] != [])
      && (forall i, j | 0 <= i < j < |k| :: k[i][0] < k[j][0])
  {
    var k := SortedKeys(d);
    if d.lastName.Some? {
      if d.photoUrl.Some? {
        if d.username.Some? { assert k == ["auth_date", "first_name", "id", "last_name", "photo_url", "username"]; }
        else { assert k == ["auth_date", "first_name", "id", "last_name", "photo_url"]; }
      } else {
        if d.username.Some? { assert k == ["auth_date", "first_name", "id", "last_name", "username"]; }
        else { assert k == ["auth_date", "first_name", "id", "last_name"]; }
      }
    } else {
      if d.photoUrl.Some? {
        if d.username.Some? { assert k == ["auth_date", "first_name", "id", "photo_url", "username"]; }
        else { assert k == ["auth_date", "first_name", "id", "photo_url"]; }
      } else {
        if d.username.Some? { assert k == ["auth_date", "first_name", "id", "username"]; }
        else { assert k == ["auth_date", "first_name", "id"]; }
      }
    }
  }

  lemma {:induction false} LinesAppend(d: AuthData, a: seq<string>, b: seq<string>)
    ensures Lines(d, a + b) == Lines(d, a) + Lines(d, b)
  {
    if a != [] {
      assert (a + b)[0] == a[0];
      assert (a + b)[1..] == a[1..] + b;
      LinesAppend(d, a[1..], b);
      match ValueOf(d, a[0])
      case None =>
        assert Lines(d, a + b) == Lines(d, a[1..] + b);
        assert Lines(d, a) == Lines(d, a[1..]);
      case Some(v) =>
        assert Lines(d, a + b) == [a[0] + "=" + v] + Lines(d, a[1..] + b);
        assert Lines(d, a) == [a[0] + "=" + v] + Lines(d, a[1..]);
        assert Lines(d, a) + Lines(d, b) == [a[0] + "=" + v] + (Lines(d, a[1..]) + Lines(d, b));
    } else {
      assert a + b == b;
    }
  }

  function OptionalLine(key: string, value: Option<string>): seq<string> {
    if value.Some? then [key + "=" + value.value] else []
  }

  /** The check string lists `auth_date`, `first_name` and `id`, then
      whichever of `last_name`, `photo_url` and `username` are defined, in
      that alphabetical order; `hash` is never part of it. */
  lemma CheckStringLayout(d: AuthData)
    ensures CheckString(d) ==
      Join(["auth_date=" + IntToString(d.authDate), "first_name=" + d.firstName, "id=" + IntToString(d.id)]
           + OptionalLine("last_name", d.lastName)
           + OptionalLine("photo_url", d.photoUrl)
           + OptionalLine("username", d.username), "\n")
  {
    SortedKeysAreSorted(d);
    var fixed: seq<string> := ["auth_date", "first_name", "id"];
    var last := KeyIf("last_name", d.lastName);
    var photo := KeyIf("photo_url", d.photoUrl);
    var user := KeyIf("username", d.username);
    LinesAppend(d, fixed + last + photo, user);
    LinesAppend(d, fixed + last, photo);
    LinesAppend(d, fixed, last);
    assert SortedKeys(d) == fixed + last + photo + user;
    FixedLines(d);
    OptionalLines(d, "last_name", d.lastName);
    OptionalLines(d, "photo_url", d.photoUrl);
    OptionalLines(d, "username", d.username);
  }

  lemma FixedLines(d: AuthData)
    ensures Lines(d, ["auth_date", "first_name", "id"]) ==
      ["auth_date=" + IntToString(d.authDate), "first_name=" + d.firstName, "id=" + IntToString(d.id)]
  {
    var fixed: seq<string> := ["auth_date", "first_name", "id"];
    assert "auth_date" + "=" == "auth_date=" && "first_name" + "=" == "first_name=" && "id" + "=" == "id=";
    assert fixed[2..] == ["id"] && ["id"][1..] == [];
    assert Lines(d, ["id"]) == ["id=" + IntToString(d.id)] + Lines(d, []);
    assert fixed[1..][1..] == fixed[2..];
    assert Lines(d, fixed[1..]) == ["first_name=" + d.firstName] + Lines(d, fixed[2..]);
  }

  lemma OptionalLines(d: AuthData, key: string, value: Option<string>)
    requires ValueOf(d, key) == value
    ensures Lines(d, KeyIf(key, value)) == OptionalLine(key, value)
  {
    if value.Some? {
      assert [key][1..] == [];
    }
  }

  /** Replacing `hash` leaves the check string as it was. */
  lemma CheckStringIgnoresHash(d: AuthData, h: string)
    ensures CheckString(d.(hash := h)) == CheckString(d)
  {
    CheckStringLayout(d);
    CheckStringLayout(d.(hash := h));
  }

  /** `verifyTelegramAuth`: `sign(botToken, text)` stands for the hex
      HMAC-SHA-256 of `text` keyed with the SHA-256 of `botToken`. */
  predicate VerifyAuth(d: AuthData, botToken: string, sign: (string, string) -> string)
    ensures VerifyAuth(d, botToken, sign) <==>
      sign(botToken, Join(["auth_date=" + IntToString(d.authDate), "first_name=" + d.firstName, "id=" + IntToString(d.id)]
                          + OptionalLine("last_name", d.lastName)
                          + OptionalLine("photo_url", d.photoUrl)
                          + OptionalLine("username", d.username), "\n")) == d.hash
  {
    CheckStringLayout(d);
    sign(botToken, CheckString(d)) == d.hash
  }

  // -------------------------------------------------------------------
  // POST
  // -------------------------------------------------------------------

  const ConfigurationError := "Server configuration error"
  const InvalidAuthData := "Invalid authentication data"
  const AuthExpired := "Authentication expired"
  const UserCreationFailed := "Failed to create user"
  const SessionCreationFailed := "Failed to create session"
  /** The longest accepted age of `auth_date`, in seconds. */
  const MaxAuthAgeSeconds := 86400

  /** The user part of the response. */
  datatype WebUser = WebUser(telegramId: int, firstName: string, username: Option<string>, photoUrl: Option<string>, step: Step)

  datatype TelegramResponse =
    | SignedIn(user: WebUser, token: string, expiresAt: int)
    | SignInError(err: ApiError)

  /** `Date.now() / 1000 - auth_date > 86400`, in exact arithmetic: the
      millisecond test `now > (auth_date + 86400) * 1000`. */
  predicate AuthTooOld(now: int, authDate: int)
    ensures AuthTooOld(now, authDate) <==> now > (authDate + MaxAuthAgeSeconds) * 1000
  {
    (now as real) / 1000.0 - (authDate as real) > MaxAuthAgeSeconds as real
  }

  /** `POST` on tables `t` at time `now`, with `token` as the fresh session
      token. */
  function TelegramSignInOn(t: Tables, d: AuthData, botToken: Option<string>, sign: (string, string) -> string,
                            now: int, token: string, faults: Faults): (r: (TelegramResponse, Tables))
    ensures ValidTables(t) ==> ValidTables(r.1)
  {
    if botToken.None? || botToken.value == "" then (SignInError(ApiError(500, ConfigurationError)), t)
    else if !VerifyAuth(d, botToken.value, sign) then (SignInError(ApiError(401, InvalidAuthData)), t)
    else if AuthTooOld(now, d.authDate) then (SignInError(ApiError(401, AuthExpired)), t)
    else
      var (user, t1) :=
        if d.id in t.users then (Some(t.users[d.id]), t)
        else CreateUserOn(t, d.id, d.firstName, now, faults.userWrite);
      if user.None? then (SignInError(ApiError(500, UserCreationFailed)), t1)
      else
        var (inserted, t2) := InsertSessionOn(t1, d.id, token, now + SessionLifetimeMs, now, faults.sessionWrite);
        if !inserted then (SignInError(ApiError(500, SessionCreationFailed)), t2)
        else
          var u := user.value;
          (SignedIn(WebUser(u.telegramId, u.firstName, d.username, d.photoUrl, u.step), token, now + SessionLifetimeMs), t2)
  }

  /** The checks run in order: a missing bot token, then the signature,
      then the age; each refusal changes nothing. */
  lemma RefusalsInOrder(t: Tables, d: AuthData, botToken: Option<string>, sign: (string, string) -> string,
                        now: int, token: string, faults: Faults)
    ensures var (r, t') := TelegramSignInOn(t, d, botToken, sign, now, token, faults);
      && (botToken.None? || botToken.value == "" ==> r == SignInError(ApiError(500, ConfigurationError)) && t' == t)
      && (botToken.Some? && botToken.value != "" && !VerifyAuth(d, botToken.value, sign) ==>
            r == SignInError(ApiError(401, InvalidAuthData)) && t' == t)
      && (botToken.Some? && botToken.value != "" && VerifyAuth(d, botToken.value, sign) && AuthTooOld(now, d.authDate) ==>
            r == SignInError(ApiError(401, AuthExpired)) && t' == t)
  {
  }

  /** The conditions under which a sign-in succeeds. */
  predicate SignInSucceeds(t: Tables, d: AuthData, botToken: Option<string>, sign: (string, string) -> string,
                           now: int, faults: Faults) {
    && botToken.Some? && botToken.value != ""
    && VerifyAuth(d, botToken.value, sign)
    && !AuthTooOld(now, d.authDate)
    && (d.id in t.users || !faults.userWrite)
    && !faults.sessionWrite
  }

  /** A sign-in succeeds exactly under those conditions. Then one session
      for the widget's id, with the fresh token and a seven-day expiry, is
      added; an existing user row is left as it was, a missing one is
      created at step `weight` under the widget's first name; the response
      echoes the stored row's name and step, the widget's `username` and
      `photo_url`, and the session's token and expiry. */
  lemma SuccessfulSignIn(t: Tables, d: AuthData, botToken: Option<string>, sign: (string, string) -> string,
                         now: int, token: string, faults: Faults)
    requires ValidTables(t)
    ensures var (r, t') := TelegramSignInOn(t, d, botToken, sign, now, token, faults);
      && (r.SignedIn? <==> SignInSucceeds(t, d, botToken, sign, now, faults))
      && (r.SignedIn? ==>
            && t'.sessions == t.sessions + [Session(t.nextId, d.id, token, now + SessionLifetimeMs, now)]
            && d.id in t'.users
            && (d.id in t.users ==> t'.users == t.users)
            && (d.id !in t.users ==> t'.users == t.users[d.id := NewUser(d.id, d.firstName, now)])
            && r.user == WebUser(d.id, t'.users[d.id].firstName, d.username, d.photoUrl, t'.users[d.id].step)
            && r.token == token && r.expiresAt == now + SessionLifetimeMs)
  {
  }

  /** When the user row exists but the session insert is refused, nothing
      changes; when the row was created first, the new user remains. */
  lemma SessionFailureKeepsNewUser(t: Tables, d: AuthData, botToken: Option<string>, sign: (string, string) -> string,
                                   now: int, token: string, faults: Faults)
    requires botToken.Some? && botToken.value != "" && VerifyAuth(d, botToken.value, sign) && !AuthTooOld(now, d.authDate)
    requires (d.id in t.users || !faults.userWrite) && faults.sessionWrite
    ensures var (r, t') := TelegramSignInOn(t, d, botToken, sign, now, token, faults);
      && r == SignInError(ApiError(500, SessionCreationFailed))
      && t'.sessions == t.sessions
      && (d.id in t.users ==> t' == t)
      && (d.id !in t.users ==> t'.users == t.users[d.id := NewUser(d.id, d.firstName, now)])
  {
  }

  method TelegramSignIn(db: Store, d: AuthData, botToken: Option<string>, sign: (string, string) -> string,
                        now: int, token: string, faults: Faults) returns (r: TelegramResponse)
    requires db.Valid()
    modifies db
    ensures db.Valid()
    ensures (r, db.Snapshot()) == TelegramSignInOn(old(db.Snapshot()), d, botToken, sign, now, token, faults)
  {
    if botToken.None? || botToken.value == "" {
      return SignInError(ApiError(500, ConfigurationError));
    }
    if !VerifyAuth(d, botToken.value, sign) {
      return SignInError(ApiError(401, InvalidAuthData));
    }
    if AuthTooOld(now, d.authDate) {
      return SignInError(ApiError(401, AuthExpired));
    }
    var user: Option<User> := None;
    if d.id in db.users {
      user := Some(db.users[d.id]);
    } else {
      user := db.CreateUser(d.id, d.firstName, now, faults.userWrite);
      if user.None? {
        return SignInError(ApiError(500, UserCreationFailed));
      }
    }
    var ok := db.InsertSession(d.id, token, now + SessionLifetimeMs, now, faults.sessionWrite);
    if !ok {
      return SignInError(ApiError(500, SessionCreationFailed));
    }
    var u := user.value;
    r := SignedIn(WebUser(u.telegramId, u.firstName, d.username, d.photoUrl, u.step), token, now + SessionLifetimeMs);
  }
}
