/** app/api/auth/code/generate/route.ts: issuing a login code for the web
    login. A code is 8 symbols drawn from random bytes; a candidate that
    collides with a pending code is redrawn, at most five times. The random
    bytes of each draw are inputs. */
module CodeGenerateRoute {
  import opened Wrappers
  import opened Types
  import opened Validation
  import opened Supabase

  newtype byte = x: int | 0 <= x < 256

  /** 32 symbols: the letters and digits without 0, O, 1 and I. */
  const CodeAlphabet := "ABCDEFGHJKLMNPQRSTUVWXYZ23456789"
  const CodeLength := 8
  const MaxGenerateAttempts := 5
  /** One minute; the comment beside it in the route speaks of five. */
  const CodeLifetimeMs := 1 * 60 * 1000

  /** The code a draw of random bytes gives: symbol `i` is the alphabet
      entry at `bytes[i] mod 32`. */
  function CodeOf(bytes: seq<byte>): (code: string)
    requires |bytes| == CodeLength
    ensures |code| == CodeLength
    ensures forall i | 0 <= i < CodeLength :: code[i] == CodeAlphabet[bytes[i] as int % |CodeAlphabet|]
  {
    seq(CodeLength, i requires 0 <= i < CodeLength => CodeAlphabet[bytes[i] as int % |CodeAlphabet|])
  }

  /** `generateCode`: appends one symbol per byte. */
  method GenerateCode(bytes: seq<byte>) returns (code: string)
    requires |bytes| == CodeLength
    ensures code == CodeOf(bytes)
  {
    code := "";
    for i := 0 to CodeLength
      invariant |code| == i
      invariant forall j | 0 <= j < i :: code[j] == CodeAlphabet[bytes[j] as int % |CodeAlphabet|]
    {
      code := code + [CodeAlphabet[bytes[i] as int % |CodeAlphabet|]];
    }
  }

  /** The alphabet has 32 symbols, all letters or digits, and none of 0, O,
      1 and I. */
  lemma AlphabetShape()
    ensures |CodeAlphabet| == 32
    ensures forall i | 0 <= i < |CodeAlphabet| :: IsAsciiAlnum(CodeAlphabet[i])
    ensures '0' !in CodeAlphabet && 'O' !in CodeAlphabet && '1' !in CodeAlphabet && 'I' !in CodeAlphabet
  {
    forall i | 0 <= i < |CodeAlphabet| ensures IsAsciiAlnum(CodeAlphabet[i]) && CodeAlphabet[i] !in "0O1I" {
      if i < 24 {
        assert 'A' <= CodeAlphabet[i] <= 'Z';
      } else {
        assert '2' <= CodeAlphabet[i] <= '9';
      }
    }
  }

  /** Every generated code is a login code as the bot recognises one, made
      only of alphabet symbols. */
  lemma GeneratedCodeIsLoginCode(bytes: seq<byte>)
    requires |bytes| == CodeLength
    ensures IsLoginCode(CodeOf(bytes))
    ensures forall c | c in CodeOf(bytes) :: c in CodeAlphabet
  {
    AlphabetShape();
    var code := CodeOf(bytes);
    forall i | 0 <= i < 8 ensures IsAsciiAlnum(code[i]) {
      assert code[i] == CodeAlphabet[bytes[i] as int % 32];
    }
  }

  /** The codes of successive draws. */
  function Candidates(draws: seq<seq<byte>>): (cs: seq<string>)
    requires forall i | 0 <= i < |draws| :: |draws[i]| == CodeLength
    ensures |cs| == |draws| && forall i | 0 <= i < |draws| :: cs[i] == CodeOf(draws[i])
  {
    seq(|draws|, i requires 0 <= i < |draws| => CodeOf(draws[i]))
  }

  /** A candidate is free unless a single pending record holds it (the
      lookup's `.single()` finds nothing when several do). */
  function FreeIn(codes: seq<LoginCode>): string -> bool {
    (c: string) => PendingWithCode(codes, c).None?
  }

  /** The candidate the retry loop settles on, starting at candidate `k`:
      the first free one among candidates `k`..4. The candidate drawn after
      the fifth collision is never checked. */
  function FirstFree(cs: seq<string>, free: string -> bool, k: nat): Option<string>
    requires k <= MaxGenerateAttempts < |cs|
    decreases MaxGenerateAttempts - k
  {
    if k == MaxGenerateAttempts then None
    else if free(cs[k]) then Some(cs[k])
    else FirstFree(cs, free, k + 1)
  }

  /** The search fails exactly when each of the first five candidates
      collides. */
  lemma {:induction false} SearchFailsIffAllCollide(cs: seq<string>, free: string -> bool, k: nat)
    requires k <= MaxGenerateAttempts < |cs|
    ensures FirstFree(cs, free, k).None? <==> forall j | k <= j < MaxGenerateAttempts :: !free(cs[j])
    decreases MaxGenerateAttempts - k
  {
    if k < MaxGenerateAttempts && !free(cs[k]) {
      SearchFailsIffAllCollide(cs, free, k + 1);
    }
  }

  /** A candidate the search yields is free and is one of the five checked
      candidates. */
  lemma {:induction false} SearchYieldsFreeCandidate(cs: seq<string>, free: string -> bool, k: nat)
    requires k <= MaxGenerateAttempts < |cs|
    ensures var r := FirstFree(cs, free, k);
      r.Some? ==> free(r.value) && exists j :: k <= j < MaxGenerateAttempts && r.value == cs[j]
    decreases MaxGenerateAttempts - k
  {
    if k < MaxGenerateAttempts && !free(cs[k]) {
      SearchYieldsFreeCandidate(cs, free, k + 1);
    }
  }

  datatype GenerateResponse =
    | Issued(code: string, expiresAt: int)
    | GenerateFailed(status: int, error: string)

  /** `POST` on tables `t` at time `now`. */
  function GenerateOn(t: Tables, draws: seq<seq<byte>>, now: int, fails: bool): (r: (GenerateResponse, Tables))
    requires MaxGenerateAttempts < |draws|
    requires forall i | 0 <= i < |draws| :: |draws[i]| == CodeLength
    ensures ValidTables(t) ==> ValidTables(r.1)
  {
    match FirstFree(Candidates(draws), FreeIn(t.loginCodes), 0)
    case None => (GenerateFailed(500, "Failed to generate unique code"), t)
    case Some(code) =>
      var (row, t') := InsertLoginCodeOn(t, code, now + CodeLifetimeMs, fails);
      if row.None? then (GenerateFailed(500, "Failed to create login code"), t)
      else (Issued(row.value.code, row.value.expiresAt), t')
  }

  /** An issued code is a login code that no single pending record held; it
      is stored as one new pending record with no attempts, expiring one
      minute from now; the response carries exactly that code and expiry. */
  lemma IssuedCodeIsStored(t: Tables, draws: seq<seq<byte>>, now: int, fails: bool)
    requires MaxGenerateAttempts < |draws|
    requires forall i | 0 <= i < |draws| :: |draws[i]| == CodeLength
    ensures var (resp, t') := GenerateOn(t, draws, now, fails);
      resp.Issued? ==>
        && IsLoginCode(resp.code)
        && PendingWithCode(t.loginCodes, resp.code).None?
        && resp.expiresAt == now + 60000
        && t' == t.(loginCodes := t.loginCodes + [LoginCode(t.nextId, resp.code, Pending, resp.expiresAt, 0, None, None)],
                    nextId := t.nextId + 1)
  {
    var cs := Candidates(draws);
    SearchYieldsFreeCandidate(cs, FreeIn(t.loginCodes), 0);
    var r := FirstFree(cs, FreeIn(t.loginCodes), 0);
    if r.Some? {
      var j :| 0 <= j < MaxGenerateAttempts && r.value == cs[j];
      GeneratedCodeIsLoginCode(draws[j]);
    }
  }

  /** Generation answers 500 "Failed to generate unique code", storing
      nothing, exactly when all five checked candidates collide; the sixth
      draw never matters. */
  lemma GenerateFailsOnlyAfterFiveCollisions(t: Tables, draws: seq<seq<byte>>, now: int, fails: bool)
    requires MaxGenerateAttempts < |draws|
    requires forall i | 0 <= i < |draws| :: |draws[i]| == CodeLength
    ensures var (resp, t') := GenerateOn(t, draws, now, fails);
      && (resp == GenerateFailed(500, "Failed to generate unique code") <==>
            forall j | 0 <= j < MaxGenerateAttempts :: PendingWithCode(t.loginCodes, CodeOf(draws[j])).Some?)
      && (resp.GenerateFailed? ==> t' == t)
  {
    SearchFailsIffAllCollide(Candidates(draws), FreeIn(t.loginCodes), 0);
  }

  /** `POST`: the uniqueness loop, then the insert. */
  method Generate(db: Store, draws: seq<seq<byte>>, now: int, fails: bool) returns (resp: GenerateResponse)
    requires MaxGenerateAttempts < |draws|
    requires forall i | 0 <= i < |draws| :: |draws[i]| == CodeLength
    requires db.Valid()
    modifies db
    ensures db.Valid()
    ensures (resp, db.Snapshot()) == GenerateOn(old(db.Snapshot()), draws, now, fails)
  {
    ghost var cs := Candidates(draws);
    ghost var isFree := FreeIn(db.loginCodes);
    var code := GenerateCode(draws[0]);
    var attempts := 0;
    while attempts < MaxGenerateAttempts && PendingWithCode(db.loginCodes, code).Some?
      invariant 0 <= attempts <= MaxGenerateAttempts
      invariant unchanged(db)
      invariant code == cs[attempts]
      invariant FirstFree(cs, isFree, 0) == FirstFree(cs, isFree, attempts)
    {
      code := GenerateCode(draws[attempts + 1]);
      attempts := attempts + 1;
    }
    if attempts >= MaxGenerateAttempts {
      return GenerateFailed(500, "Failed to generate unique code");
    }
    var row := db.InsertLoginCode(code, now + CodeLifetimeMs, fails);
    if row.None? {
      return GenerateFailed(500, "Failed to create login code");
    }
    resp := Issued(row.value.code, row.value.expiresAt);
  }
}

/** app/api/auth/code/status/route.ts: the web page polling a login code. */
module CodeStatusRoute {
  import opened Wrappers
  import opened Strings
  import opened Types
  import opened Supabase

  datatype StatusResponse =
    | CodeRequired                 // 400
    | CodeNotFound                 // 404, status "invalid"
    | ReportExpired
    | ReportVerified(token: string, sessionExpiresAt: Option<int>, user: Option<UserView>)
    | ReportPending(expiresAt: int)

  function HttpStatus(r: StatusResponse): int {
    match r
    case CodeRequired => 400
    case CodeNotFound => 404
    case _ => 200
  }

  /** How the route classifies the record it found. */
  datatype CodeState = PastExpiry | VerifiedWithToken | StillPending

  function Classify(row: LoginCode, now: int): (s: CodeState)
    ensures s == PastExpiry <==> row.expiresAt < now
    ensures s == VerifiedWithToken <==>
      !(row.expiresAt < now) && row.status == Verified && row.sessionToken.Some? && row.sessionToken.value != ""
  {
    if row.expiresAt < now then PastExpiry
    else if row.status == Verified && row.sessionToken.Some? && row.sessionToken.value != "" then VerifiedWithToken
    else StillPending
  }

  function TokenIs(token: string): Session -> bool {
    (s: Session) => s.token == token
  }

  /** `GET ?code=...` on tables `t` at time `now`; `fails` refuses the lazy
      expiry write, whose outcome the route ignores. `upper` is JavaScript's
      `toUpperCase`, whose full Unicode case mapping is left as a parameter;
      on ASCII text it agrees with `AsciiUpper`. */
  function CodeStatusOn(t: Tables, code: Option<string>, now: int, fails: bool,
                        upper: string -> string): (r: (StatusResponse, Tables))
    ensures ValidTables(t) ==> ValidTables(r.1)
  {
    if code.None? || code.value == "" then (CodeRequired, t)
    else match CodeWithValue(t.loginCodes, upper(code.value))
      case None => (CodeNotFound, t)
      case Some(row) =>
        match Classify(row, now)
        case PastExpiry =>
          (ReportExpired, if row.status == Pending then SetCodeStatusOn(t, row.id, Expired, fails) else t)
        case VerifiedWithToken =>
          var token := row.sessionToken.value;
          var user := if row.telegramId.Some? && row.telegramId.value in t.users
                      then Some(ViewOf(t.users[row.telegramId.value])) else None;
          var session := Single(Filter(t.sessions, TokenIs(token)));
          (ReportVerified(token, if session.Some? then Some(session.value.expiresAt) else None, user), t)
        case StillPending => (ReportPending(row.expiresAt), t)
  }

  /** A record past its expiry reports `expired` whatever its status, even
      `verified`; only a `pending` one is rewritten to `expired`. */
  lemma PastExpiryReportsExpired(t: Tables, code: string, now: int, fails: bool, upper: string -> string)
    requires code != ""
    requires var row := CodeWithValue(t.loginCodes, upper(code)); row.Some? && row.value.expiresAt < now
    ensures var row := CodeWithValue(t.loginCodes, upper(code)).value;
      var (resp, t') := CodeStatusOn(t, Some(code), now, fails, upper);
      && resp == ReportExpired
      && (row.status != Pending ==> t' == t)
      && (row.status == Pending ==> t' == SetCodeStatusOn(t, row.id, Expired, fails))
  {
  }

  /** Only the route's expiry write changes anything, and it only ever
      turns pending records with the found id into expired ones. */
  lemma StatusOnlyExpires(t: Tables, code: Option<string>, now: int, fails: bool, upper: string -> string)
    requires ValidTables(t)
    ensures var (_, t') := CodeStatusOn(t, code, now, fails, upper);
      && t' == t.(loginCodes := t'.loginCodes)
      && |t'.loginCodes| == |t.loginCodes|
      && forall i | 0 <= i < |t.loginCodes| && t'.loginCodes[i] != t.loginCodes[i] ::
           t.loginCodes[i].status == Pending && t'.loginCodes[i] == t.loginCodes[i].(status := Expired)
  {
    if code.Some? && code.value != "" {
      var found := CodeWithValue(t.loginCodes, upper(code.value));
      if found.Some? && found.value.expiresAt < now && found.value.status == Pending {
        var k :| 0 <= k < |t.loginCodes| && t.loginCodes[k] == found.value;
        ExpiryWriteOnlyExpires(t, k, fails);
      }
    }
  }

  /** Expiring the pending record at `k` changes no other record, since
      ids are unique. */
  lemma ExpiryWriteOnlyExpires(t: Tables, k: int, fails: bool)
    requires ValidTables(t) && 0 <= k < |t.loginCodes| && t.loginCodes[k].status == Pending
    ensures var t' := SetCodeStatusOn(t, t.loginCodes[k].id, Expired, fails);
      forall i | 0 <= i < |t.loginCodes| && t'.loginCodes[i] != t.loginCodes[i] ::
        t.loginCodes[i].status == Pending && t'.loginCodes[i] == t.loginCodes[i].(status := Expired)
  {
    var t' := SetCodeStatusOn(t, t.loginCodes[k].id, Expired, fails);
    forall i | 0 <= i < |t.loginCodes| && t'.loginCodes[i] != t.loginCodes[i]
      ensures t.loginCodes[i].status == Pending
    {
      assert t.loginCodes[i].id == t.loginCodes[k].id;
      assert i == k;
    }
  }

  /** A session token is handed out exactly for the one record with the
      code that is `verified`, not past its expiry and holding a non-empty
      token; the report then carries the expiry of the session with that
      token (if exactly one) and the view of the record's user (if any).
      Every other unexpired record, including a `verified` one without a
      token and one whose status is `expired`, reports `pending` with its
      expiry. An unexpired record is never written to. */
  lemma TokenOnlyForLiveVerified(t: Tables, code: string, now: int, fails: bool, upper: string -> string)
    requires code != ""
    ensures var (resp, t') := CodeStatusOn(t, Some(code), now, fails, upper);
      var row := CodeWithValue(t.loginCodes, upper(code));
      && (resp.ReportVerified? ==>
            && row.Some? && row.value.status == Verified && !(row.value.expiresAt < now)
            && row.value.sessionToken == Some(resp.token) && resp.token != "")
      && (row.Some? && !(row.value.expiresAt < now) ==> t' == t)
      && (row.Some? && !(row.value.expiresAt < now) && row.value.status == Verified
          && row.value.sessionToken.Some? && row.value.sessionToken.value != "" ==>
            var token := row.value.sessionToken.value;
            var session := Single(Filter(t.sessions, TokenIs(token)));
            && resp.ReportVerified?
            && resp.token == token
            && (session.Some? ==> resp.sessionExpiresAt == Some(session.value.expiresAt))
            && (session.None? ==> resp.sessionExpiresAt.None?)
            && (row.value.telegramId.Some? && row.value.telegramId.value in t.users ==>
                  resp.user == Some(ViewOf(t.users[row.value.telegramId.value])))
            && (row.value.telegramId.None? || row.value.telegramId.value !in t.users ==>
                  resp.user.None?))
      && (row.Some? && !(row.value.expiresAt < now)
          && (row.value.status != Verified || row.value.sessionToken.None? || row.value.sessionToken == Some("")) ==>
            resp == ReportPending(row.value.expiresAt))
  {
  }

  /** Whatever `toUpperCase` makes of the URL's code, the route finds the
      record when the upper-cased text is the code of exactly one record:
      the answer is then a 200 report, never 404. */
  lemma UpperCasedCodeFound(t: Tables, code: string, now: int, fails: bool, upper: string -> string, k: int)
    requires code != "" && 0 <= k < |t.loginCodes| && t.loginCodes[k].code == upper(code)
    requires forall j | 0 <= j < |t.loginCodes| && j != k :: t.loginCodes[j].code != upper(code)
    ensures var (resp, _) := CodeStatusOn(t, Some(code), now, fails, upper);
      HttpStatus(resp) == 200 && resp != CodeNotFound
  {
    UniqueCodeFound(t.loginCodes, upper(code), k);
  }

  /** A missing or empty `code` parameter is refused with 400, and an unknown
      code (or one held by several records) with 404. */
  lemma BadCodes(t: Tables, code: Option<string>, now: int, fails: bool, upper: string -> string)
    ensures var (resp, t') := CodeStatusOn(t, code, now, fails, upper);
      && (code.None? || code == Some("") ==> HttpStatus(resp) == 400 && t' == t)
      && (code.Some? && code.value != "" && CodeWithValue(t.loginCodes, upper(code.value)).None? ==>
            HttpStatus(resp) == 404 && t' == t)
  {
  }

  method CodeStatus(db: Store, code: Option<string>, now: int, fails: bool, upper: string -> string)
    returns (resp: StatusResponse)
    requires db.Valid()
    modifies db
    ensures db.Valid()
    ensures (resp, db.Snapshot()) == CodeStatusOn(old(db.Snapshot()), code, now, fails, upper)
  {
    if code.None? || code.value == "" {
      return CodeRequired;
    }
    var found := CodeWithValue(db.loginCodes, upper(code.value));
    if found.None? {
      return CodeNotFound;
    }
    var loginCode := found.value;
    if loginCode.expiresAt < now {
      if loginCode.status == Pending {
        db.SetCodeStatus(loginCode.id, Expired, fails);
      }
      return ReportExpired;
    }
    if loginCode.status == Verified && loginCode.sessionToken.Some? && loginCode.sessionToken.value != "" {
      var token := loginCode.sessionToken.value;
      var user := if loginCode.telegramId.Some? && loginCode.telegramId.value in db.users
                  then Some(ViewOf(db.users[loginCode.telegramId.value])) else None;
      var session := Single(Filter(db.sessions, TokenIs(token)));
      return ReportVerified(token, if session.Some? then Some(session.value.expiresAt) else None, user);
    }
    resp := ReportPending(loginCode.expiresAt);
  }
}
