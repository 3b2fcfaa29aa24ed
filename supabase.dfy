/** lib/supabase.ts over an in-memory database: the tables are fields of a
    `Store` object, the query builder's filter/order/limit/single semantics
    are functions over those fields, and every write that can fail takes a
    `fails` flag standing for the error the client would return. */
module Supabase {
  import opened Wrappers
  import opened Types

  // ---------------------------------------------------------------------
  // Query semantics
  // ---------------------------------------------------------------------

  /** `.single()`: the row when exactly one row matched, otherwise the
      client reports an error and the data is null. */
  function Single<T>(rows: seq<T>): (r: Option<T>)
    ensures r.Some? <==> |rows| == 1
    ensures r.Some? ==> r.value == rows[0]
  {
    if |rows| == 1 then Some(rows[0]) else None
  }

  /** `.eq(...)`/`.gt(...)`/`.is(...)` filters: the matching rows in table
      order. */
  function Filter<T(!new)>(s: seq<T>, p: T -> bool): (r: seq<T>)
    ensures |r| <= |s|
    ensures forall x :: x in r <==> x in s && p(x)
  {
    if s == [] then []
    else (if p(s[0]) then [s[0]] else []) + Filter(s[1..], p)
  }

  /** `.update(...)` on the rows matching a filter: `f` applied to each of
      them, the other rows unchanged, positions kept. */
  function UpdateWhere<T>(s: seq<T>, p: T -> bool, f: T -> T): (r: seq<T>)
    ensures |r| == |s|
    ensures forall i | 0 <= i < |s| :: r[i] == if p(s[i]) then f(s[i]) else s[i]
  {
    if s == [] then []
    else [if p(s[0]) then f(s[0]) else s[0]] + UpdateWhere(s[1..], p, f)
  }

  function Reverse<T>(s: seq<T>): (r: seq<T>)
    ensures |r| == |s|
    ensures forall i | 0 <= i < |s| :: r[i] == s[|s| - 1 - i]
  {
    if s == [] then [] else Reverse(s[1..]) + [s[0]]
  }

  /** `.limit(n)`. */
  function Take<T>(s: seq<T>, n: nat): (r: seq<T>)
    ensures |r| == if n < |s| then n else |s|
    ensures r == s[..|r|]
  {
    if n < |s| then s[..n] else s
  }

  ghost predicate SortedUp<T>(s: seq<T>, key: T -> int) {
    forall i, j | 0 <= i < j < |s| :: key(s[i]) <= key(s[j])
  }

  ghost predicate SortedDown<T>(s: seq<T>, key: T -> int) {
    forall i, j | 0 <= i < j < |s| :: key(s[i]) >= key(s[j])
  }

  lemma {:induction false} FilterSortedUp<T(!new)>(s: seq<T>, p: T -> bool, key: T -> int)
    requires SortedUp(s, key)
    ensures SortedUp(Filter(s, p), key)
  {
    if s != [] {
      FilterSortedUp(s[1..], p, key);
      var rest := Filter(s[1..], p);
      forall y | y in rest ensures key(s[0]) <= key(y) {
        var j :| 0 <= j < |s[1..]| && s[1..][j] == y;
        assert s[j + 1] == y;
      }
    }
  }

  /** `.order(key, { ascending: false })` on rows kept in ascending order is
      the reversed table. */
  lemma ReverseSortedDown<T>(s: seq<T>, key: T -> int)
    requires SortedUp(s, key)
    ensures SortedDown(Reverse(s), key)
  {
  }

  /** Newest first, limited: what `order(desc).limit(n)` returns from a table
      whose rows were inserted in time order. */
  function NewestFirst<T(!new)>(s: seq<T>, p: T -> bool, limit: nat): (r: seq<T>)
    ensures |r| <= limit
    ensures forall x | x in r :: x in s && p(x)
  {
    Take(Reverse(Filter(s, p)), limit)
  }

  /** `NewestFirst` returns the `limit` newest matching rows, newest first:
      its length is the smaller of `limit` and the number of matching rows, it
      is ordered by descending key, and every matching row it leaves out is no
      newer than any row it returns. */
  lemma NewestFirstSpec<T(!new)>(s: seq<T>, p: T -> bool, key: T -> int, limit: nat)
    requires SortedUp(s, key)
    ensures var r := NewestFirst(s, p, limit);
      && |r| == (if limit < |Filter(s, p)| then limit else |Filter(s, p)|)
      && SortedDown(r, key)
      && forall x, y | x in r && y in s && p(y) && y !in r :: key(y) <= key(x)
  {
    var f := Filter(s, p);
    FilterSortedUp(s, p, key);
    var rev := Reverse(f);
    ReverseSortedDown(f, key);
    var r := NewestFirst(s, p, limit);
    forall x, y | x in r && y in s && p(y) && y !in r
      ensures key(y) <= key(x)
    {
      var i :| 0 <= i < |r| && r[i] == x;
      assert y in f;
      var j' :| 0 <= j' < |f| && f[j'] == y;
      var j := |f| - 1 - j';
      assert rev[j] == y;
      assert rev[i] == x;
      assert j >= |r|;
    }
  }

  // ---------------------------------------------------------------------
  // Row predicates and the read queries of lib/supabase.ts
  // ---------------------------------------------------------------------

  function LoggedAt(w: WeightLog): int { w.loggedAt }
  function StartedAt(f: FastingPeriod): int { f.startedAt }
  function FoodLoggedAt(f: FoodLog): int { f.loggedAt }

  function WeightOf(telegramId: int): WeightLog -> bool {
    (w: WeightLog) => w.telegramId == telegramId
  }

  function FastOf(telegramId: int): FastingPeriod -> bool {
    (f: FastingPeriod) => f.telegramId == telegramId
  }

  function FoodOf(telegramId: int): FoodLog -> bool {
    (f: FoodLog) => f.telegramId == telegramId
  }

  predicate IsOpenOf(f: FastingPeriod, telegramId: int) {
    f.telegramId == telegramId && f.endedAt.None?
  }

  /** `getWeightHistory(telegramId, limit)`: the user's weight logs, newest
      first, at most `limit` of them (90 when not given). */
  function WeightHistory(logs: seq<WeightLog>, telegramId: int, limit: nat): (r: seq<WeightLog>)
    ensures |r| <= limit
    ensures forall w | w in r :: w in logs && w.telegramId == telegramId
  {
    NewestFirst(logs, WeightOf(telegramId), limit)
  }

  const DefaultWeightHistoryLimit: nat := 90

  /** `getFastingHistory(telegramId, limit)`: newest-started first, at most
      `limit` (30 when not given). */
  function FastingHistory(fasts: seq<FastingPeriod>, telegramId: int, limit: nat): (r: seq<FastingPeriod>)
    ensures |r| <= limit
    ensures forall f | f in r :: f in fasts && f.telegramId == telegramId
  {
    NewestFirst(fasts, FastOf(telegramId), limit)
  }

  /** `getFoodLogs(telegramId, limit)`: newest first, at most `limit`. */
  function RecentFoodLogs(logs: seq<FoodLog>, telegramId: int, limit: nat): (r: seq<FoodLog>)
    ensures |r| <= limit
    ensures forall f | f in r :: f in logs && f.telegramId == telegramId
  {
    NewestFirst(logs, FoodOf(telegramId), limit)
  }

  function LoggedWithin(telegramId: int, from: int, to: int): FoodLog -> bool {
    (f: FoodLog) => f.telegramId == telegramId && from <= f.loggedAt <= to
  }

  /** `getFoodLogsForDate` and the calorie routes' query: the user's logs with
      `from <= logged_at <= to`, oldest first. */
  function FoodLogsBetween(logs: seq<FoodLog>, telegramId: int, from: int, to: int): (r: seq<FoodLog>)
    ensures forall f :: f in r <==> f in logs && f.telegramId == telegramId && from <= f.loggedAt <= to
  {
    Filter(logs, LoggedWithin(telegramId, from, to))
  }

  /** Position of the user's open period with the latest position in the
      table (`.is("ended_at", null).order("started_at", desc).limit(1)`). */
  function LastOpenIndex(fasts: seq<FastingPeriod>, telegramId: int): (r: Option<nat>)
    ensures r.Some? ==> r.value < |fasts| && IsOpenOf(fasts[r.value], telegramId)
    ensures r.Some? ==> forall j | r.value < j < |fasts| :: !IsOpenOf(fasts[j], telegramId)
    ensures r.None? <==> forall j | 0 <= j < |fasts| :: !IsOpenOf(fasts[j], telegramId)
  {
    if fasts == [] then None
    else if IsOpenOf(fasts[|fasts| - 1], telegramId) then Some(|fasts| - 1)
    else LastOpenIndex(fasts[..|fasts| - 1], telegramId)
  }

  /** `getActiveFast`: the user's open period, or null. */
  function ActiveFast(fasts: seq<FastingPeriod>, telegramId: int): (r: Option<FastingPeriod>)
    ensures r.Some? ==> r.value in fasts && IsOpenOf(r.value, telegramId)
    ensures r.None? <==> forall f | f in fasts :: !IsOpenOf(f, telegramId)
  {
    match LastOpenIndex(fasts, telegramId)
    case None => None
    case Some(i) => Some(fasts[i])
  }

  /** In a table filled in time order the period `getActiveFast` returns is
      the latest-started open period of the user. */
  lemma ActiveFastIsLatest(fasts: seq<FastingPeriod>, telegramId: int)
    requires SortedUp(fasts, StartedAt)
    ensures var r := ActiveFast(fasts, telegramId);
      r.Some? ==> forall f | f in fasts && IsOpenOf(f, telegramId) :: f.startedAt <= r.value.startedAt
  {
    var ix := LastOpenIndex(fasts, telegramId);
    if ix.Some? {
      forall f | f in fasts && IsOpenOf(f, telegramId)
        ensures f.startedAt <= fasts[ix.value].startedAt
      {
        var j :| 0 <= j < |fasts| && fasts[j] == f;
        assert j <= ix.value;
        if j < ix.value { assert StartedAt(fasts[j]) <= StartedAt(fasts[ix.value]); }
      }
    }
  }

  function LiveToken(token: string, now: int): Session -> bool {
    (s: Session) => s.token == token && s.expiresAt > now
  }

  /** `getSessionByToken`: the session with this token that expires strictly
      after `now`, when exactly one does. */
  function SessionByToken(sessions: seq<Session>, token: string, now: int): (r: Option<Session>)
    ensures r.Some? ==> r.value in sessions && r.value.token == token && r.value.expiresAt > now
    ensures r.Some? <==> |Filter(sessions, LiveToken(token, now))| == 1
  {
    Single(Filter(sessions, LiveToken(token, now)))
  }

  // ---------------------------------------------------------------------
  // Writes, as functions from the tables before to the result and the
  // tables after
  // ---------------------------------------------------------------------

  /** Which writes of one request the database refuses: a write to a table
      whose flag is set returns an error and changes nothing. */
  datatype Faults = Faults(
    userWrite: bool,
    weightWrite: bool,
    fastWrite: bool,
    foodWrite: bool,
    sessionWrite: bool,
    codeWrite: bool)

  /** The contents of the database. `nextId` is the next value of the
      identity columns; `clock` is the time of the latest insert of a
      time-stamped row. */
  datatype Tables = Tables(
    users: map<int, User>,
    weightLogs: seq<WeightLog>,
    fasts: seq<FastingPeriod>,
    foodLogs: seq<FoodLog>,
    sessions: seq<Session>,
    loginCodes: seq<LoginCode>,
    nextId: int,
    clock: int)

  ghost predicate TimesUpTo<T>(s: seq<T>, key: T -> int, clock: int) {
    forall i | 0 <= i < |s| :: key(s[i]) <= clock
  }

  /** Users are keyed by their id, rows stamped with their insertion time
      sit in their tables in time order, and login codes have distinct ids
      below `nextId`. */
  ghost predicate ValidTables(t: Tables) {
    && (forall id | id in t.users :: t.users[id].telegramId == id)
    && SortedUp(t.weightLogs, LoggedAt) && TimesUpTo(t.weightLogs, LoggedAt, t.clock)
    && SortedUp(t.fasts, StartedAt) && TimesUpTo(t.fasts, StartedAt, t.clock)
    && SortedUp(t.foodLogs, FoodLoggedAt) && TimesUpTo(t.foodLogs, FoodLoggedAt, t.clock)
    && (forall i | 0 <= i < |t.loginCodes| :: t.loginCodes[i].id < t.nextId)
    && (forall i, j | 0 <= i < j < |t.loginCodes| :: t.loginCodes[i].id != t.loginCodes[j].id)
  }

  /** The fields `updateUser` may be given; `None` means "not supplied". */
  datatype UserPatch = UserPatch(
    currentWeight: Option<real>,
    goalWeight: Option<real>,
    height: Option<real>,
    timezone: Option<string>,
    step: Option<Step>)

  function Patched<T>(current: Option<T>, supplied: Option<T>): Option<T> {
    if supplied.Some? then supplied else current
  }

  /** The row `updateUser` writes: the supplied fields, and `updated_at`. */
  function ApplyPatch(u: User, p: UserPatch, now: int): User {
    u.(currentWeight := Patched(u.currentWeight, p.currentWeight),
       goalWeight := Patched(u.goalWeight, p.goalWeight),
       height := Patched(u.height, p.height),
       timezone := Patched(u.timezone, p.timezone),
       step := if p.step.Some? then p.step.value else u.step,
       updatedAt := now)
  }

  /** `updateUser` changes exactly the supplied fields and `updated_at`: the
      id, name and creation time are kept, and an unsupplied field keeps its
      value. */
  lemma ApplyPatchChangesOnlySupplied(u: User, p: UserPatch, now: int)
    ensures var r := ApplyPatch(u, p, now);
      && r.telegramId == u.telegramId && r.firstName == u.firstName && r.createdAt == u.createdAt
      && r.updatedAt == now
      && (p.currentWeight.Some? ==> r.currentWeight == p.currentWeight)
      && (p.currentWeight.None? ==> r.currentWeight == u.currentWeight)
      && (p.goalWeight.Some? ==> r.goalWeight == p.goalWeight)
      && (p.goalWeight.None? ==> r.goalWeight == u.goalWeight)
      && (p.height.Some? ==> r.height == p.height)
      && (p.height.None? ==> r.height == u.height)
      && (p.timezone.Some? ==> r.timezone == p.timezone)
      && (p.timezone.None? ==> r.timezone == u.timezone)
      && (p.step.Some? ==> r.step == p.step.value)
      && (p.step.None? ==> r.step == u.step)
  {
  }

  /** The row `createUser` inserts: id, first name and step `weight`; the
      other columns take their defaults. */
  function NewUser(telegramId: int, firstName: string, now: int): User {
    User(telegramId, firstName, None, None, None, None, AtWeight, now, now)
  }

  /** `createUser`: the insert fails on an existing id (the primary key) or a
      refused write. */
  function CreateUserOn(t: Tables, telegramId: int, firstName: string, now: int, fails: bool): (r: (Option<User>, Tables))
    ensures ValidTables(t) ==> ValidTables(r.1)
    ensures r.0.Some? <==> !fails && telegramId !in t.users
    ensures r.0.Some? ==> r.0.value == NewUser(telegramId, firstName, now) && r.1 == t.(users := t.users[telegramId := r.0.value])
    ensures r.0.None? ==> r.1 == t
  {
    if fails || telegramId in t.users then (None, t)
    else
      var u := NewUser(telegramId, firstName, now);
      (Some(u), t.(users := t.users[telegramId := u]))
  }

  /** `updateUser`: the updated row, or null when there is no row to update
      or the write is refused. */
  function UpdateUserOn(t: Tables, telegramId: int, patch: UserPatch, now: int, fails: bool): (r: (Option<User>, Tables))
    ensures ValidTables(t) ==> ValidTables(r.1)
    ensures r.0.Some? <==> !fails && telegramId in t.users
    ensures r.0.Some? ==> r.0.value == ApplyPatch(t.users[telegramId], patch, now) && r.1 == t.(users := t.users[telegramId := r.0.value])
    ensures r.0.None? ==> r.1 == t
  {
    if fails || telegramId !in t.users then (None, t)
    else
      var u := ApplyPatch(t.users[telegramId], patch, now);
      (Some(u), t.(users := t.users[telegramId := u]))
  }

  /** `logWeight`: appends one weight log stamped `now`. */
  function LogWeightOn(t: Tables, telegramId: int, weight: real, now: int, fails: bool): (r: (Option<WeightLog>, Tables))
    ensures ValidTables(t) && t.clock <= now ==> ValidTables(r.1)
    ensures r.0.Some? <==> !fails
    ensures r.0.Some? ==> && r.0.value == WeightLog(t.nextId, telegramId, weight, now)
                          && r.1 == t.(weightLogs := t.weightLogs + [r.0.value], nextId := t.nextId + 1, clock := now)
    ensures r.0.None? ==> r.1 == t
  {
    if fails then (None, t)
    else
      var w := WeightLog(t.nextId, telegramId, weight, now);
      (Some(w), t.(weightLogs := t.weightLogs + [w], nextId := t.nextId + 1, clock := now))
  }

  /** `startFast`: inserts an open period, whether or not one is open. */
  function StartFastOn(t: Tables, telegramId: int, now: int, fails: bool): (r: (Option<FastingPeriod>, Tables))
    ensures ValidTables(t) && t.clock <= now ==> ValidTables(r.1)
    ensures r.0.Some? <==> !fails
    ensures r.0.Some? ==> && r.0.value == FastingPeriod(t.nextId, telegramId, now, None)
                          && r.1 == t.(fasts := t.fasts + [r.0.value], nextId := t.nextId + 1, clock := now)
    ensures r.0.None? ==> r.1 == t
  {
    if fails then (None, t)
    else
      var f := FastingPeriod(t.nextId, telegramId, now, None);
      (Some(f), t.(fasts := t.fasts + [f], nextId := t.nextId + 1, clock := now))
  }

  /** `endFast`: sets `ended_at` on the user's latest open period; null, with
      nothing changed, when there is none or the write is refused. */
  function EndFastOn(t: Tables, telegramId: int, now: int, fails: bool): (r: (Option<FastingPeriod>, Tables))
    ensures ValidTables(t) ==> ValidTables(r.1)
    ensures r.0.Some? <==> !fails && ActiveFast(t.fasts, telegramId).Some?
    ensures r.0.Some? ==> && r.0.value == ActiveFast(t.fasts, telegramId).value.(endedAt := Some(now))
                          && r.1 == t.(fasts := t.fasts[LastOpenIndex(t.fasts, telegramId).value := r.0.value])
    ensures r.0.None? ==> r.1 == t
  {
    var ix := LastOpenIndex(t.fasts, telegramId);
    if fails || ix.None? then (None, t)
    else
      var ended := t.fasts[ix.value].(endedAt := Some(now));
      var t' := t.(fasts := t.fasts[ix.value := ended]);
      assert forall i | 0 <= i < |t'.fasts| :: StartedAt(t'.fasts[i]) == StartedAt(t.fasts[i]);
      (Some(ended), t')
  }

  /** `createFoodLog`: appends the row, numbered and stamped `now`. */
  function CreateFoodLogOn(t: Tables, row: FoodLog, now: int, fails: bool): (r: (Option<FoodLog>, Tables))
    ensures ValidTables(t) && t.clock <= now ==> ValidTables(r.1)
    ensures r.0.Some? <==> !fails
    ensures r.0.Some? ==> && r.0.value == row.(id := t.nextId, loggedAt := now)
                          && r.1 == t.(foodLogs := t.foodLogs + [r.0.value], nextId := t.nextId + 1, clock := now)
    ensures r.0.None? ==> r.1 == t
  {
    if fails then (None, t)
    else
      var f := row.(id := t.nextId, loggedAt := now);
      (Some(f), t.(foodLogs := t.foodLogs + [f], nextId := t.nextId + 1, clock := now))
  }

  /** Inserts a session row; false when the write is refused. */
  function InsertSessionOn(t: Tables, telegramId: int, token: string, expiresAt: int, now: int, fails: bool): (r: (bool, Tables))
    ensures ValidTables(t) ==> ValidTables(r.1)
    ensures r.0 == !fails
    ensures r.0 ==> r.1 == t.(sessions := t.sessions + [Session(t.nextId, telegramId, token, expiresAt, now)], nextId := t.nextId + 1)
    ensures !r.0 ==> r.1 == t
  {
    if fails then (false, t)
    else (true, t.(sessions := t.sessions + [Session(t.nextId, telegramId, token, expiresAt, now)], nextId := t.nextId + 1))
  }

  function TokenIsNot(token: string): Session -> bool {
    (s: Session) => s.token != token
  }

  function UserIsNot(telegramId: int): Session -> bool {
    (s: Session) => s.telegramId != telegramId
  }

  /** `deleteSession`: removes every session with this token. */
  function DeleteSessionOn(t: Tables, token: string, fails: bool): (r: (bool, Tables))
    ensures ValidTables(t) ==> ValidTables(r.1)
    ensures r.0 == !fails
    ensures r.0 ==> r.1 == t.(sessions := r.1.sessions)
    ensures r.0 ==> forall s :: s in r.1.sessions <==> s in t.sessions && s.token != token
    ensures !r.0 ==> r.1 == t
  {
    if fails then (false, t) else (true, t.(sessions := Filter(t.sessions, TokenIsNot(token))))
  }

  /** `deleteUserSessions`: removes every session of the user. */
  function DeleteUserSessionsOn(t: Tables, telegramId: int, fails: bool): (r: (bool, Tables))
    ensures ValidTables(t) ==> ValidTables(r.1)
    ensures r.0 == !fails
    ensures r.0 ==> r.1 == t.(sessions := r.1.sessions)
    ensures r.0 ==> forall s :: s in r.1.sessions <==> s in t.sessions && s.telegramId != telegramId
    ensures !r.0 ==> r.1 == t
  {
    if fails then (false, t) else (true, t.(sessions := Filter(t.sessions, UserIsNot(telegramId))))
  }

  /** Deleting the sessions of a token is idempotent: a second delete
      removes nothing more. */
  lemma DeleteSessionIdempotent(t: Tables, token: string)
    ensures var once := DeleteSessionOn(t, token, false).1;
      DeleteSessionOn(once, token, false).1 == once
  {
    var once := DeleteSessionOn(t, token, false).1;
    FilterKeepsAll(once.sessions, TokenIsNot(token));
  }

  lemma {:induction false} FilterKeepsAll<T(!new)>(s: seq<T>, p: T -> bool)
    requires forall x | x in s :: p(x)
    ensures Filter(s, p) == s
  {
    if s != [] {
      FilterKeepsAll(s[1..], p);
      assert [s[0]] + s[1..] == s;
    }
  }

  // ---------------------------------------------------------------------
  // The login_codes table
  // ---------------------------------------------------------------------

  function PendingCodeIs(code: string): LoginCode -> bool {
    (c: LoginCode) => c.code == code && c.status == Pending
  }

  function CodeIs(code: string): LoginCode -> bool {
    (c: LoginCode) => c.code == code
  }

  /** `.eq("code", code).eq("status", "pending").single()`. */
  function PendingWithCode(codes: seq<LoginCode>, code: string): (r: Option<LoginCode>)
    ensures r.Some? ==> r.value in codes && r.value.code == code && r.value.status == Pending
    ensures r.Some? <==> |Filter(codes, PendingCodeIs(code))| == 1
    ensures r.Some? ==> r.value == Filter(codes, PendingCodeIs(code))[0]
  {
    Single(Filter(codes, PendingCodeIs(code)))
  }

  /** `.eq("code", code).single()`, whatever the status. */
  function CodeWithValue(codes: seq<LoginCode>, code: string): (r: Option<LoginCode>)
    ensures r.Some? ==> r.value in codes && r.value.code == code
    ensures r.Some? <==> |Filter(codes, CodeIs(code))| == 1
    ensures r.Some? ==> r.value == Filter(codes, CodeIs(code))[0]
  {
    Single(Filter(codes, CodeIs(code)))
  }

  /** A filter that no row passes keeps nothing. */
  lemma {:induction false} FilterNone<T(!new)>(s: seq<T>, p: T -> bool)
    requires forall j | 0 <= j < |s| :: !p(s[j])
    ensures Filter(s, p) == []
  {
    if s != [] {
      FilterNone(s[1..], p);
    }
  }

  /** A filter that exactly the row at `k` passes keeps that row alone. */
  lemma {:induction false} FilterSingleton<T(!new)>(s: seq<T>, p: T -> bool, k: int)
    requires 0 <= k < |s| && p(s[k])
    requires forall j | 0 <= j < |s| && j != k :: !p(s[j])
    ensures Filter(s, p) == [s[k]]
  {
    if k == 0 {
      FilterNone(s[1..], p);
    } else {
      FilterSingleton(s[1..], p, k - 1);
    }
  }

  /** The lookups find the record when it is the only one with the code
      (the only pending one, for `PendingWithCode`). */
  lemma UniqueCodeFound(codes: seq<LoginCode>, code: string, k: int)
    requires 0 <= k < |codes| && codes[k].code == code
    ensures (forall j | 0 <= j < |codes| && j != k :: codes[j].code != code) ==>
      CodeWithValue(codes, code) == Some(codes[k])
    ensures codes[k].status == Pending &&
            (forall j | 0 <= j < |codes| && j != k :: !(codes[j].code == code && codes[j].status == Pending)) ==>
      PendingWithCode(codes, code) == Some(codes[k])
  {
    if forall j | 0 <= j < |codes| && j != k :: codes[j].code != code {
      FilterSingleton(codes, CodeIs(code), k);
    }
    if codes[k].status == Pending &&
       forall j | 0 <= j < |codes| && j != k :: !(codes[j].code == code && codes[j].status == Pending) {
      FilterSingleton(codes, PendingCodeIs(code), k);
    }
  }

  /** Without a record holding the code (a pending one, for
      `PendingWithCode`) the lookups find nothing. */
  lemma AbsentCodeNotFound(codes: seq<LoginCode>, code: string)
    ensures (forall j | 0 <= j < |codes| :: codes[j].code != code) ==> CodeWithValue(codes, code).None?
    ensures (forall j | 0 <= j < |codes| :: !(codes[j].code == code && codes[j].status == Pending)) ==>
      PendingWithCode(codes, code).None?
  {
    if forall j | 0 <= j < |codes| :: codes[j].code != code {
      FilterNone(codes, CodeIs(code));
    }
    if forall j | 0 <= j < |codes| :: !(codes[j].code == code && codes[j].status == Pending) {
      FilterNone(codes, PendingCodeIs(code));
    }
  }

  function CodeWithId(id: int): LoginCode -> bool {
    (c: LoginCode) => c.id == id
  }

  function SetStatus(status: CodeStatus): LoginCode -> LoginCode {
    (c: LoginCode) => c.(status := status)
  }

  function Verify(telegramId: int, token: string): LoginCode -> LoginCode {
    (c: LoginCode) => c.(status := Verified, telegramId := Some(telegramId), sessionToken := Some(token))
  }

  /** Inserts a code with status `pending` and no attempts. */
  function InsertLoginCodeOn(t: Tables, code: string, expiresAt: int, fails: bool): (r: (Option<LoginCode>, Tables))
    ensures ValidTables(t) ==> ValidTables(r.1)
    ensures r.0.Some? <==> !fails
    ensures r.0.Some? ==> && r.0.value == LoginCode(t.nextId, code, Pending, expiresAt, 0, None, None)
                          && r.1 == t.(loginCodes := t.loginCodes + [r.0.value], nextId := t.nextId + 1)
    ensures r.0.None? ==> r.1 == t
  {
    if fails then (None, t)
    else
      var c := LoginCode(t.nextId, code, Pending, expiresAt, 0, None, None);
      (Some(c), t.(loginCodes := t.loginCodes + [c], nextId := t.nextId + 1))
  }

  /** `update({ status }).eq("id", id)`. */
  function SetCodeStatusOn(t: Tables, id: int, status: CodeStatus, fails: bool): (r: Tables)
    ensures ValidTables(t) ==> ValidTables(r)
    ensures r == t.(loginCodes := r.loginCodes) && |r.loginCodes| == |t.loginCodes|
    ensures forall i | 0 <= i < |t.loginCodes| ::
      r.loginCodes[i] == if !fails && t.loginCodes[i].id == id then t.loginCodes[i].(status := status) else t.loginCodes[i]
  {
    if fails then t else t.(loginCodes := UpdateWhere(t.loginCodes, CodeWithId(id), SetStatus(status)))
  }

  /** The update that completes a login: status `verified`, with the user and
      the session token recorded on the code. */
  function MarkCodeVerifiedOn(t: Tables, id: int, telegramId: int, token: string, fails: bool): (r: Tables)
    ensures ValidTables(t) ==> ValidTables(r)
    ensures r == t.(loginCodes := r.loginCodes) && |r.loginCodes| == |t.loginCodes|
    ensures forall i | 0 <= i < |t.loginCodes| ::
      r.loginCodes[i] == if !fails && t.loginCodes[i].id == id then Verify(telegramId, token)(t.loginCodes[i]) else t.loginCodes[i]
  {
    if fails then t else t.(loginCodes := UpdateWhere(t.loginCodes, CodeWithId(id), Verify(telegramId, token)))
  }

  // ---------------------------------------------------------------------
  // The database object
  // ---------------------------------------------------------------------

  class Store {
    var users: map<int, User>
    var weightLogs: seq<WeightLog>
    var fasts: seq<FastingPeriod>
    var foodLogs: seq<FoodLog>
    var sessions: seq<Session>
    var loginCodes: seq<LoginCode>
    var nextId: int
    var clock: int

    function Snapshot(): Tables
      reads this
    {
      Tables(users, weightLogs, fasts, foodLogs, sessions, loginCodes, nextId, clock)
    }

    ghost predicate Valid()
      reads this
    {
      ValidTables(Snapshot())
    }

    constructor (now: int)
      ensures Snapshot() == Tables(map[], [], [], [], [], [], 1, now)
      ensures Valid()
    {
      users := map[];
      weightLogs := [];
      fasts := [];
      foodLogs := [];
      sessions := [];
      loginCodes := [];
      nextId := 1;
      clock := now;
    }

    /** `getUser`: the user row, or null when there is none. */
    function GetUser(telegramId: int): (r: Option<User>)
      reads this
      requires Valid()
      ensures r.Some? <==> telegramId in users
      ensures r.Some? ==> r.value.telegramId == telegramId && r.value == users[telegramId]
    {
      if telegramId in users then Some(users[telegramId]) else None
    }

    method CreateUser(telegramId: int, firstName: string, now: int, fails: bool) returns (r: Option<User>)
      requires Valid()
      modifies this
      ensures Valid()
      ensures (r, Snapshot()) == CreateUserOn(old(Snapshot()), telegramId, firstName, now, fails)
    {
      if fails || telegramId in users {
        r := None;
      } else {
        var u := NewUser(telegramId, firstName, now);
        users := users[telegramId := u];
        r := Some(u);
      }
    }

    method UpdateUser(telegramId: int, patch: UserPatch, now: int, fails: bool) returns (r: Option<User>)
      requires Valid()
      modifies this
      ensures Valid()
      ensures (r, Snapshot()) == UpdateUserOn(old(Snapshot()), telegramId, patch, now, fails)
    {
      if fails || telegramId !in users {
        r := None;
      } else {
        var u := ApplyPatch(users[telegramId], patch, now);
        users := users[telegramId := u];
        r := Some(u);
      }
    }

    method LogWeight(telegramId: int, weight: real, now: int, fails: bool) returns (r: Option<WeightLog>)
      requires Valid() && clock <= now
      modifies this
      ensures Valid()
      ensures (r, Snapshot()) == LogWeightOn(old(Snapshot()), telegramId, weight, now, fails)
    {
      if fails {
        r := None;
      } else {
        var w := WeightLog(nextId, telegramId, weight, now);
        weightLogs := weightLogs + [w];
        nextId := nextId + 1;
        clock := now;
        r := Some(w);
      }
    }

    method StartFast(telegramId: int, now: int, fails: bool) returns (r: Option<FastingPeriod>)
      requires Valid() && clock <= now
      modifies this
      ensures Valid()
      ensures (r, Snapshot()) == StartFastOn(old(Snapshot()), telegramId, now, fails)
    {
      if fails {
        r := None;
      } else {
        var f := FastingPeriod(nextId, telegramId, now, None);
        fasts := fasts + [f];
        nextId := nextId + 1;
        clock := now;
        r := Some(f);
      }
    }

    /** Finds the latest open period, then updates that one row. */
    method EndFast(telegramId: int, now: int, fails: bool) returns (r: Option<FastingPeriod>)
      requires Valid()
      modifies this
      ensures Valid()
      ensures (r, Snapshot()) == EndFastOn(old(Snapshot()), telegramId, now, fails)
    {
      var ix := LastOpenIndex(fasts, telegramId);
      if fails || ix.None? {
        r := None;
      } else {
        var ended := fasts[ix.value].(endedAt := Some(now));
        fasts := fasts[ix.value := ended];
        r := Some(ended);
      }
    }

    method CreateFoodLog(row: FoodLog, now: int, fails: bool) returns (r: Option<FoodLog>)
      requires Valid() && clock <= now
      modifies this
      ensures Valid()
      ensures (r, Snapshot()) == CreateFoodLogOn(old(Snapshot()), row, now, fails)
    {
      if fails {
        r := None;
      } else {
        var f := row.(id := nextId, loggedAt := now);
        foodLogs := foodLogs + [f];
        nextId := nextId + 1;
        clock := now;
        r := Some(f);
      }
    }

    method InsertSession(telegramId: int, token: string, expiresAt: int, now: int, fails: bool) returns (ok: bool)
      requires Valid()
      modifies this
      ensures Valid()
      ensures (ok, Snapshot()) == InsertSessionOn(old(Snapshot()), telegramId, token, expiresAt, now, fails)
    {
      ok := !fails;
      if ok {
        sessions := sessions + [Session(nextId, telegramId, token, expiresAt, now)];
        nextId := nextId + 1;
      }
    }

    method DeleteSession(token: string, fails: bool) returns (ok: bool)
      requires Valid()
      modifies this
      ensures Valid()
      ensures (ok, Snapshot()) == DeleteSessionOn(old(Snapshot()), token, fails)
    {
      ok := !fails;
      if ok {
        sessions := Filter(sessions, TokenIsNot(token));
      }
    }

    method DeleteUserSessions(telegramId: int, fails: bool) returns (ok: bool)
      requires Valid()
      modifies this
      ensures Valid()
      ensures (ok, Snapshot()) == DeleteUserSessionsOn(old(Snapshot()), telegramId, fails)
    {
      ok := !fails;
      if ok {
        sessions := Filter(sessions, UserIsNot(telegramId));
      }
    }

    method InsertLoginCode(code: string, expiresAt: int, fails: bool) returns (r: Option<LoginCode>)
      requires Valid()
      modifies this
      ensures Valid()
      ensures (r, Snapshot()) == InsertLoginCodeOn(old(Snapshot()), code, expiresAt, fails)
    {
      if fails {
        r := None;
      } else {
        var c := LoginCode(nextId, code, Pending, expiresAt, 0, None, None);
        loginCodes := loginCodes + [c];
        nextId := nextId + 1;
        r := Some(c);
      }
    }

    method SetCodeStatus(id: int, status: CodeStatus, fails: bool)
      requires Valid()
      modifies this
      ensures Valid()
      ensures Snapshot() == SetCodeStatusOn(old(Snapshot()), id, status, fails)
    {
      if !fails {
        loginCodes := UpdateWhere(loginCodes, CodeWithId(id), SetStatus(status));
      }
    }

    method MarkCodeVerified(id: int, telegramId: int, token: string, fails: bool)
      requires Valid()
      modifies this
      ensures Valid()
      ensures Snapshot() == MarkCodeVerifiedOn(old(Snapshot()), id, telegramId, token, fails)
    {
      if !fails {
        loginCodes := UpdateWhere(loginCodes, CodeWithId(id), Verify(telegramId, token));
      }
    }
  }
}
