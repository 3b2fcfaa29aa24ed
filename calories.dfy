/** The per-meal-type calorie tally that app/api/calories/today/route.ts and
    app/api/calories/period/route.ts both run over the food logs they read:
    a log without a meal type counts as "other", one without calories as 0,
    and the tally keeps its meal types in the order they first appear (the
    order `Object.entries` lists the keys in). */
module CalorieTally {
  import opened Types

  /** `log.meal_type || 'other'`. */
  function MealTypeOf(log: FoodLog): string {
    if log.mealType.Some? && log.mealType.value != "" then log.mealType.value else "other"
  }

  /** `log.calories || 0`. */
  function CaloriesOf(log: FoodLog): real {
    if log.calories.Some? then log.calories.value else 0.0
  }

  /** The calories of all the logs. */
  function Total(logs: seq<FoodLog>): real {
    if logs == [] then 0.0 else Total(logs[..|logs| - 1]) + CaloriesOf(logs[|logs| - 1])
  }

  /** The calories of the logs of one meal type. */
  function SumFor(logs: seq<FoodLog>, mealType: string): real {
    if logs == [] then 0.0
    else SumFor(logs[..|logs| - 1], mealType) + (if MealTypeOf(logs[|logs| - 1]) == mealType then CaloriesOf(logs[|logs| - 1]) else 0.0)
  }

  /** The meal types of the logs, each once, in order of first appearance. */
  function MealTypes(logs: seq<FoodLog>): (r: seq<string>)
    ensures forall i, j | 0 <= i < j < |r| :: r[i] != r[j]
  {
    if logs == [] then []
    else
      var init := MealTypes(logs[..|logs| - 1]);
      var k := MealTypeOf(logs[|logs| - 1]);
      if k in init then init else init + [k]
  }

  /** The listed meal types are exactly those of the logs. */
  lemma {:induction false} MealTypesCover(logs: seq<FoodLog>)
    ensures forall i | 0 <= i < |logs| :: MealTypeOf(logs[i]) in MealTypes(logs)
    ensures forall k | k in MealTypes(logs) :: exists i | 0 <= i < |logs| :: MealTypeOf(logs[i]) == k
  {
    if logs != [] {
      var init := logs[..|logs| - 1];
      MealTypesCover(init);
      forall k | k in MealTypes(logs)
        ensures exists i | 0 <= i < |logs| :: MealTypeOf(logs[i]) == k
      {
        if k in MealTypes(init) {
          var i :| 0 <= i < |init| && MealTypeOf(init[i]) == k;
          assert logs[i] == init[i];
        } else {
          assert MealTypeOf(logs[|logs| - 1]) == k;
        }
      }
      forall i | 0 <= i < |logs|
        ensures MealTypeOf(logs[i]) in MealTypes(logs)
      {
        if i < |logs| - 1 {
          assert logs[i] == init[i];
        }
      }
    }
  }

  /** The group totals of the meal types `keys`, added up. */
  function SumOver(keys: seq<string>, logs: seq<FoodLog>): real {
    if keys == [] then 0.0 else SumOver(keys[..|keys| - 1], logs) + SumFor(logs, keys[|keys| - 1])
  }

  /** A meal type no log has totals 0. */
  lemma {:induction false} AbsentMealTypeSumsToZero(logs: seq<FoodLog>, mealType: string)
    requires forall i | 0 <= i < |logs| :: MealTypeOf(logs[i]) != mealType
    ensures SumFor(logs, mealType) == 0.0
  {
    if logs != [] {
      AbsentMealTypeSumsToZero(logs[..|logs| - 1], mealType);
    }
  }

  /** One more log adds its calories to exactly one of distinct meal types,
      when its own is among them. */
  lemma {:induction false} SumOverStep(keys: seq<string>, init: seq<FoodLog>, log: FoodLog)
    requires forall i, j | 0 <= i < j < |keys| :: keys[i] != keys[j]
    ensures SumOver(keys, init + [log]) == SumOver(keys, init) + (if MealTypeOf(log) in keys then CaloriesOf(log) else 0.0)
  {
    var logs := init + [log];
    assert logs[..|logs| - 1] == init;
    if keys != [] {
      var front := keys[..|keys| - 1];
      SumOverStep(front, init, log);
      assert MealTypeOf(log) in keys <==> MealTypeOf(log) in front || MealTypeOf(log) == keys[|keys| - 1];
      if MealTypeOf(log) == keys[|keys| - 1] {
        assert MealTypeOf(log) !in front;
      }
    }
  }

  /** Before any averaging, the group totals add up to the total. */
  lemma {:induction false} GroupsAddUp(logs: seq<FoodLog>)
    ensures SumOver(MealTypes(logs), logs) == Total(logs)
  {
    if logs != [] {
      var init := logs[..|logs| - 1];
      var log := logs[|logs| - 1];
      assert logs == init + [log];
      GroupsAddUp(init);
      var keys := MealTypes(init);
      SumOverStep(keys, init, log);
      if MealTypeOf(log) !in keys {
        MealTypesCover(init);
        var all := keys + [MealTypeOf(log)];
        assert all[..|all| - 1] == keys;
        AbsentMealTypeSumsToZero(init, MealTypeOf(log));
      }
    }
  }

  /** With no negative calories, a group never exceeds the total. */
  lemma {:induction false} GroupAtMostTotal(logs: seq<FoodLog>, mealType: string)
    requires forall i | 0 <= i < |logs| :: CaloriesOf(logs[i]) >= 0.0
    ensures 0.0 <= SumFor(logs, mealType) <= Total(logs)
  {
    if logs != [] {
      GroupAtMostTotal(logs[..|logs| - 1], mealType);
    }
  }

  /** The state of the loop after the first `i` logs: the meal types seen so
      far, each one's running sum, and the running total. */
  predicate TalliedUpTo(logs: seq<FoodLog>, i: nat, keys: seq<string>, byType: map<string, real>, total: real)
    requires i <= |logs|
  {
    && keys == MealTypes(logs[..i])
    && (forall k | k in keys :: k in byType && byType[k] == SumFor(logs[..i], k))
    && (forall k | k in byType :: k in keys)
    && total == Total(logs[..i])
  }

  /** One more turn of the loop keeps the tally faithful. */
  lemma TallyStep(logs: seq<FoodLog>, i: nat, keys: seq<string>, byType: map<string, real>, total: real)
    requires i < |logs| && TalliedUpTo(logs, i, keys, byType, total)
    ensures var k := MealTypeOf(logs[i]);
      var c := CaloriesOf(logs[i]);
      TalliedUpTo(logs, i + 1,
                  if k in byType then keys else keys + [k],
                  byType[k := if k in byType then byType[k] + c else c],
                  total + c)
  {
    var before := logs[..i];
    var after := logs[..i + 1];
    assert after[..i] == before;
    var k := MealTypeOf(logs[i]);
    var c := CaloriesOf(logs[i]);
    if k !in byType {
      MealTypesCover(before);
      AbsentMealTypeSumsToZero(before, k);
    }
    var keys' := if k in byType then keys else keys + [k];
    var byType' := byType[k := if k in byType then byType[k] + c else c];
    forall m | m in keys'
      ensures m in byType' && byType'[m] == SumFor(after, m)
    {
      if m != k {
        assert m in keys;
      }
    }
  }

  /** The loop both routes run: meal types in first-appearance order, their
      running sums, and the running total. */
  method Tally(logs: seq<FoodLog>) returns (keys: seq<string>, byType: map<string, real>, total: real)
    ensures keys == MealTypes(logs)
    ensures forall k | k in keys :: k in byType && byType[k] == SumFor(logs, k)
    ensures forall k | k in byType :: k in keys
    ensures total == Total(logs)
  {
    keys := [];
    byType := map[];
    total := 0.0;
    for i := 0 to |logs|
      invariant TalliedUpTo(logs, i, keys, byType, total)
    {
      var mealType := MealTypeOf(logs[i]);
      var calories := CaloriesOf(logs[i]);
      TallyStep(logs, i, keys, byType, total);
      if mealType !in byType {
        keys := keys + [mealType];
        byType := byType[mealType := calories];
      } else {
        byType := byType[mealType := byType[mealType] + calories];
      }
      total := total + calories;
    }
    assert logs[..|logs|] == logs;
  }
}

/** Shared by both routes: turning the tally into the pie chart's slices. */
module CalorieSlices {
  import opened Numeric

  /** One entry of `data`. */
  datatype Slice = Slice(mealType: string, calories: real, percentage: int)

  /** `totalCalories > 0 ? Math.round((calories / totalCalories) * 100) : 0`. */
  function Percentage(calories: real, total: real): (p: int)
    ensures total <= 0.0 ==> p == 0
    ensures total > 0.0 ==> calories / total * 100.0 - 0.5 < p as real <= calories / total * 100.0 + 0.5
  {
    if total > 0.0 then RoundHalfUp(calories / total * 100.0) else 0
  }

  /** A share of a positive total lies between 0 and 100 percent. */
  lemma PercentageBounded(calories: real, total: real)
    requires 0.0 <= calories <= total && total > 0.0
    ensures 0 <= Percentage(calories, total) <= 100
  {
    assert calories / total <= 1.0;
  }

  /** `Object.entries(caloriesByMealType).map(...)`. */
  function Slices(keys: seq<string>, byType: map<string, real>, total: real): (r: seq<Slice>)
    requires forall k | k in keys :: k in byType
    ensures |r| == |keys|
    ensures forall i | 0 <= i < |keys| ::
      r[i] == Slice(keys[i], byType[keys[i]], Percentage(byType[keys[i]], total))
  {
    seq(|keys|, i requires 0 <= i < |keys| => Slice(keys[i], byType[keys[i]], Percentage(byType[keys[i]], total)))
  }
}

/** app/api/calories/today/route.ts: today's calories by meal type. Local
    midnight of the server's time zone is an input. */
module CaloriesTodayRoute {
  import opened Wrappers
  import opened Types
  import opened Supabase
  import opened ApiAuth
  import opened CalorieTally
  import opened CalorieSlices

  datatype TodayResponse = Today(data: seq<Slice>, totalCalories: real) | TodayError(err: ApiError)

  /** The user's logs from local midnight to 23:59:59.999. */
  function TodaysLogs(t: Tables, telegramId: int, midnight: int): seq<FoodLog> {
    FoodLogsBetween(t.foodLogs, telegramId, midnight, midnight + DayMs - 1)
  }

  /** `GET` on tables `t` at time `now`. */
  function CaloriesTodayOn(t: Tables, header: Option<string>, now: int, midnight: int): (r: TodayResponse)
  {
    match ValidateSessionOn(t.sessions, header, now)
    case AuthFailed(err) => TodayError(err)
    case Authed(telegramId) =>
      var logs := TodaysLogs(t, telegramId, midnight);
      var keys := MealTypes(logs);
      var total := Total(logs);
      Today(seq(|keys|, i requires 0 <= i < |keys| => Slice(keys[i], SumFor(logs, keys[i]), Percentage(SumFor(logs, keys[i]), total))), total)
  }

  /** A refused session check is returned unchanged. Otherwise there is one
      slice per meal type among the user's logs of today, each meal type
      once; a slice's calories are that meal type's sum, and the slices add
      up to `totalCalories`, the sum of all of today's logs. */
  lemma TodayTotals(t: Tables, header: Option<string>, now: int, midnight: int)
    ensures var r := CaloriesTodayOn(t, header, now, midnight);
      var auth := ValidateSessionOn(t.sessions, header, now);
      && (auth.AuthFailed? ==> r == TodayError(auth.err))
      && (auth.Authed? ==>
            var logs := TodaysLogs(t, auth.telegramId, midnight);
            && r.Today?
            && (forall l | l in logs :: l.telegramId == auth.telegramId && midnight <= l.loggedAt < midnight + DayMs)
            && (forall i, j | 0 <= i < j < |r.data| :: r.data[i].mealType != r.data[j].mealType)
            && (forall i | 0 <= i < |logs| :: exists j | 0 <= j < |r.data| :: r.data[j].mealType == MealTypeOf(logs[i]))
            && (forall j | 0 <= j < |r.data| :: r.data[j].calories == SumFor(logs, r.data[j].mealType))
            && r.totalCalories == Total(logs)
            && SumOver(MealTypes(logs), logs) == r.totalCalories)
  {
    var auth := ValidateSessionOn(t.sessions, header, now);
    if auth.Authed? {
      var logs := TodaysLogs(t, auth.telegramId, midnight);
      GroupsAddUp(logs);
      MealTypesCover(logs);
      var r := CaloriesTodayOn(t, header, now, midnight);
      var keys := MealTypes(logs);
      forall i | 0 <= i < |logs|
        ensures exists j | 0 <= j < |r.data| :: r.data[j].mealType == MealTypeOf(logs[i])
      {
        var j :| 0 <= j < |keys| && keys[j] == MealTypeOf(logs[i]);
        assert r.data[j].mealType == keys[j];
      }
    }
  }

  /** With no negative calories every percentage is between 0 and 100. */
  lemma TodayPercentagesBounded(t: Tables, header: Option<string>, now: int, midnight: int)
    requires forall l | l in t.foodLogs :: CaloriesOf(l) >= 0.0
    ensures var r := CaloriesTodayOn(t, header, now, midnight);
      r.Today? ==> forall j | 0 <= j < |r.data| :: 0 <= r.data[j].percentage <= 100
  {
    var r := CaloriesTodayOn(t, header, now, midnight);
    if r.Today? {
      var telegramId := ValidateSessionOn(t.sessions, header, now).telegramId;
      var logs := TodaysLogs(t, telegramId, midnight);
      forall j | 0 <= j < |r.data|
        ensures 0 <= r.data[j].percentage <= 100
      {
        GroupAtMostTotal(logs, r.data[j].mealType);
        if Total(logs) > 0.0 {
          PercentageBounded(r.data[j].calories, Total(logs));
        }
      }
    }
  }

  method CaloriesToday(db: Store, header: Option<string>, now: int, midnight: int) returns (r: TodayResponse)
    ensures r == CaloriesTodayOn(db.Snapshot(), header, now, midnight)
  {
    var auth := ValidateSessionOn(db.sessions, header, now);
    if auth.AuthFailed? {
      return TodayError(auth.err);
    }
    var logs := FoodLogsBetween(db.foodLogs, auth.telegramId, midnight, midnight + DayMs - 1);
    var keys, byType, total := Tally(logs);
    r := Today(Slices(keys, byType, total), total);
  }
}

/** app/api/calories/period/route.ts: calories by meal type over one, seven
    or thirty days, as daily averages when longer than a day. */
module CaloriesPeriodRoute {
  import opened Wrappers
  import opened Types
  import opened Numeric
  import opened Supabase
  import opened ApiAuth
  import opened CalorieTally
  import opened CalorieSlices
  import CaloriesTodayRoute

  datatype PeriodResponse =
    | Period(data: seq<Slice>, totalCalories: real, period: string, daysInPeriod: int)
    | PeriodError(err: ApiError)

  /** `searchParams.get('period') || '1d'`. */
  function PeriodParam(param: Option<string>): string {
    if param.Some? && param.value != "" then param.value else "1d"
  }

  /** The number of days a period covers: "7d" and "30d" are recognised,
      anything else is one day. */
  function DaysIn(period: string): (days: int)
    ensures days == 7 <==> period == "7d"
    ensures days == 30 <==> period == "30d"
    ensures days == 1 <==> period != "7d" && period != "30d"
  {
    if period == "7d" then 7 else if period == "30d" then 30 else 1
  }

  /** The window: local midnight `days - 1` days ago to 23:59:59.999 today. */
  function WindowStart(midnight: int, days: int): int { midnight - (days - 1) * DayMs }
  function WindowEnd(midnight: int): int { midnight + DayMs - 1 }

  /** `Math.round(x / days)`: a daily average, only when `days > 1`. */
  function Averaged(x: real, days: int): real
    requires days >= 1
  {
    if days > 1 then RoundHalfUp(x / days as real) as real else x
  }

  /** `GET` on tables `t` at time `now`. */
  function CaloriesPeriodOn(t: Tables, header: Option<string>, param: Option<string>, now: int, midnight: int): (r: PeriodResponse)
  {
    match ValidateSessionOn(t.sessions, header, now)
    case AuthFailed(err) => PeriodError(err)
    case Authed(telegramId) =>
      var period := PeriodParam(param);
      var days := DaysIn(period);
      var logs := FoodLogsBetween(t.foodLogs, telegramId, WindowStart(midnight, days), WindowEnd(midnight));
      var keys := MealTypes(logs);
      var total := Averaged(Total(logs), days);
      Period(Slices(keys, DailyAverages(logs, keys, days), total), total, period, days)
  }

  /** The meal types' sums, averaged over the days. */
  function DailyAverages(logs: seq<FoodLog>, keys: seq<string>, days: int): (m: map<string, real>)
    requires days >= 1
    ensures forall k :: k in m <==> k in keys
  {
    map k | k in keys :: Averaged(SumFor(logs, k), days)
  }

  /** The second loop: each entry replaced in place by its daily average. */
  method AverageByDay(keys: seq<string>, byType: map<string, real>, days: int) returns (averaged: map<string, real>)
    requires days > 1
    requires forall k :: k in byType <==> k in keys
    ensures forall k :: k in averaged <==> k in keys
    ensures forall k | k in averaged :: averaged[k] == Averaged(byType[k], days)
  {
    averaged := byType;
    for i := 0 to |keys|
      invariant forall k :: k in averaged <==> k in keys
      invariant forall k | k in keys[..i] :: averaged[k] == RoundHalfUp(byType[k] / days as real) as real
      invariant forall k | k in keys && k !in keys[..i] :: averaged[k] == byType[k]
    {
      assert keys[..i + 1] == keys[..i] + [keys[i]];
      if keys[i] !in keys[..i] {
        averaged := averaged[keys[i] := RoundHalfUp(averaged[keys[i]] / days as real) as real];
      }
    }
    assert keys[..|keys|] == keys;
  }

  /** A refused session check is returned unchanged. Otherwise the period
      and its day count are echoed, the window covers exactly those days,
      there is one slice per meal type each once, and each slice and the
      total are the window's sums divided by the day count and rounded when
      the period is longer than a day. */
  lemma PeriodTotals(t: Tables, header: Option<string>, param: Option<string>, now: int, midnight: int)
    ensures var r := CaloriesPeriodOn(t, header, param, now, midnight);
      var auth := ValidateSessionOn(t.sessions, header, now);
      && (auth.AuthFailed? ==> r == PeriodError(auth.err))
      && (auth.Authed? ==>
            var days := DaysIn(PeriodParam(param));
            var logs := FoodLogsBetween(t.foodLogs, auth.telegramId, WindowStart(midnight, days), WindowEnd(midnight));
            && r.Period?
            && r.period == PeriodParam(param) && r.daysInPeriod == days
            && (forall l | l in logs :: midnight - (days - 1) * DayMs <= l.loggedAt < midnight + DayMs)
            && (forall i, j | 0 <= i < j < |r.data| :: r.data[i].mealType != r.data[j].mealType)
            && (forall j | 0 <= j < |r.data| ::
                  && (days == 1 ==> r.data[j].calories == SumFor(logs, r.data[j].mealType))
                  && (days > 1 ==> r.data[j].calories == RoundHalfUp(SumFor(logs, r.data[j].mealType) / days as real) as real))
            && (days == 1 ==> r.totalCalories == Total(logs))
            && (days > 1 ==> r.totalCalories == RoundHalfUp(Total(logs) / days as real) as real))
  {
  }

  /** Without a recognised period the route answers as the today route
      does, echoing "1d" or the unrecognised value with one day. */
  lemma OneDayMatchesToday(t: Tables, header: Option<string>, param: Option<string>, now: int, midnight: int)
    requires DaysIn(PeriodParam(param)) == 1
    ensures var r := CaloriesPeriodOn(t, header, param, now, midnight);
      match CaloriesTodayRoute.CaloriesTodayOn(t, header, now, midnight)
      case TodayError(err) => r == PeriodError(err)
      case Today(data, total) => r == Period(data, total, PeriodParam(param), 1)
  {
  }

  /** The tally of the window's logs, averaged when longer than a day. */
  method Summarise(logs: seq<FoodLog>, days: int) returns (data: seq<Slice>, total: real)
    requires days >= 1
    ensures total == Averaged(Total(logs), days)
    ensures data == Slices(MealTypes(logs), DailyAverages(logs, MealTypes(logs), days), total)
  {
    var keys, byType;
    keys, byType, total := Tally(logs);
    if days > 1 {
      byType := AverageByDay(keys, byType, days);
      total := RoundHalfUp(total / days as real) as real;
    }
    assert byType == DailyAverages(logs, keys, days);
    data := Slices(keys, byType, total);
  }

  method CaloriesPeriod(db: Store, header: Option<string>, param: Option<string>, now: int, midnight: int)
    returns (r: PeriodResponse)
    ensures r == CaloriesPeriodOn(db.Snapshot(), header, param, now, midnight)
  {
    ghost var t := db.Snapshot();
    var auth := ValidateSessionOn(db.sessions, header, now);
    assert auth == ValidateSessionOn(t.sessions, header, now);
    if auth.AuthFailed? {
      return PeriodError(auth.err);
    }
    var period := PeriodParam(param);
    var days := 1;
    if period == "7d" {
      days := 7;
    } else if period == "30d" {
      days := 30;
    }
    assert days == DaysIn(period);
    var logs := FoodLogsBetween(db.foodLogs, auth.telegramId, midnight - (days - 1) * DayMs, midnight + DayMs - 1);
    assert logs == FoodLogsBetween(t.foodLogs, auth.telegramId, WindowStart(midnight, days), WindowEnd(midnight));
    var data, total := Summarise(logs, days);
    r := Period(data, total, period, days);
  }
}
