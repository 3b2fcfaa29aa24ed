/** lib/mastra/agents/daily-summary-agent.ts: the two tools the daily
    summary agent calls. The day is the server's local day: `midnight` is
    its first millisecond. */
module DailySummaryTools {
  import opened Wrappers
  import opened Types
  import opened Numeric
  import opened Supabase
  import CalorieTally

  const UserNotFound := "User not found"
  const NoMealsToday := "No meals logged today yet."

  /** `get_user_profile`: an error status, or the two weights. */
  datatype WeightsReply = WeightsError(message: string) | Weights(currentWeight: Option<real>, goalWeight: Option<real>)

  function UserWeightsOn(users: map<int, User>, telegramId: int): (r: WeightsReply)
    ensures r.WeightsError? <==> telegramId !in users
    ensures r.WeightsError? ==> r.message == UserNotFound
    ensures r.Weights? ==> r.currentWeight == users[telegramId].currentWeight && r.goalWeight == users[telegramId].goalWeight
  {
    if telegramId !in users then WeightsError(UserNotFound)
    else Weights(users[telegramId].currentWeight, users[telegramId].goalWeight)
  }

  /** One entry of `meals`. */
  datatype MealLine = MealLine(mealType: Option<string>, calories: Option<real>, foodItems: seq<string>, loggedAt: int)

  datatype Totals = Totals(calories: int, protein: int, carbs: int, fat: int)

  /** `get_todays_food_logs`: `no_data`, or the rounded totals and one line
      per log. */
  datatype DayReply = NoData(message: string) | DaySummary(totalMeals: nat, totals: Totals, meals: seq<MealLine>)

  /** `x || 0` on a nullable column: null (and 0) count as 0. */
  function OrZero(x: Option<real>): real {
    if x.Some? then x.value else 0.0
  }

  function CaloriesCol(l: FoodLog): Option<real> { l.calories }
  function ProteinCol(l: FoodLog): Option<real> { l.protein }
  function CarbsCol(l: FoodLog): Option<real> { l.carbs }
  function FatCol(l: FoodLog): Option<real> { l.fat }

  /** The `reduce` over one column, as a sum from the first log on. */
  function SumOf(logs: seq<FoodLog>, col: FoodLog -> Option<real>): real {
    if logs == [] then 0.0 else SumOf(logs[..|logs| - 1], col) + OrZero(col(logs[|logs| - 1]))
  }

  /** The sum over two runs of logs is the sum of their sums. */
  lemma {:induction false} SumOfAppend(a: seq<FoodLog>, b: seq<FoodLog>, col: FoodLog -> Option<real>)
    ensures SumOf(a + b, col) == SumOf(a, col) + SumOf(b, col)
  {
    if b != [] {
      assert (a + b)[..|a + b| - 1] == a + b[..|b| - 1];
      SumOfAppend(a, b[..|b| - 1], col);
    } else {
      assert a + b == a;
    }
  }

  /** The calorie total of the tool is the total the calorie routes group
      by meal type: both count a null `calories` as 0. */
  lemma {:induction false} CaloriesSumIsRouteTotal(logs: seq<FoodLog>)
    ensures SumOf(logs, CaloriesCol) == CalorieTally.Total(logs)
  {
    if logs != [] {
      CaloriesSumIsRouteTotal(logs[..|logs| - 1]);
    }
  }

  /** `food_items?.map(item => item.name) || []`. */
  function ItemNames(items: Option<seq<FoodItem>>): (r: seq<string>)
    ensures items.None? ==> r == []
    ensures items.Some? ==> |r| == |items.value| && forall i | 0 <= i < |r| :: r[i] == items.value[i].name
  {
    if items.None? then []
    else seq(|items.value|, i requires 0 <= i < |items.value| => items.value[i].name)
  }

  function MealLineOf(l: FoodLog): MealLine {
    MealLine(l.mealType, l.calories, ItemNames(l.foodItems), l.loggedAt)
  }

  function TodaysFoodLogsOn(t: Tables, telegramId: int, midnight: int): (r: DayReply)
  {
    var logs := FoodLogsBetween(t.foodLogs, telegramId, midnight, midnight + DayMs - 1);
    if |logs| == 0 then NoData(NoMealsToday)
    else
      DaySummary(
        |logs|,
        Totals(RoundHalfUp(SumOf(logs, CaloriesCol)), RoundHalfUp(SumOf(logs, ProteinCol)),
               RoundHalfUp(SumOf(logs, CarbsCol)), RoundHalfUp(SumOf(logs, FatCol))),
        seq(|logs|, i requires 0 <= i < |logs| => MealLineOf(logs[i])))
  }

  /** `no_data` exactly when the user logged nothing in the day. Otherwise
      `total_meals` is the number of the day's logs, each total is within
      one half of the column's sum (nulls as 0), the calorie total is the
      calorie routes' total rounded, and `meals` lists the logs in order
      with their item names. */
  lemma TodaysFoodLogsSpec(t: Tables, telegramId: int, midnight: int)
    ensures var r := TodaysFoodLogsOn(t, telegramId, midnight);
      var logs := FoodLogsBetween(t.foodLogs, telegramId, midnight, midnight + DayMs - 1);
      && (r.NoData? <==> forall l | l in t.foodLogs :: !(l.telegramId == telegramId && midnight <= l.loggedAt < midnight + DayMs))
      && (r.NoData? ==> r.message == NoMealsToday)
      && (r.DaySummary? ==>
            && r.totalMeals == |logs|
            && r.totals.calories == RoundHalfUp(CalorieTally.Total(logs))
            && SumOf(logs, ProteinCol) - 0.5 < r.totals.protein as real <= SumOf(logs, ProteinCol) + 0.5
            && SumOf(logs, CarbsCol) - 0.5 < r.totals.carbs as real <= SumOf(logs, CarbsCol) + 0.5
            && SumOf(logs, FatCol) - 0.5 < r.totals.fat as real <= SumOf(logs, FatCol) + 0.5
            && |r.meals| == |logs|
            && forall i | 0 <= i < |logs| ::
                 && r.meals[i].mealType == logs[i].mealType
                 && r.meals[i].calories == logs[i].calories
                 && r.meals[i].loggedAt == logs[i].loggedAt
                 && r.meals[i].foodItems == ItemNames(logs[i].foodItems))
  {
    var logs := FoodLogsBetween(t.foodLogs, telegramId, midnight, midnight + DayMs - 1);
    CaloriesSumIsRouteTotal(logs);
    if |logs| > 0 {
      assert logs[0] in logs;
    }
  }
}

/** lib/agents/insights-agent.ts: the four statistics tools of the insights
    agent. */
module InsightsTools {
  import opened Wrappers
  import opened Types
  import opened Numeric
  import opened Supabase
  import CalorieTally
  import DailySummaryTools

  const UserNotFound := "User not found"
  const NoWeightHistory := "No weight history found. Encourage user to log their weight regularly."
  const NoCompletedFasts := "No completed fasting periods found. Encourage user to try intermittent fasting."
  const NoFoodLogs := "No food logs found. Encourage user to start logging their meals."

  const DefaultWeightDays: nat := 30
  const DefaultFastingLimit: nat := 14
  const DefaultFoodLimit: nat := 20
  /** Completed periods listed in the reply. */
  const ListedFasts: nat := 7
  /** Meals listed in the reply. */
  const ListedMeals: nat := 10
  const HourMs: int := 3600000

  // ---------------------------------------------------------------------
  // get_user_profile
  // ---------------------------------------------------------------------

  datatype ProfileReply =
    | ProfileError(message: string)
    | Profile(currentWeight: Option<real>, goalWeight: Option<real>, height: Option<real>, weightToLose: Option<real>)

  /** A nullable number is truthy when present and not 0. */
  predicate TruthyWeight(w: Option<real>) {
    w.Some? && w.value != 0.0
  }

  /** `current && goal ? current - goal : null`. */
  function WeightToLose(current: Option<real>, goal: Option<real>): (r: Option<real>)
    ensures r.Some? <==> TruthyWeight(current) && TruthyWeight(goal)
    ensures r.Some? ==> r.value == current.value - goal.value
  {
    if TruthyWeight(current) && TruthyWeight(goal) then Some(current.value - goal.value) else None
  }

  function ProfileOn(users: map<int, User>, telegramId: int): (r: ProfileReply)
  {
    if telegramId !in users then ProfileError(UserNotFound)
    else
      var u := users[telegramId];
      Profile(u.currentWeight, u.goalWeight, u.height, WeightToLose(u.currentWeight, u.goalWeight))
  }

  /** An unknown user gets the error; a known one gets the three stored
      measurements, and `weight_to_lose` only when both weights are set and
      non-zero, so a weight of 0 yields null. */
  lemma ProfileSpec(users: map<int, User>, telegramId: int)
    ensures var r := ProfileOn(users, telegramId);
      && (r.ProfileError? <==> telegramId !in users)
      && (r.ProfileError? ==> r.message == UserNotFound)
      && (r.Profile? ==>
            var u := users[telegramId];
            && r.currentWeight == u.currentWeight && r.goalWeight == u.goalWeight && r.height == u.height
            && (r.weightToLose.Some? <==> u.currentWeight.Some? && u.goalWeight.Some? && u.currentWeight.value != 0.0 && u.goalWeight.value != 0.0)
            && (r.weightToLose.Some? ==> r.weightToLose.value == u.currentWeight.value - u.goalWeight.value))
  {
  }

  // ---------------------------------------------------------------------
  // get_weight_history
  // ---------------------------------------------------------------------

  datatype WeightPoint = WeightPoint(weight: real, loggedAt: int)

  datatype WeightReply = WeightNoData(message: string) | WeightTrend(totalEntries: nat, weightLogs: seq<WeightPoint>)

  /** The tool passes its `days` argument to `getWeightHistory`, whose
      second parameter is a row limit: at most `days` entries come back,
      whatever dates they carry. */
  function WeightHistoryToolOn(t: Tables, telegramId: int, days: nat): (r: WeightReply)
  {
    var history := WeightHistory(t.weightLogs, telegramId, days);
    if |history| == 0 then WeightNoData(NoWeightHistory)
    else WeightTrend(|history|, seq(|history|, i requires 0 <= i < |history| => WeightPoint(history[i].weight, history[i].loggedAt)))
  }

  /** `no_data` exactly when `days` is 0 or the user has no weight log;
      otherwise `total_entries` is the number of entries listed, at most
      `days`, each the weight and time of a fetched log in order. */
  lemma WeightHistoryToolSpec(t: Tables, telegramId: int, days: nat)
    ensures var r := WeightHistoryToolOn(t, telegramId, days);
      var history := WeightHistory(t.weightLogs, telegramId, days);
      && (r.WeightNoData? <==> days == 0 || forall w | w in t.weightLogs :: w.telegramId != telegramId)
      && (r.WeightNoData? ==> r.message == NoWeightHistory)
      && (r.WeightTrend? ==>
            && r.totalEntries == |history| == |r.weightLogs| <= days
            && forall i | 0 <= i < |history| :: r.weightLogs[i] == WeightPoint(history[i].weight, history[i].loggedAt))
  {
    var f := Filter(t.weightLogs, WeightOf(telegramId));
    if days > 0 && |f| > 0 {
      assert f[|f| - 1] in f;
      assert Reverse(f)[0] == f[|f| - 1];
    }
  }

  /** In a table filled in time order the entries are the user's newest,
      newest first: no log of the user left out is newer than one listed. */
  lemma WeightHistoryNewest(t: Tables, telegramId: int, days: nat)
    requires ValidTables(t)
    ensures var history := WeightHistory(t.weightLogs, telegramId, days);
      && (forall i, j | 0 <= i < j < |history| :: history[i].loggedAt >= history[j].loggedAt)
      && forall w, i | w in t.weightLogs && w.telegramId == telegramId && w !in history && 0 <= i < |history| ::
           w.loggedAt <= history[i].loggedAt
  {
    NewestFirstSpec(t.weightLogs, WeightOf(telegramId), LoggedAt, days);
    var history := WeightHistory(t.weightLogs, telegramId, days);
    forall i, j | 0 <= i < j < |history| ensures history[i].loggedAt >= history[j].loggedAt {
      assert LoggedAt(history[i]) >= LoggedAt(history[j]);
    }
    forall w, i | w in t.weightLogs && w.telegramId == telegramId && w !in history && 0 <= i < |history|
      ensures w.loggedAt <= history[i].loggedAt
    {
      assert history[i] in history;
      assert LoggedAt(w) <= LoggedAt(history[i]);
    }
  }

  // ---------------------------------------------------------------------
  // get_fasting_history
  // ---------------------------------------------------------------------

  datatype FastSpan = FastSpan(startedAt: int, endedAt: int)

  datatype FastingReply =
    | FastingNoData(message: string)
    | FastingStats(totalFasts: nat, averageDurationHours: real, fastingPeriods: seq<FastSpan>)

  function IsCompleted(f: FastingPeriod): bool {
    f.endedAt.Some?
  }

  /** `(end - start) / (1000 * 60 * 60)`. */
  function HoursOf(f: FastingPeriod): real
    requires IsCompleted(f)
  {
    (f.endedAt.value - f.startedAt) as real / HourMs as real
  }

  /** The `reduce` of the durations. */
  function SumHours(fs: seq<FastingPeriod>): real
    requires forall f | f in fs :: IsCompleted(f)
  {
    if fs == [] then 0.0 else SumHours(fs[..|fs| - 1]) + HoursOf(fs[|fs| - 1])
  }

  /** `Math.round(x * 10) / 10`: the nearest tenth, halves up. */
  function RoundTenth(x: real): (r: real)
    ensures x - 0.05 < r <= x + 0.05
  {
    RoundHalfUp(x * 10.0) as real / 10.0
  }

  function Span(f: FastingPeriod): FastSpan
    requires IsCompleted(f)
  {
    FastSpan(f.startedAt, f.endedAt.value)
  }

  /** The reply for the completed periods `done`, in history order. */
  function FastingStatsOf(done: seq<FastingPeriod>): (r: FastingReply)
    requires forall f | f in done :: IsCompleted(f)
  {
    if |done| == 0 then FastingNoData(NoCompletedFasts)
    else
      var listed := Take(done, ListedFasts);
      assert forall f | f in listed :: f in done;
      FastingStats(|done|, RoundTenth(SumHours(done) / |done| as real),
                   seq(|listed|, i requires 0 <= i < |listed| => Span(listed[i])))
  }

  function FastingHistoryToolOn(t: Tables, telegramId: int, limit: nat): (r: FastingReply)
  {
    FastingStatsOf(Filter(FastingHistory(t.fasts, telegramId, limit), IsCompleted))
  }

  /** `no_data` exactly for no periods; otherwise the count, the mean
      hours to the rounding's 0.05, and the spans of the first 7 periods. */
  lemma FastingStatsSpec(done: seq<FastingPeriod>)
    requires forall f | f in done :: IsCompleted(f)
    ensures var r := FastingStatsOf(done);
      && (r.FastingNoData? <==> done == [])
      && (r.FastingNoData? ==> r.message == NoCompletedFasts)
      && (r.FastingStats? ==>
            && r.totalFasts == |done|
            && SumHours(done) / |done| as real - 0.05 < r.averageDurationHours <= SumHours(done) / |done| as real + 0.05
            && |r.fastingPeriods| == (if |done| < ListedFasts then |done| else ListedFasts)
            && forall i | 0 <= i < |r.fastingPeriods| :: r.fastingPeriods[i] == Span(done[i]))
  {
  }

  /** `n` copies of `x` added up. */
  function Times(n: nat, x: real): real {
    if n == 0 then 0.0 else Times(n - 1, x) + x
  }

  lemma {:induction false} TimesIsProduct(n: nat, x: real)
    ensures Times(n, x) == n as real * x
  {
    if n > 0 {
      TimesIsProduct(n - 1, x);
    }
  }

  /** Sums of durations each between `lo` and `hi` lie between `n` times
      `lo` and `n` times `hi`. */
  lemma {:induction false} SumHoursBetween(fs: seq<FastingPeriod>, lo: real, hi: real)
    requires forall f | f in fs :: IsCompleted(f) && lo <= HoursOf(f) <= hi
    ensures Times(|fs|, lo) <= SumHours(fs) <= Times(|fs|, hi)
  {
    if fs != [] {
      var init := fs[..|fs| - 1];
      assert forall f | f in init :: f in fs;
      SumHoursBetween(init, lo, hi);
      assert fs[|fs| - 1] in fs;
    }
  }

  /** A mean of values between `lo` and `hi` lies between them. */
  lemma MeanBetween(sum: real, n: nat, lo: real, hi: real)
    requires n > 0 && Times(n, lo) <= sum <= Times(n, hi)
    ensures lo <= sum / n as real <= hi
  {
    TimesIsProduct(n, lo);
    TimesIsProduct(n, hi);
    assert sum == n as real * (sum / n as real);
  }

  /** Only completed periods count, and `no_data` comes exactly when none of
      the fetched ones is completed. The average is within 0.05 hours of the
      mean duration; at most 7 periods are listed, the first ones of the
      completed history. */
  lemma FastingHistoryToolSpec(t: Tables, telegramId: int, limit: nat)
    ensures var r := FastingHistoryToolOn(t, telegramId, limit);
      var done := Filter(FastingHistory(t.fasts, telegramId, limit), IsCompleted);
      && (r.FastingNoData? <==> forall f | f in FastingHistory(t.fasts, telegramId, limit) :: f.endedAt.None?)
      && (r.FastingNoData? ==> r.message == NoCompletedFasts)
      && (r.FastingStats? ==>
            && r.totalFasts == |done|
            && SumHours(done) / |done| as real - 0.05 < r.averageDurationHours <= SumHours(done) / |done| as real + 0.05
            && |r.fastingPeriods| == (if |done| < ListedFasts then |done| else ListedFasts)
            && forall i | 0 <= i < |r.fastingPeriods| ::
                 && done[i].telegramId == telegramId
                 && done[i].endedAt.Some?
                 && r.fastingPeriods[i] == FastSpan(done[i].startedAt, done[i].endedAt.value))
  {
    var history := FastingHistory(t.fasts, telegramId, limit);
    FastingStatsSpec(Filter(history, IsCompleted));
    CompletedOfHistory(history, telegramId);
  }

  /** The completed periods of one user's history are that user's, and
      there are none exactly when every period is still open. */
  lemma CompletedOfHistory(history: seq<FastingPeriod>, telegramId: int)
    requires forall f | f in history :: f.telegramId == telegramId
    ensures var done := Filter(history, IsCompleted);
      && (done == [] <==> forall f | f in history :: f.endedAt.None?)
      && forall i | 0 <= i < |done| :: done[i].telegramId == telegramId && done[i].endedAt.Some?
  {
    var done := Filter(history, IsCompleted);
    if |done| > 0 {
      assert done[0] in done;
    }
    assert forall i | 0 <= i < |done| :: done[i] in done;
  }

  /** When every completed fast lasted between `lo` and `hi` hours, the
      reported average lies between them, to the rounding's 0.05. */
  lemma AverageWithinDurations(t: Tables, telegramId: int, limit: nat, lo: real, hi: real)
    requires forall f | f in FastingHistory(t.fasts, telegramId, limit) && IsCompleted(f) :: lo <= HoursOf(f) <= hi
    ensures var r := FastingHistoryToolOn(t, telegramId, limit);
      r.FastingStats? ==> lo - 0.05 < r.averageDurationHours <= hi + 0.05
  {
    var done := Filter(FastingHistory(t.fasts, telegramId, limit), IsCompleted);
    if |done| > 0 {
      SumHoursBetween(done, lo, hi);
      MeanBetween(SumHours(done), |done|, lo, hi);
    }
  }

  // ---------------------------------------------------------------------
  // get_food_logs
  // ---------------------------------------------------------------------

  datatype RecentMeal = RecentMeal(mealType: Option<string>, calories: Option<real>, loggedAt: int, foodItems: seq<string>)

  datatype FoodReply =
    | FoodNoData(message: string)
    | FoodStats(totalMeals: nat, averageCaloriesPerMeal: int, recentMeals: seq<RecentMeal>)

  function RecentMealOf(l: FoodLog): RecentMeal {
    RecentMeal(l.mealType, l.calories, l.loggedAt, DailySummaryTools.ItemNames(l.foodItems))
  }

  /** The reply for the fetched logs, newest first. */
  function FoodStatsOf(logs: seq<FoodLog>): (r: FoodReply)
  {
    if |logs| == 0 then FoodNoData(NoFoodLogs)
    else
      var listed := Take(logs, ListedMeals);
      FoodStats(|logs|, RoundHalfUp(CalorieTally.Total(logs) / |logs| as real),
                seq(|listed|, i requires 0 <= i < |listed| => RecentMealOf(listed[i])))
  }

  function FoodLogsToolOn(t: Tables, telegramId: int, limit: nat): (r: FoodReply)
  {
    FoodStatsOf(RecentFoodLogs(t.foodLogs, telegramId, limit))
  }

  /** `no_data` exactly for no logs; otherwise the count, the mean calories
      rounded (within one half), and the first ten logs in order. */
  lemma FoodStatsSpec(logs: seq<FoodLog>)
    ensures var r := FoodStatsOf(logs);
      && (r.FoodNoData? <==> logs == [])
      && (r.FoodNoData? ==> r.message == NoFoodLogs)
      && (r.FoodStats? ==>
            var mean := CalorieTally.Total(logs) / |logs| as real;
            && r.totalMeals == |logs|
            && mean - 0.5 < r.averageCaloriesPerMeal as real <= mean + 0.5
            && |r.recentMeals| == (if |logs| < ListedMeals then |logs| else ListedMeals)
            && forall i | 0 <= i < |r.recentMeals| :: r.recentMeals[i] == RecentMealOf(logs[i]))
  {
  }

  /** A user's recent logs are empty exactly when the limit is 0 or the
      user has logged nothing. */
  lemma RecentFoodLogsEmpty(logs: seq<FoodLog>, telegramId: int, limit: nat)
    ensures RecentFoodLogs(logs, telegramId, limit) == [] <==> limit == 0 || forall l | l in logs :: l.telegramId != telegramId
  {
    var f := Filter(logs, FoodOf(telegramId));
    if |f| > 0 && limit > 0 {
      assert f[|f| - 1] in f;
      assert Reverse(f)[0] == f[|f| - 1];
    }
  }

  /** `no_data` exactly when `limit` is 0 or the user has no food log;
      otherwise the average is the mean calories per fetched meal rounded
      (within one half), and the first ten fetched meals are listed in
      order. */
  lemma FoodLogsToolSpec(t: Tables, telegramId: int, limit: nat)
    ensures var r := FoodLogsToolOn(t, telegramId, limit);
      var logs := RecentFoodLogs(t.foodLogs, telegramId, limit);
      && (r.FoodNoData? <==> limit == 0 || forall l | l in t.foodLogs :: l.telegramId != telegramId)
      && (r.FoodNoData? ==> r.message == NoFoodLogs)
      && (r.FoodStats? ==>
            var mean := CalorieTally.Total(logs) / |logs| as real;
            && r.totalMeals == |logs| <= limit
            && mean - 0.5 < r.averageCaloriesPerMeal as real <= mean + 0.5
            && |r.recentMeals| == (if |logs| < ListedMeals then |logs| else ListedMeals)
            && forall i | 0 <= i < |r.recentMeals| ::
                 r.recentMeals[i] == RecentMeal(logs[i].mealType, logs[i].calories, logs[i].loggedAt, DailySummaryTools.ItemNames(logs[i].foodItems)))
  {
    FoodStatsSpec(RecentFoodLogs(t.foodLogs, telegramId, limit));
    RecentFoodLogsEmpty(t.foodLogs, telegramId, limit);
  }
}

/** lib/mastra/agents/food-analyzer.ts: `parseFoodItems` and the
    `log_food_to_database` tool. The values a language model hands the tool
    are JavaScript values; `JSON.parse` is an input (`None` when it throws),
    and so is `Number.prototype.toString`, the only other conversion the
    tool makes that is not written out here. */
module FoodAnalyzerTool {
  import opened Wrappers
  import opened Strings
  import opened Numeric
  import opened Types
  import opened Supabase

  /** A JavaScript value as `parseFoodItems` sees it: an object is seen
      through the three properties it reads. */
  datatype JsValue =
    | Undefined
    | Null
    | Bool(b: bool)
    | Number(n: Num)
    | Str(s: string)
    | Array(elems: seq<JsValue>)
    | Object(name: JsValue, calories: JsValue, portion: JsValue)

  /** JavaScript truthiness. */
  predicate Truthy(v: JsValue) {
    match v
    case Undefined => false
    case Null => false
    case Bool(b) => b
    case Number(n) => n.NegInf? || n.PosInf? || (n.Finite? && n.value != 0.0)
    case Str(s) => s != ""
    case Array(_) => true
    case Object(_, _, _) => true
  }

  /** `String(v)`; an array is its elements' strings joined with ",",
      null and undefined elements giving "". */
  function ToStr(v: JsValue, numberText: Num -> string): (r: string)
    ensures v.Str? ==> r == v.s
    ensures v == Array([]) ==> r == ""
    ensures v.Object? ==> r == "[object Object]"
    decreases v, 1
  {
    match v
    case Undefined => "undefined"
    case Null => "null"
    case Bool(b) => if b then "true" else "false"
    case Number(n) => numberText(n)
    case Str(s) => s
    case Array(es) => JoinElems(es, numberText)
    case Object(_, _, _) => "[object Object]"
  }

  function JoinElems(es: seq<JsValue>, numberText: Num -> string): string
    decreases es, 0
  {
    if es == [] then ""
    else
      var head := if es[0].Undefined? || es[0].Null? then "" else ToStr(es[0], numberText);
      if |es| == 1 then head else head + "," + JoinElems(es[1..], numberText)
  }

  /** `Number(v)`. Arrays convert through their string form. */
  function ToNumber(v: JsValue, numberText: Num -> string): (r: Num)
    ensures v.Null? || v == Bool(false) || v == Array([]) ==> r == Finite(0.0)
    ensures v == Bool(true) ==> r == Finite(1.0)
    ensures v.Undefined? || v.Object? ==> r == NaN
    ensures v.Str? && Trim(v.s) == [] ==> r == Finite(0.0)
  {
    match v
    case Undefined => NaN
    case Null => Finite(0.0)
    case Bool(b) => Finite(if b then 1.0 else 0.0)
    case Number(n) => n
    case Str(s) => StringToNumber(s)
    case Array(_) => StringToNumber(ToStr(v, numberText))
    case Object(_, _, _) => NaN
  }

  /** An array converts through its joined text: `[]` and `[null]` are 0,
      and a one-element array reads as its element's text. */
  lemma ArrayNumbers(x: JsValue, numberText: Num -> string)
    ensures ToNumber(Array([Null]), numberText) == Finite(0.0)
    ensures !x.Undefined? && !x.Null? ==> ToNumber(Array([x]), numberText) == StringToNumber(ToStr(x, numberText))
  {
    SingletonText(Null, numberText);
    SingletonText(x, numberText);
    assert Trim("") == [];
  }

  /** A one-element array prints as its element; null and undefined as "". */
  lemma SingletonText(x: JsValue, numberText: Num -> string)
    ensures ToStr(Array([x]), numberText) == if x.Undefined? || x.Null? then "" else ToStr(x, numberText)
  {
    assert JoinElems([x], numberText) == if x.Undefined? || x.Null? then "" else ToStr(x, numberText);
  }

  /** `x || fallback`. */
  function Or(v: JsValue, fallback: JsValue): JsValue {
    if Truthy(v) then v else fallback
  }

  /** `Number(x) || 0`: NaN and 0 become 0. */
  function NumberOrZero(n: Num): (r: Num)
    ensures r.Finite? && r.value == 0.0 <==> n.NaN? || (n.Finite? && n.value == 0.0)
    ensures r != Finite(0.0) ==> r == n
  {
    if n.NaN? || (n.Finite? && n.value == 0.0) then Finite(0.0) else n
  }

  /** The mapped entry for one element; reading a property of null or
      undefined throws, which is `None`. */
  function ItemOf(v: JsValue, numberText: Num -> string): (r: Option<FoodItem>)
    ensures r.None? <==> v.Undefined? || v.Null?
  {
    match v
    case Undefined => None
    case Null => None
    case Object(name, calories, portion) =>
      Some(FoodItem(ToStr(Or(name, Str("")), numberText),
                    NumberOrZero(ToNumber(calories, numberText)),
                    ToStr(Or(portion, Str("")), numberText)))
    case _ => Some(FoodItem("", Finite(0.0), ""))
  }

  /** `elems.map(...)`: `None` when some element throws. */
  function MapItems(es: seq<JsValue>, numberText: Num -> string): (r: Option<seq<FoodItem>>)
    ensures r.Some? <==> forall i | 0 <= i < |es| :: ItemOf(es[i], numberText).Some?
    ensures r.Some? ==> |r.value| == |es| && forall i | 0 <= i < |es| :: r.value[i] == ItemOf(es[i], numberText).value
  {
    if es == [] then Some([])
    else match (ItemOf(es[0], numberText), MapItems(es[1..], numberText))
      case (Some(x), Some(xs)) =>
        assert forall i | 1 <= i < |es| :: es[i] == es[1..][i - 1];
        Some([x] + xs)
      case (None, _) => None
      case (_, None) =>
        assert forall i | 0 <= i < |es[1..]| :: es[1..][i] == es[i + 1];
        None
  }

  /** `parseFoodItems(items)`: `None` when it throws. A string is parsed
      inside a `try`, so a throw there yields []; an array is mapped
      outside it, so a throw there propagates. */
  function ParseFoodItems(items: JsValue, parse: string -> Option<JsValue>, numberText: Num -> string): (r: Option<seq<FoodItem>>)
    ensures r.None? ==> items.Array?
    ensures !items.Str? && !items.Array? ==> r == Some([])
  {
    match items
    case Str(s) =>
      (match parse(s)
       case Some(Array(es)) =>
         (match MapItems(es, numberText)
          case Some(xs) => Some(xs)
          case None => Some([]))
       case _ => Some([]))
    case Array(es) => MapItems(es, numberText)
    case _ => Some([])
  }

  /** Neither a string nor an array gives []; a string that does not parse
      to an array gives []; an array of objects (parsed or given) gives one
      entry per element, in order; only null or undefined elements of a
      given array make the call throw. */
  lemma ParseFoodItemsSpec(items: JsValue, parse: string -> Option<JsValue>, numberText: Num -> string)
    ensures var r := ParseFoodItems(items, parse, numberText);
      && (!items.Str? && !items.Array? ==> r == Some([]))
      && (items.Str? && (parse(items.s).None? || !parse(items.s).value.Array?) ==> r == Some([]))
      && (r.None? <==> items.Array? && exists i | 0 <= i < |items.elems| :: items.elems[i].Undefined? || items.elems[i].Null?)
      && (items.Array? && r.Some? ==>
            |r.value| == |items.elems| && forall i | 0 <= i < |items.elems| :: Some(r.value[i]) == ItemOf(items.elems[i], numberText))
      && (items.Str? && parse(items.s).Some? && parse(items.s).value.Array? ==>
            var es := parse(items.s).value.elems;
            r.Some? && (r.value == [] || (|r.value| == |es| && forall i | 0 <= i < |es| :: Some(r.value[i]) == ItemOf(es[i], numberText))))
  {
  }

  /** Within one entry: a missing or empty name or portion becomes "";
      calories that are missing, non-numeric or 0 become 0; a well-formed
      entry is kept as it is. */
  lemma ItemNormalised(name: JsValue, calories: JsValue, portion: JsValue, numberText: Num -> string)
    ensures var item := ItemOf(Object(name, calories, portion), numberText).value;
      && (!Truthy(name) ==> item.name == "")
      && (!Truthy(portion) ==> item.portion == "")
      && (calories.Undefined? || calories.Object? || calories == Number(NaN) ==> item.calories == Finite(0.0))
      && (calories.Str? && StringToNumber(calories.s).NaN? ==> item.calories == Finite(0.0))
      && (name.Str? && name.s != "" ==> item.name == name.s)
      && (portion.Str? && portion.s != "" ==> item.portion == portion.s)
      && (calories.Number? && calories.n.Finite? ==> item.calories == calories.n)
  {
  }

  /** Calories the model wrote as a string of digits are read as that
      number. */
  lemma DigitCaloriesRead(n: nat, numberText: Num -> string)
    ensures ItemOf(Object(Str("x"), Str(NatToString(n)), Str("x")), numberText).value.calories == Finite(n as real)
  {
    var text := NatToString(n);
    ParseNatToString(n);
    ItemCalories(Str("x"), Str(text), Str("x"), numberText);
    NumberOrZeroKeepsFinite(n as real);
  }

  lemma ItemCalories(name: JsValue, calories: JsValue, portion: JsValue, numberText: Num -> string)
    ensures ItemOf(Object(name, calories, portion), numberText).value.calories == NumberOrZero(ToNumber(calories, numberText))
  {
  }

  lemma NumberOrZeroKeepsFinite(x: real)
    ensures NumberOrZero(Finite(x)) == Finite(x)
  {
  }

  // ---------------------------------------------------------------------
  // log_food_to_database
  // ---------------------------------------------------------------------

  /** The tool's input; the numeric fields accept a number or a string. */
  datatype FlexNumber = FlexNum(n: Num) | FlexText(s: string)

  datatype LogInput = LogInput(
    telegramId: FlexNumber,
    calories: FlexNumber,
    protein: FlexNumber,
    carbs: FlexNumber,
    fat: FlexNumber,
    foodItems: JsValue,
    notes: string)

  datatype LogReply = Logged(foodLogId: int) | LogFailed(message: string) | LogThrew

  const LogFailedMessage := "Failed to log food to database"

  /** `Number(x)`. */
  function NumberOf(x: FlexNumber): Num {
    match x
    case FlexNum(n) => n
    case FlexText(s) => StringToNumber(s)
  }

  /** The column a number is sent as: the insert body is JSON, where NaN
      and the infinities are written as null. */
  function Column(n: Num): (r: Option<real>)
    ensures r.Some? <==> n.Finite?
    ensures r.Some? ==> r.value == n.value
  {
    if n.Finite? then Some(n.value) else None
  }

  /** The integer a `telegram_id` number denotes, when it denotes one; the
      id column refuses anything else. */
  function IdColumn(n: Num): (r: Option<int>)
    ensures r.Some? <==> n.Finite? && n.value == n.value.Floor as real
    ensures r.Some? ==> r.value as real == n.value
  {
    if n.Finite? && n.value == n.value.Floor as real then Some(n.value.Floor) else None
  }

  /** The user exists and has a non-empty zone. */
  predicate HasZone(users: map<int, User>, telegramId: Option<int>) {
    telegramId.Some? && telegramId.value in users && users[telegramId.value].timezone.Some?
    && users[telegramId.value].timezone.value != ""
  }

  /** `user?.timezone || "UTC"`. */
  function ZoneFor(users: map<int, User>, telegramId: Option<int>): (r: string)
    ensures HasZone(users, telegramId) ==> r == users[telegramId.value].timezone.value
    ensures !HasZone(users, telegramId) ==> r == "UTC"
  {
    if HasZone(users, telegramId) then users[telegramId.value].timezone.value else "UTC"
  }

  /** The row `createFoodLog` is given; its id and time are set by the
      insert. */
  function RowOf(telegramId: int, input: LogInput, items: seq<FoodItem>, mealType: string): FoodLog {
    FoodLog(0, telegramId, None,
            Column(NumberOf(input.calories)), Column(NumberOf(input.protein)),
            Column(NumberOf(input.carbs)), Column(NumberOf(input.fat)),
            Some(items), Some(mealType), Some(input.notes), 0)
  }

  /** `execute` on tables `t`. `mealTypeIn(zone)` is `getMealTypeByTime` at
      the current time; `fails` says whether the insert is refused. */
  function LogFoodOn(t: Tables, input: LogInput, parse: string -> Option<JsValue>, numberText: Num -> string,
                     mealTypeIn: string -> string, now: int, fails: bool): (r: (LogReply, Tables))
  {
    match ParseFoodItems(input.foodItems, parse, numberText)
    case None => (LogThrew, t)
    case Some(items) =>
      var id := IdColumn(NumberOf(input.telegramId));
      var mealType := mealTypeIn(ZoneFor(t.users, id));
      if id.None? then (LogFailed(LogFailedMessage), t)
      else
        var (stored, t') := CreateFoodLogOn(t, RowOf(id.value, input, items, mealType), now, fails);
        if stored.None? then (LogFailed(LogFailedMessage), t)
        else (Logged(stored.value.id), t')
  }

  /** A success reports the id of the one row appended, which carries the
      coerced numbers, the parsed items and the meal type of the user's
      zone ("UTC" when the user or the zone is missing); any failure leaves
      the tables unchanged. */
  lemma LogFoodSpec(t: Tables, input: LogInput, parse: string -> Option<JsValue>, numberText: Num -> string,
                    mealTypeIn: string -> string, now: int, fails: bool)
    ensures var (r, t') := LogFoodOn(t, input, parse, numberText, mealTypeIn, now, fails);
      && (r.Logged? <==> ParseFoodItems(input.foodItems, parse, numberText).Some?
                         && IdColumn(NumberOf(input.telegramId)).Some? && !fails)
      && (!r.Logged? ==> t' == t)
      && (r.LogFailed? ==> r.message == LogFailedMessage)
      && (r.Logged? ==>
            var id := IdColumn(NumberOf(input.telegramId)).value;
            var zone := if id in t.users && t.users[id].timezone.Some? && t.users[id].timezone.value != "" then t.users[id].timezone.value else "UTC";
            && r.foodLogId == t.nextId
            && t' == t.(foodLogs := t.foodLogs + [t'.foodLogs[|t.foodLogs|]], nextId := t.nextId + 1, clock := now)
            && t'.foodLogs[|t.foodLogs|] == FoodLog(t.nextId, id, None,
                   Column(NumberOf(input.calories)), Column(NumberOf(input.protein)),
                   Column(NumberOf(input.carbs)), Column(NumberOf(input.fat)),
                   Some(ParseFoodItems(input.foodItems, parse, numberText).value), Some(mealTypeIn(zone)), Some(input.notes), now))
  {
  }

  method LogFoodToDatabase(db: Store, input: LogInput, parse: string -> Option<JsValue>, numberText: Num -> string,
                           mealTypeIn: string -> string, now: int, fails: bool) returns (r: LogReply)
    requires db.Valid() && db.clock <= now
    modifies db
    ensures db.Valid()
    ensures (r, db.Snapshot()) == LogFoodOn(old(db.Snapshot()), input, parse, numberText, mealTypeIn, now, fails)
  {
    var items := ParseFoodItems(input.foodItems, parse, numberText);
    if items.None? {
      return LogThrew;
    }
    var id := IdColumn(NumberOf(input.telegramId));
    var mealType := mealTypeIn(ZoneFor(db.users, id));
    if id.None? {
      return LogFailed(LogFailedMessage);
    }
    var stored := db.CreateFoodLog(RowOf(id.value, input, items.value, mealType), now, fails);
    if stored.None? {
      return LogFailed(LogFailedMessage);
    }
    r := Logged(stored.value.id);
  }
}
