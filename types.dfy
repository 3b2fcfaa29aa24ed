/** The rows of the database tables (lib/types.ts, lib/supabase.ts) and the
    sender of a bot update. Timestamps are milliseconds since the epoch, so
    the ISO-8601 strings the tables store compare as these integers do. */
module Types {
  import opened Wrappers
  import opened Numeric

  /** The onboarding steps, in the order a user goes through them. */
  datatype Step = AtWeight | AtGoal | AtHeight | AtTimezone | Completed

  function StepIndex(s: Step): (i: nat)
    ensures i <= 4
  {
    match s
    case AtWeight => 0
    case AtGoal => 1
    case AtHeight => 2
    case AtTimezone => 3
    case Completed => 4
  }

  /** The step after `s`; `completed` is final. */
  function NextStep(s: Step): (r: Step)
    ensures s != Completed ==> StepIndex(r) == StepIndex(s) + 1
    ensures s == Completed ==> r == Completed
  {
    match s
    case AtWeight => AtGoal
    case AtGoal => AtHeight
    case AtHeight => AtTimezone
    case AtTimezone => Completed
    case Completed => Completed
  }

  /** A row of `users`, with the `timezone` column and step of lib/types.ts. */
  datatype User = User(
    telegramId: int,
    firstName: string,
    currentWeight: Option<real>,
    goalWeight: Option<real>,
    height: Option<real>,
    timezone: Option<string>,
    step: Step,
    createdAt: int,
    updatedAt: int)

  datatype WeightLog = WeightLog(id: int, telegramId: int, weight: real, loggedAt: int)

  datatype FastingPeriod = FastingPeriod(id: int, telegramId: int, startedAt: int, endedAt: Option<int>)

  /** One entry of `food_items`; `calories` is the JavaScript number the
      analyser produced. */
  datatype FoodItem = FoodItem(name: string, calories: Num, portion: string)

  datatype FoodLog = FoodLog(
    id: int,
    telegramId: int,
    imageUrl: Option<string>,
    calories: Option<real>,
    protein: Option<real>,
    carbs: Option<real>,
    fat: Option<real>,
    foodItems: Option<seq<FoodItem>>,
    mealType: Option<string>,
    notes: Option<string>,
    loggedAt: int)

  datatype Session = Session(id: int, telegramId: int, token: string, expiresAt: int, createdAt: int)

  datatype CodeStatus = Pending | Verified | Expired

  /** A row of `login_codes`. */
  datatype LoginCode = LoginCode(
    id: int,
    code: string,
    status: CodeStatus,
    expiresAt: int,
    attempts: int,
    telegramId: Option<int>,
    sessionToken: Option<string>)

  /** The six user fields the web API returns. */
  datatype UserView = UserView(
    telegramId: int,
    firstName: string,
    currentWeight: Option<real>,
    goalWeight: Option<real>,
    height: Option<real>,
    step: Step)

  function ViewOf(u: User): UserView {
    UserView(u.telegramId, u.firstName, u.currentWeight, u.goalWeight, u.height, u.step)
  }

  /** `ctx.from` of a bot update. */
  datatype Sender = Sender(id: int, firstName: Option<string>)

  /** `ctx.from?.id` as the handlers test it with `!telegramId`: an absent
      sender and the id 0 both count as "no id". */
  function SenderId(from: Option<Sender>): (r: Option<int>)
    ensures r.Some? <==> from.Some? && from.value.id != 0
    ensures r.Some? ==> r.value == from.value.id
  {
    if from.Some? && from.value.id != 0 then Some(from.value.id) else None
  }

  /** `ctx.from?.first_name ?? "there"`. */
  function FirstNameOf(from: Option<Sender>): (r: string)
    ensures from.Some? && from.value.firstName.Some? ==> r == from.value.firstName.value
    ensures from.None? || from.value.firstName.None? ==> r == "there"
  {
    if from.Some? && from.value.firstName.Some? then from.value.firstName.value else "there"
  }

  const SecondMs: int := 1000
  const DayMs: int := 86400000
  /** Lifetime of a session: 7 days. */
  const SessionLifetimeMs: int := 7 * DayMs
}
