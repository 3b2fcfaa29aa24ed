/** The bot's replies. The reply texts and keyboards of lib/constants are
    treated as opaque constants: each is one constructor, carrying the values
    the text is built from. */
module Messages {
  import opened Wrappers

  /** The summary line that ends onboarding. */
  datatype Completion =
    | WithGoal(firstName: string, current: Option<real>, goal: Option<real>, toLose: real)
    | WithoutGoal(firstName: string, current: Option<real>, goal: Option<real>)

  datatype Msg =
    // START_MESSAGES
    | WelcomeBack(firstName: string)
    | IdentificationError
    | SetupError
    | BeginJourney
    // ONBOARDING_MESSAGES
    | WeightPrompt(firstName: string)
    | GoalPrompt
    | HeightPrompt
    | TimezonePrompt
    | CompletedPrompt
    | TimezoneManual
    | InvalidTimezone
    | TimezoneDetected(zone: string, completion: Completion)
    // a validation error text
    | InputError(text: string)
    // QUESTIONS_MESSAGES
    | QuestionsThinking
    | QuestionsError
    | QuestionsPrompt
    // text produced by an agent
    | AgentText(text: string)
    // LOGIN_MESSAGES
    | LoginSuccess
    | InvalidCode(error: string)
    // FASTING_MESSAGES
    | FastEnded(startedAt: int)
    | FastStarted
    | FastEndError
    | FastStartError
    // MENU_MESSAGES
    | FoodLogPrompt
    // DAILY_SUMMARY_MESSAGES
    | SummaryOnboardingRequired
    | SummaryGenerating
    | SummaryGenerationError
    // INSIGHTS_MESSAGES
    | InsightsOnboardingRequired
    | InsightsGenerating
    | InsightsGenerationError
    // FOOD_LOGGING_MESSAGES
    | Analyzing
    | AnalysisError
    | MealLogged
    | FoodOnboardingRequired
    // lib/utils/error-handler.ts
    | Plain(text: string)

  /** The keyboard sent with a reply (`reply_markup`). */
  datatype Markup = NoMarkup | MenuButtons | MenuKeyboard | LocationRequest | ManualTimezone | RemoveKeyboard

  datatype Reply = Reply(msg: Msg, markup: Markup)
}
