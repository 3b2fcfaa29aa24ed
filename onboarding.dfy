/** lib/handlers/start.ts: the onboarding prompt for each step, and the
    `/start` command. */
module StartHandler {
  import opened Wrappers
  import opened Strings
  import opened Types
  import opened Messages
  import opened Validation
  import opened Supabase
  import opened LoginHandler

  /** `sendOnboardingPrompt`: the one prompt for the user's step. */
  function OnboardingPrompt(u: User): Reply {
    match u.step
    case AtWeight => Reply(WeightPrompt(u.firstName), RemoveKeyboard)
    case AtGoal => Reply(GoalPrompt, RemoveKeyboard)
    case AtHeight => Reply(HeightPrompt, RemoveKeyboard)
    case AtTimezone => Reply(TimezonePrompt, LocationRequest)
    case Completed => Reply(CompletedPrompt, MenuButtons)
  }

  /** The step an onboarding prompt asks about. */
  function PromptedStep(m: Msg): Option<Step> {
    match m
    case WeightPrompt(_) => Some(AtWeight)
    case GoalPrompt => Some(AtGoal)
    case HeightPrompt => Some(AtHeight)
    case TimezonePrompt => Some(AtTimezone)
    case CompletedPrompt => Some(Completed)
    case _ => None
  }

  /** Every step has its own prompt: the prompt tells the step back, so two
      users at different steps never get the same prompt. */
  lemma PromptNamesStep(u: User, v: User)
    ensures PromptedStep(OnboardingPrompt(u).msg) == Some(u.step)
    ensures u.step != v.step ==> OnboardingPrompt(u).msg != OnboardingPrompt(v).msg
  {
    assert PromptedStep(OnboardingPrompt(v).msg) == Some(v.step);
  }

  /** The second space-separated word of the message, trimmed, when there
      is one. */
  function DeepLinkArgument(text: Option<string>): (r: Option<string>)
    ensures r.Some? ==> Trimmed(r.value)
  {
    var parts := Split(if text.Some? then text.value else "", ' ');
    if |parts| > 1 then Some(Trim(parts[1])) else None
  }

  /** `handleStartCommand` on tables `t`: the replies sent and the tables
      after. */
  function HandleStartOn(t: Tables, from: Option<Sender>, text: Option<string>, now: int, token: string, faults: Faults): (r: (seq<Reply>, Tables))
  {
    match SenderId(from)
    case None => ([Reply(IdentificationError, NoMarkup)], t)
    case Some(id) =>
      var arg := DeepLinkArgument(text);
      if arg.Some? && IsLoginCode(arg.value) then HandleLoginCodeOn(t, from, arg.value, now, token, faults)
      else if id in t.users && t.users[id].step == Completed then
        ([Reply(WelcomeBack(FirstNameOf(from)), MenuButtons)], t)
      else if id in t.users then ([OnboardingPrompt(t.users[id])], t)
      else
        var (created, t') := CreateUserOn(t, id, FirstNameOf(from), now, faults.userWrite);
        if created.None? then ([Reply(SetupError, NoMarkup)], t')
        else ([OnboardingPrompt(created.value)], t')
  }

  /** Without a sender id only the identification error is sent. A login
      code after `/start` is handed to the login handler alone. Otherwise a
      completed user is welcomed back, an incomplete one is prompted for the
      step they are at, and an unknown one is created at step `weight` and
      asked for their weight, or told setup failed; none of these touches
      any other row. */
  lemma StartOutcomes(t: Tables, from: Option<Sender>, text: Option<string>, now: int, token: string, faults: Faults)
    ensures var (replies, t') := HandleStartOn(t, from, text, now, token, faults);
      var arg := DeepLinkArgument(text);
      && (SenderId(from).None? ==> replies == [Reply(IdentificationError, NoMarkup)] && t' == t)
      && (SenderId(from).Some? ==>
            var id := from.value.id;
            && (arg.Some? && IsLoginCode(arg.value) ==> (replies, t') == HandleLoginCodeOn(t, from, arg.value, now, token, faults))
            && (!(arg.Some? && IsLoginCode(arg.value)) ==>
                  && (id in t.users && t.users[id].step == Completed ==>
                        replies == [Reply(WelcomeBack(FirstNameOf(from)), MenuButtons)] && t' == t)
                  && (id in t.users && t.users[id].step != Completed ==>
                        replies == [OnboardingPrompt(t.users[id])] && t' == t
                        && PromptedStep(replies[0].msg) == Some(t.users[id].step))
                  && (id !in t.users && !faults.userWrite ==>
                        && t' == t.(users := t.users[id := NewUser(id, FirstNameOf(from), now)])
                        && replies == [Reply(WeightPrompt(FirstNameOf(from)), RemoveKeyboard)])
                  && (id !in t.users && faults.userWrite ==> replies == [Reply(SetupError, NoMarkup)] && t' == t)))
  {
    if SenderId(from).Some? && from.value.id in t.users {
      PromptNamesStep(t.users[from.value.id], t.users[from.value.id]);
    }
  }

  /** A login code is a single trimmed word. */
  lemma LoginCodeIsWord(code: string)
    requires IsLoginCode(code)
    ensures ' ' !in code && Trim(code) == code
  {
    assert !IsJsWhitespace(code[0]) && !IsJsWhitespace(code[7]);
    TrimPadded([], code, []);
    assert [] + code + [] == code;
  }

  /** "/start " is the one-word command and a space. */
  lemma StartCommandText()
    ensures ' ' !in "/start"
    ensures "/start" + [' '] == "/start "
  {
    var command := "/start";
    assert forall i | 0 <= i < |command| :: command[i] != ' ';
  }

  /** The argument of the deep link `/start <code>` is the code. */
  lemma DeepLinkArgumentOf(code: string)
    requires IsLoginCode(code)
    ensures DeepLinkArgument(Some("/start " + code)) == Some(code)
  {
    LoginCodeIsWord(code);
    StartCommandText();
    SecondWord("/start", code);
  }

  /** A word, a space and a word with no space split into the two words. */
  lemma SecondWord(command: string, word: string)
    requires ' ' !in command && ' ' !in word
    ensures Split(command + [' '] + word, ' ') == [command, word]
  {
    SplitConcat(command, ' ', word);
    SplitNoSeparator(word, ' ');
  }

  /** The deep link `/start <code>` of a login code logs the sender in and
      does nothing else. */
  lemma DeepLinkLogsIn(t: Tables, from: Option<Sender>, code: string, now: int, token: string, faults: Faults)
    requires SenderId(from).Some? && IsLoginCode(code)
    ensures HandleStartOn(t, from, Some("/start " + code), now, token, faults) == HandleLoginCodeOn(t, from, code, now, token, faults)
  {
    DeepLinkArgumentOf(code);
  }

  method HandleStart(db: Store, from: Option<Sender>, text: Option<string>, now: int, token: string, faults: Faults)
    returns (replies: seq<Reply>)
    requires db.Valid()
    modifies db
    ensures db.Valid()
    ensures (replies, db.Snapshot()) == HandleStartOn(old(db.Snapshot()), from, text, now, token, faults)
  {
    var id := SenderId(from);
    if id.None? {
      return [Reply(IdentificationError, NoMarkup)];
    }
    var arg := DeepLinkArgument(text);
    if arg.Some? && IsLoginCode(arg.value) {
      replies := HandleLoginCode(db, from, arg.value, now, token, faults);
      return;
    }
    if id.value in db.users && db.users[id.value].step == Completed {
      return [Reply(WelcomeBack(FirstNameOf(from)), MenuButtons)];
    }
    if id.value in db.users {
      return [OnboardingPrompt(db.users[id.value])];
    }
    var created := db.CreateUser(id.value, FirstNameOf(from), now, faults.userWrite);
    if created.None? {
      return [Reply(SetupError, NoMarkup)];
    }
    replies := [OnboardingPrompt(created.value)];
  }
}

/** lib/handlers/text.ts: a text message, routed by its text and the
    sender's onboarding step. `validZone` is the zone-name check of
    lib/utils/timezone.ts; `agent` is the questions agent. */
module TextHandler {
  import opened Wrappers
  import opened Strings
  import opened Numeric
  import opened Types
  import opened Messages
  import opened Validation
  import opened Supabase
  import opened AgentEvents
  import opened QuestionsService
  import opened AuthService
  import opened LoginHandler
  import opened StartHandler

  /** The four menu-button labels, which the button handlers answer. */
  const ButtonTexts: set<string> := {
    "\U{1F933}\U{1F3FC} Log Food",
    "\U{2600}\U{FE0F} Daily Summary",
    "\U{1F9E0} Get Insights",
    "\U{1F4AC} Ask Questions"
  }

  const TimezoneManualButton := "Enter manually instead"

  /** The closing message of onboarding: the goal form exactly when the
      current weight exceeds the goal (a missing weight counting as 0). */
  function CompletionOf(u: User): (c: Completion)
  {
    var current := if u.currentWeight.Some? then u.currentWeight.value else 0.0;
    var goal := if u.goalWeight.Some? then u.goalWeight.value else 0.0;
    if current - goal > 0.0 then WithGoal(u.firstName, u.currentWeight, u.goalWeight, current - goal)
    else WithoutGoal(u.firstName, u.currentWeight, u.goalWeight)
  }

  /** The answer of the questions agent, or the error text when it is empty
      or the call failed. */
  function AnswerReply(o: Outcome): Reply {
    if o.Resolved? && o.text != "" then Reply(AgentText(o.text), MenuButtons) else Reply(QuestionsError, MenuButtons)
  }

  function StepPatch(step: Step): UserPatch {
    UserPatch(None, None, None, None, Some(step))
  }

  /** The prompt for the updated user, when the update returned a row. */
  function PromptFor(updated: Option<User>): seq<Reply> {
    if updated.Some? then [OnboardingPrompt(updated.value)] else []
  }

  /** The `timezone` step. */
  function TimezoneStepOn(t: Tables, id: int, s: string, validZone: string -> bool, now: int, faults: Faults): (r: (seq<Reply>, Tables))
  {
    if s == TimezoneManualButton then ([Reply(TimezoneManual, ManualTimezone)], t)
    else if !validZone(s) then ([Reply(InvalidTimezone, ManualTimezone)], t)
    else
      var (updated, t') := UpdateUserOn(t, id, StepPatch(Completed).(timezone := Some(s)), now, faults.userWrite);
      if updated.None? then ([], t')
      else ([Reply(TimezoneDetected(s, CompletionOf(updated.value)), MenuButtons)], t')
  }

  /** The numeric steps `weight`, `goal` and `height`. The weight is logged
      even when the user update is refused. */
  function NumericStepOn(t: Tables, id: int, step: Step, s: string, now: int, faults: Faults): (r: (seq<Reply>, Tables))
    requires step == AtWeight || step == AtGoal || step == AtHeight
  {
    match ValidateNumber(s, None, None)
    case Invalid(_) => ([Reply(InputError(NotPositiveText), NoMarkup)], t)
    case Valid(num) =>
      var check := if step == AtHeight then ValidateHeight(num) else ValidateWeight(num);
      if check.OutOfRange? then ([Reply(InputError(check.error), NoMarkup)], t)
      else
        var x := num.value;
        if step == AtWeight then
          var (updated, t1) := UpdateUserOn(t, id, StepPatch(AtGoal).(currentWeight := Some(x)), now, faults.userWrite);
          var (_, t2) := LogWeightOn(t1, id, x, now, faults.weightWrite);
          (PromptFor(updated), t2)
        else if step == AtGoal then
          var (updated, t1) := UpdateUserOn(t, id, StepPatch(AtHeight).(goalWeight := Some(x)), now, faults.userWrite);
          (PromptFor(updated), t1)
        else
          var (updated, t1) := UpdateUserOn(t, id, StepPatch(AtTimezone).(height := Some(x)), now, faults.userWrite);
          (PromptFor(updated), t1)
  }

  /** A known sender's text at their step. */
  function AtStepOn(t: Tables, id: int, s: string, validZone: string -> bool,
                    agent: seq<MessagePart> -> AgentRun, now: int, faults: Faults): (r: (seq<Reply>, Tables))
    requires id in t.users
  {
    match t.users[id].step
    case Completed =>
      ([Reply(QuestionsThinking, MenuButtons), AnswerReply(AnswerOutcome(id, s, agent))], t)
    case AtTimezone => TimezoneStepOn(t, id, s, validZone, now, faults)
    case _ => NumericStepOn(t, id, t.users[id].step, s, now, faults)
  }

  /** `handleTextMessage` on tables `t`; `text` is the message's text, if
      it has one. */
  function HandleTextOn(t: Tables, from: Option<Sender>, text: Option<string>, validZone: string -> bool,
                        agent: seq<MessagePart> -> AgentRun, now: int, token: string, faults: Faults): (r: (seq<Reply>, Tables))
  {
    if text.None? || text.value == "" then ([], t)
    else
      var s := Trim(text.value);
      match SenderId(from)
      case None => ([], t)
      case Some(id) =>
        if s in ButtonTexts then ([], t)
        else if IsLoginCode(s) then HandleLoginCodeOn(t, from, s, now, token, faults)
        else if id !in t.users then ([Reply(BeginJourney, NoMarkup)], t)
        else AtStepOn(t, id, s, validZone, agent, now, faults)
  }

  /** A menu-button label gets no reply and changes nothing. A login code
      goes to the login handler whatever the sender's step, before any user
      lookup. An unknown sender is told to begin, and no row is created. */
  lemma RoutingBeforeLookup(t: Tables, from: Option<Sender>, text: string, validZone: string -> bool,
                            agent: seq<MessagePart> -> AgentRun, now: int, token: string, faults: Faults)
    requires SenderId(from).Some? && text != ""
    ensures var r := HandleTextOn(t, from, Some(text), validZone, agent, now, token, faults);
      var s := Trim(text);
      && (s in ButtonTexts ==> r == ([], t))
      && (s !in ButtonTexts && IsLoginCode(s) ==> r == HandleLoginCodeOn(t, from, s, now, token, faults))
      && (s !in ButtonTexts && !IsLoginCode(s) && from.value.id !in t.users ==> r == ([Reply(BeginJourney, NoMarkup)], t))
  {
    var s := Trim(text);
    if s in ButtonTexts {
    } else if IsLoginCode(s) {
    } else {
    }
  }

  /** No menu-button label is a login code: the labels are longer than
      eight characters. */
  lemma LoginCodeNotButton(code: string)
    requires IsLoginCode(code)
    ensures code !in ButtonTexts
  {
    assert |"\U{1F933}\U{1F3FC} Log Food"| == 11;
    assert |"\U{2600}\U{FE0F} Daily Summary"| == 16;
    assert |"\U{1F9E0} Get Insights"| == 14;
    assert |"\U{1F4AC} Ask Questions"| == 15;
  }

  /** A login code typed at any onboarding step, or after it, is taken as
      a login code rather than as the step's answer or a question. */
  lemma LoginCodeTextLogsIn(t: Tables, from: Option<Sender>, code: string, validZone: string -> bool,
                            agent: seq<MessagePart> -> AgentRun, now: int, token: string, faults: Faults)
    requires SenderId(from).Some? && IsLoginCode(code)
    ensures HandleTextOn(t, from, Some(code), validZone, agent, now, token, faults)
         == HandleLoginCodeOn(t, from, code, now, token, faults)
  {
    LoginCodeIsWord(code);
    LoginCodeNotButton(code);
  }

  /** A completed user's text goes to the questions agent: the thinking
      notice, then the answer, or the error text when the answer is empty
      or the call fails or times out. Nothing is written. */
  lemma CompletedUserAsks(t: Tables, id: int, s: string, validZone: string -> bool,
                          agent: seq<MessagePart> -> AgentRun, now: int, faults: Faults)
    requires id in t.users && t.users[id].step == Completed
    ensures var (replies, t') := AtStepOn(t, id, s, validZone, agent, now, faults);
      var run := agent(QuestionRequest(id, s));
      && t' == t
      && |replies| == 2 && replies[0] == Reply(QuestionsThinking, MenuButtons)
      && (run.elapsedMs < QuestionsTimeoutMs && run.error.None? && LastReply(QuestionsAgentName, run.events) != "" ==>
            replies[1] == Reply(AgentText(LastReply(QuestionsAgentName, run.events)), MenuButtons))
      && (run.elapsedMs >= QuestionsTimeoutMs || run.error.Some? || LastReply(QuestionsAgentName, run.events) == "" ==>
            replies[1] == Reply(QuestionsError, MenuButtons))
  {
  }

  /** At the `timezone` step the manual-entry button only re-prompts; a
      valid zone name is stored and completes onboarding; an invalid one is
      refused with nothing changed. */
  lemma TimezoneStepOutcomes(t: Tables, id: int, s: string, validZone: string -> bool, now: int, faults: Faults)
    requires id in t.users && t.users[id].step == AtTimezone
    ensures var (replies, t') := TimezoneStepOn(t, id, s, validZone, now, faults);
      && (s == TimezoneManualButton ==> replies == [Reply(TimezoneManual, ManualTimezone)] && t' == t)
      && (s != TimezoneManualButton && !validZone(s) ==> replies == [Reply(InvalidTimezone, ManualTimezone)] && t' == t)
      && (s != TimezoneManualButton && validZone(s) && !faults.userWrite ==>
            && t'.users[id] == t.users[id].(timezone := Some(s), step := Completed, updatedAt := now)
            && t' == t.(users := t'.users)
            && replies == [Reply(TimezoneDetected(s, CompletionOf(t'.users[id])), MenuButtons)])
  {
  }

  /** Text that is not a positive number is refused at a numeric step, and
      so is a weight outside [20, 300] or a height outside [100, 250]; no
      table changes. */
  lemma NumericRefusals(t: Tables, id: int, step: Step, s: string, now: int, faults: Faults)
    requires step == AtWeight || step == AtGoal || step == AtHeight
    ensures var (replies, t') := NumericStepOn(t, id, step, s, now, faults);
      var n := ParseFloat(s);
      && (n.NaN? || !GreaterThan(n, 0.0) ==> replies == [Reply(InputError(NotPositiveText), NoMarkup)] && t' == t)
      && (!n.NaN? && GreaterThan(n, 0.0) && step != AtHeight && !(n.Finite? && 20.0 <= n.value <= 300.0) ==>
            replies == [Reply(InputError(WeightError), NoMarkup)] && t' == t)
      && (!n.NaN? && GreaterThan(n, 0.0) && step == AtHeight && !(n.Finite? && 100.0 <= n.value <= 250.0) ==>
            replies == [Reply(InputError(HeightError), NoMarkup)] && t' == t)
  {
  }

  /** An accepted weight sets `current_weight`, moves to `goal` and appends
      one weight log; an accepted goal sets `goal_weight` and moves to
      `height`; an accepted height sets `height` and moves to `timezone`.
      Each time the new step's prompt is sent. */
  lemma NumericAccepted(t: Tables, id: int, step: Step, s: string, now: int, faults: Faults)
    requires id in t.users && t.users[id].step == step
    requires step == AtWeight || step == AtGoal || step == AtHeight
    requires !faults.userWrite && !faults.weightWrite
    requires ParseFloat(s).Finite?
    requires step != AtHeight ==> 20.0 <= ParseFloat(s).value <= 300.0
    requires step == AtHeight ==> 100.0 <= ParseFloat(s).value <= 250.0
    ensures var (replies, t') := NumericStepOn(t, id, step, s, now, faults);
      var x := ParseFloat(s).value;
      var u := t.users[id];
      && t'.users == t.users[id := t'.users[id]]
      && t'.users[id].step == NextStep(step)
      && replies == [OnboardingPrompt(t'.users[id])]
      && (step == AtWeight ==>
            && t'.users[id] == u.(currentWeight := Some(x), step := AtGoal, updatedAt := now)
            && t'.weightLogs == t.weightLogs + [WeightLog(t.nextId, id, x, now)])
      && (step == AtGoal ==> t'.users[id] == u.(goalWeight := Some(x), step := AtHeight, updatedAt := now) && t' == t.(users := t'.users))
      && (step == AtHeight ==> t'.users[id] == u.(height := Some(x), step := AtTimezone, updatedAt := now) && t' == t.(users := t'.users))
  {
    AcceptedNumber(s, step);
  }

  /** A number in range passes both checks of its step. */
  lemma AcceptedNumber(s: string, step: Step)
    requires ParseFloat(s).Finite?
    requires step != AtHeight ==> 20.0 <= ParseFloat(s).value <= 300.0
    requires step == AtHeight ==> 100.0 <= ParseFloat(s).value <= 250.0
    ensures ValidateNumber(s, None, None) == Valid(ParseFloat(s))
    ensures (if step == AtHeight then ValidateHeight(ParseFloat(s)) else ValidateWeight(ParseFloat(s))) == InRange
  {
  }

  /** The sender's row is still there, its step has stayed or moved to
      the next one, and every other user's row is as it was. */
  ghost predicate StepMoves(t: Tables, t': Tables, id: int)
    requires id in t.users
  {
    && id in t'.users
    && (t'.users[id].step == t.users[id].step || t'.users[id].step == NextStep(t.users[id].step))
    && forall other | other != id && other in t.users :: other in t'.users && t'.users[other] == t.users[other]
  }

  lemma NumericStepMoves(t: Tables, id: int, s: string, now: int, faults: Faults)
    requires id in t.users && t.users[id].step in {AtWeight, AtGoal, AtHeight}
    ensures StepMoves(t, NumericStepOn(t, id, t.users[id].step, s, now, faults).1, id)
  {
  }

  lemma TimezoneStepMoves(t: Tables, id: int, s: string, validZone: string -> bool, now: int, faults: Faults)
    requires id in t.users && t.users[id].step == AtTimezone
    ensures StepMoves(t, TimezoneStepOn(t, id, s, validZone, now, faults).1, id)
  {
  }

  /** Whatever the text, the sender's step either stays or moves to the
      next one, never back and never by more than one, and no other user's
      row changes (a login code can only add the sender's own row). */
  lemma StepAdvancesByOne(t: Tables, from: Option<Sender>, text: Option<string>, validZone: string -> bool,
                          agent: seq<MessagePart> -> AgentRun, now: int, token: string, faults: Faults)
    requires SenderId(from).Some? && from.value.id in t.users
    ensures var (_, t') := HandleTextOn(t, from, text, validZone, agent, now, token, faults);
      var id := from.value.id;
      && StepMoves(t, t', id)
      && StepIndex(t.users[id].step) <= StepIndex(t'.users[id].step) <= StepIndex(t.users[id].step) + 1
  {
    var id := from.value.id;
    var t' := HandleTextOn(t, from, text, validZone, agent, now, token, faults).1;
    if text.Some? && text.value != "" {
      var s := Trim(text.value);
      if s in ButtonTexts {
      } else if IsLoginCode(s) {
        LoginKeepsKnownUsers(t, s, id, FirstNameOf(from), now, token, faults);
      } else if t.users[id].step == Completed {
      } else if t.users[id].step == AtTimezone {
        TimezoneStepMoves(t, id, s, validZone, now, faults);
      } else {
        NumericStepMoves(t, id, s, now, faults);
      }
    }
  }

  /** The login path never touches the rows of a known user. */
  lemma LoginKeepsKnownUsers(t: Tables, code: string, id: int, firstName: string, now: int, token: string, faults: Faults)
    requires id in t.users
    ensures VerifyLoginCodeOn(t, code, id, firstName, now, token, faults).1.users == t.users
  {
  }

  method HandleText(db: Store, from: Option<Sender>, text: Option<string>, validZone: string -> bool,
                    agent: seq<MessagePart> -> AgentRun, now: int, token: string, faults: Faults)
    returns (replies: seq<Reply>)
    requires db.Valid() && db.clock <= now
    modifies db
    ensures db.Valid()
    ensures (replies, db.Snapshot()) == HandleTextOn(old(db.Snapshot()), from, text, validZone, agent, now, token, faults)
  {
    if text.None? || text.value == "" {
      return [];
    }
    var s := Trim(text.value);
    var id := SenderId(from);
    if id.None? || s in ButtonTexts {
      return [];
    }
    if IsLoginCode(s) {
      replies := HandleLoginCode(db, from, s, now, token, faults);
      return;
    }
    if id.value !in db.users {
      return [Reply(BeginJourney, NoMarkup)];
    }
    var step := db.users[id.value].step;
    if step == Completed {
      var answer := AnswerQuestion(id.value, s, agent);
      return [Reply(QuestionsThinking, MenuButtons), AnswerReply(answer)];
    }
    if step == AtTimezone {
      replies := TimezoneStep(db, id.value, s, validZone, now, faults);
      return;
    }
    replies := NumericStep(db, id.value, step, s, now, faults);
  }

  method TimezoneStep(db: Store, id: int, s: string, validZone: string -> bool, now: int, faults: Faults)
    returns (replies: seq<Reply>)
    requires db.Valid()
    modifies db
    ensures db.Valid()
    ensures (replies, db.Snapshot()) == TimezoneStepOn(old(db.Snapshot()), id, s, validZone, now, faults)
  {
    if s == TimezoneManualButton {
      return [Reply(TimezoneManual, ManualTimezone)];
    }
    if !validZone(s) {
      return [Reply(InvalidTimezone, ManualTimezone)];
    }
    var updated := db.UpdateUser(id, StepPatch(Completed).(timezone := Some(s)), now, faults.userWrite);
    if updated.None? {
      return [];
    }
    replies := [Reply(TimezoneDetected(s, CompletionOf(updated.value)), MenuButtons)];
  }

  method NumericStep(db: Store, id: int, step: Step, s: string, now: int, faults: Faults)
    returns (replies: seq<Reply>)
    requires step == AtWeight || step == AtGoal || step == AtHeight
    requires db.Valid() && db.clock <= now
    modifies db
    ensures db.Valid()
    ensures (replies, db.Snapshot()) == NumericStepOn(old(db.Snapshot()), id, step, s, now, faults)
  {
    var validation := ValidateNumber(s, None, None);
    if validation.Invalid? {
      return [Reply(InputError(NotPositiveText), NoMarkup)];
    }
    var num := validation.value;
    var check := if step == AtHeight then ValidateHeight(num) else ValidateWeight(num);
    if check.OutOfRange? {
      return [Reply(InputError(check.error), NoMarkup)];
    }
    var x := num.value;
    var updated;
    if step == AtWeight {
      updated := db.UpdateUser(id, StepPatch(AtGoal).(currentWeight := Some(x)), now, faults.userWrite);
      var _ := db.LogWeight(id, x, now, faults.weightWrite);
    } else if step == AtGoal {
      updated := db.UpdateUser(id, StepPatch(AtHeight).(goalWeight := Some(x)), now, faults.userWrite);
    } else {
      updated := db.UpdateUser(id, StepPatch(AtTimezone).(height := Some(x)), now, faults.userWrite);
    }
    replies := PromptFor(updated);
  }
}

/** lib/handlers/location.ts: a shared location completes the `timezone`
    step. `zoneAt` is the coordinate lookup of lib/utils/timezone.ts. */
module LocationHandler {
  import opened Wrappers
  import opened Types
  import opened Messages
  import opened Supabase
  import opened TextHandler

  datatype Location = Location(latitude: real, longitude: real)

  function HandleLocationOn(t: Tables, from: Option<Sender>, location: Option<Location>,
                            zoneAt: (real, real) -> string, now: int, faults: Faults): (r: (seq<Reply>, Tables))
  {
    if location.None? then ([], t)
    else match SenderId(from)
      case None => ([], t)
      case Some(id) =>
        if id !in t.users || t.users[id].step != AtTimezone then ([], t)
        else
          var zone := zoneAt(location.value.latitude, location.value.longitude);
          var (updated, t') := UpdateUserOn(t, id, StepPatch(Completed).(timezone := Some(zone)), now, faults.userWrite);
          if updated.None? then ([], t')
          else ([Reply(TimezoneDetected(zone, CompletionOf(updated.value)), MenuButtons)], t')
  }

  /** Without a location or a sender id, or from a sender who is unknown or
      not at the `timezone` step, nothing happens. Otherwise the zone of the
      coordinates is stored and the step becomes `completed`, and the
      closing message has the goal form exactly when the current weight
      exceeds the goal; a refused update sends nothing. */
  lemma LocationOutcomes(t: Tables, from: Option<Sender>, location: Option<Location>,
                         zoneAt: (real, real) -> string, now: int, faults: Faults)
    ensures var (replies, t') := HandleLocationOn(t, from, location, zoneAt, now, faults);
      && (location.None? || SenderId(from).None? ==> replies == [] && t' == t)
      && (location.Some? && SenderId(from).Some? ==>
            var id := from.value.id;
            && (id !in t.users || t.users[id].step != AtTimezone ==> replies == [] && t' == t)
            && (id in t.users && t.users[id].step == AtTimezone ==>
                  var zone := zoneAt(location.value.latitude, location.value.longitude);
                  && (faults.userWrite ==> replies == [] && t' == t)
                  && (!faults.userWrite ==>
                        var u := t'.users[id];
                        var current := if u.currentWeight.Some? then u.currentWeight.value else 0.0;
                        var goal := if u.goalWeight.Some? then u.goalWeight.value else 0.0;
                        && u == t.users[id].(timezone := Some(zone), step := Completed, updatedAt := now)
                        && t' == t.(users := t.users[id := u])
                        && |replies| == 1
                        && replies[0].msg.TimezoneDetected? && replies[0].msg.zone == zone
                        && (replies[0].msg.completion.WithGoal? <==> current - goal > 0.0))))
  {
  }

  method HandleLocation(db: Store, from: Option<Sender>, location: Option<Location>,
                        zoneAt: (real, real) -> string, now: int, faults: Faults) returns (replies: seq<Reply>)
    requires db.Valid()
    modifies db
    ensures db.Valid()
    ensures (replies, db.Snapshot()) == HandleLocationOn(old(db.Snapshot()), from, location, zoneAt, now, faults)
  {
    var id := SenderId(from);
    if location.None? || id.None? {
      return [];
    }
    if id.value !in db.users || db.users[id.value].step != AtTimezone {
      return [];
    }
    var zone := zoneAt(location.value.latitude, location.value.longitude);
    var updated := db.UpdateUser(id.value, StepPatch(Completed).(timezone := Some(zone)), now, faults.userWrite);
    if updated.None? {
      return [];
    }
    replies := [Reply(TimezoneDetected(zone, CompletionOf(updated.value)), MenuButtons)];
  }
}
