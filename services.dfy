/** lib/services/insights.ts: the insights agent's reply, raced against a
    30-second timer. The agent is an input mapping the message it is sent to
    the run it performs. */
module InsightsService {
  import opened Wrappers
  import opened Strings
  import opened AgentEvents

  const InsightsAgentName := "insights_agent"
  const InsightsTimeoutMs: nat := 30000
  const InsightsTimeoutMessage := "Insights generation timed out"

  /** The message asking for the insights of one user. */
  function InsightsRequest(telegramId: int): (r: seq<MessagePart>)
    ensures |r| == 1 && r[0].TextPart?
    ensures StartsWith(r[0].text, "Generate personalized health insights for telegram_id: " + IntToString(telegramId))
  {
    var head := "Generate personalized health insights for telegram_id: " + IntToString(telegramId);
    var tail := ". Use all available tools to gather their data, then provide comprehensive insights.";
    ConcatEnds(head, tail);
    [TextPart(head + tail)]
  }

  /** What `generateInsights` settles to for a run of the agent. */
  function InsightsOutcome(telegramId: int, agent: seq<MessagePart> -> AgentRun): Outcome {
    var run := agent(InsightsRequest(telegramId));
    Race(Some(InsightsTimeoutMs), InsightsTimeoutMessage, run, LastReply(InsightsAgentName, run.events))
  }

  /** `generateInsights`: the folded reply when the run ends in time, the
      run's own error when it throws in time, the timeout otherwise. */
  method GenerateInsights(telegramId: int, agent: seq<MessagePart> -> AgentRun) returns (o: Outcome)
    ensures o == InsightsOutcome(telegramId, agent)
    ensures var run := agent(InsightsRequest(telegramId));
      && (run.elapsedMs >= InsightsTimeoutMs ==> o == Rejected(InsightsTimeoutMessage))
      && (run.elapsedMs < InsightsTimeoutMs && run.error.Some? ==> o == Rejected(run.error.value))
      && (run.elapsedMs < InsightsTimeoutMs && run.error.None? ==> o == Resolved(LastReply(InsightsAgentName, run.events)))
  {
    var run := agent(InsightsRequest(telegramId));
    var text := CollectResponse(InsightsAgentName, run.events);
    o := Race(Some(InsightsTimeoutMs), InsightsTimeoutMessage, run, text);
  }
}

/** lib/services/daily-summary.ts: the daily-summary agent's reply, raced
    against a 30-second timer. */
module DailySummaryService {
  import opened Wrappers
  import opened Strings
  import opened AgentEvents

  const DailySummaryAgentName := "daily_summary_agent"
  const DailySummaryTimeoutMs: nat := 30000
  const DailySummaryTimeoutMessage := "Daily summary generation timed out"

  function DailySummaryRequest(telegramId: int): (r: seq<MessagePart>)
    ensures |r| == 1 && r[0].TextPart?
    ensures StartsWith(r[0].text, "Generate today's daily summary for telegram_id: " + IntToString(telegramId))
  {
    var head := "Generate today's daily summary for telegram_id: " + IntToString(telegramId);
    ConcatEnds(head, ". Use the tools to gather their data.");
    [TextPart(head + ". Use the tools to gather their data.")]
  }

  /** What `generateDailySummary` settles to for a run of the agent. */
  function DailySummaryOutcome(telegramId: int, agent: seq<MessagePart> -> AgentRun): Outcome {
    var run := agent(DailySummaryRequest(telegramId));
    Race(Some(DailySummaryTimeoutMs), DailySummaryTimeoutMessage, run, LastReply(DailySummaryAgentName, run.events))
  }

  /** `generateDailySummary`. */
  method GenerateDailySummary(telegramId: int, agent: seq<MessagePart> -> AgentRun) returns (o: Outcome)
    ensures o == DailySummaryOutcome(telegramId, agent)
    ensures var run := agent(DailySummaryRequest(telegramId));
      && (run.elapsedMs >= DailySummaryTimeoutMs ==> o == Rejected(DailySummaryTimeoutMessage))
      && (run.elapsedMs < DailySummaryTimeoutMs && run.error.Some? ==> o == Rejected(run.error.value))
      && (run.elapsedMs < DailySummaryTimeoutMs && run.error.None? ==> o == Resolved(LastReply(DailySummaryAgentName, run.events)))
  {
    var run := agent(DailySummaryRequest(telegramId));
    var text := CollectResponse(DailySummaryAgentName, run.events);
    o := Race(Some(DailySummaryTimeoutMs), DailySummaryTimeoutMessage, run, text);
  }
}

/** lib/services/questions.ts: the questions agent's answer, raced against a
    60-second timer. */
module QuestionsService {
  import opened Wrappers
  import opened Strings
  import opened AgentEvents

  const QuestionsAgentName := "questions_agent"
  const QuestionsTimeoutMs: nat := 60000
  const QuestionsTimeoutMessage := "Question answering timed out"

  /** The message carries the user's id and, after a blank line, the
      question itself. */
  function QuestionRequest(telegramId: int, question: string): (r: seq<MessagePart>)
    ensures |r| == 1 && r[0].TextPart?
    ensures StartsWith(r[0].text, "User telegram_id: " + IntToString(telegramId) + "\n\n")
    ensures EndsWith(r[0].text, "Question: " + question)
  {
    var head := "User telegram_id: " + IntToString(telegramId) + "\n\n";
    var tail := "Question: " + question;
    ConcatEnds(head, tail);
    [TextPart(head + tail)]
  }

  /** What `answerQuestion` settles to for a run of the agent. */
  function AnswerOutcome(telegramId: int, question: string, agent: seq<MessagePart> -> AgentRun): Outcome {
    var run := agent(QuestionRequest(telegramId, question));
    Race(Some(QuestionsTimeoutMs), QuestionsTimeoutMessage, run, LastReply(QuestionsAgentName, run.events))
  }

  /** `answerQuestion`. */
  method AnswerQuestion(telegramId: int, question: string, agent: seq<MessagePart> -> AgentRun) returns (o: Outcome)
    ensures o == AnswerOutcome(telegramId, question, agent)
    ensures var run := agent(QuestionRequest(telegramId, question));
      && (run.elapsedMs >= QuestionsTimeoutMs ==> o == Rejected(QuestionsTimeoutMessage))
      && (run.elapsedMs < QuestionsTimeoutMs && run.error.Some? ==> o == Rejected(run.error.value))
      && (run.elapsedMs < QuestionsTimeoutMs && run.error.None? ==> o == Resolved(LastReply(QuestionsAgentName, run.events)))
  {
    var run := agent(QuestionRequest(telegramId, question));
    var text := CollectResponse(QuestionsAgentName, run.events);
    o := Race(Some(QuestionsTimeoutMs), QuestionsTimeoutMessage, run, text);
  }
}

/** lib/services/food-analyzer.ts: the food analyzer's reply to a photo, with
    no deadline. */
module FoodAnalyzerService {
  import opened Wrappers
  import opened Strings
  import opened AgentEvents

  const FoodAnalyzerAgentName := "food_analyzer_agent"

  /** The image goes first, then the instruction naming the user. */
  function FoodPhotoRequest(imageBase64: string, mimeType: string, telegramId: int): (r: seq<MessagePart>)
    ensures |r| == 2
    ensures r[0] == InlineData(mimeType, imageBase64)
    ensures r[1].TextPart? && EndsWith(r[1].text, "telegram_id: " + IntToString(telegramId))
  {
    [InlineData(mimeType, imageBase64),
     TextPart("Analyze this food photo and log it for telegram_id: " + IntToString(telegramId))]
  }

  /** What `analyzeFoodPhoto` settles to for a run of the agent. */
  function AnalysisOutcome(imageBase64: string, mimeType: string, telegramId: int, agent: seq<MessagePart> -> AgentRun): Outcome {
    var run := agent(FoodPhotoRequest(imageBase64, mimeType, telegramId));
    Race(None, "", run, LastReply(FoodAnalyzerAgentName, run.events))
  }

  /** `analyzeFoodPhoto`: the folded reply, or the run's error. The run's
      duration plays no part. */
  method AnalyzeFoodPhoto(imageBase64: string, mimeType: string, telegramId: int,
                          agent: seq<MessagePart> -> AgentRun) returns (o: Outcome)
    ensures o == AnalysisOutcome(imageBase64, mimeType, telegramId, agent)
    ensures var run := agent(FoodPhotoRequest(imageBase64, mimeType, telegramId));
      && (run.error.Some? ==> o == Rejected(run.error.value))
      && (run.error.None? ==> o == Resolved(LastReply(FoodAnalyzerAgentName, run.events)))
  {
    var run := agent(FoodPhotoRequest(imageBase64, mimeType, telegramId));
    var text := CollectResponse(FoodAnalyzerAgentName, run.events);
    o := Race(None, "", run, text);
  }
}
