/** lib/handlers/fasting.ts: the "break fast" button toggles the sender's
    fasting period: it ends the open one, or starts one when none is open. */
module FastingHandler {
  import opened Wrappers
  import opened Types
  import opened Messages
  import opened Supabase

  /** Every user has at most one open fasting period. */
  ghost predicate OneOpenEach(fasts: seq<FastingPeriod>) {
    forall i, j | 0 <= i < j < |fasts| && fasts[i].endedAt.None? && fasts[j].endedAt.None? ::
      fasts[i].telegramId != fasts[j].telegramId
  }

  /** `handleBreakFast` on tables `t` at time `now`. */
  function BreakFastOn(t: Tables, from: Option<Sender>, now: int, faults: Faults): (r: (seq<Reply>, Tables))
  {
    match SenderId(from)
    case None => ([], t)
    case Some(id) =>
      if ActiveFast(t.fasts, id).Some? then
        var (ended, t') := EndFastOn(t, id, now, faults.fastWrite);
        if ended.Some? then ([Reply(FastEnded(ended.value.startedAt), MenuKeyboard)], t')
        else ([Reply(FastEndError, MenuKeyboard)], t')
      else
        var (started, t') := StartFastOn(t, id, now, faults.fastWrite);
        if started.Some? then ([Reply(FastStarted, MenuKeyboard)], t')
        else ([Reply(FastStartError, MenuKeyboard)], t')
  }

  /** Without a sender id nothing happens. With an open period, it is ended
      and its start reported, or the end error is sent with nothing changed;
      without one, an open period stamped `now` is appended, or the start
      error is sent with nothing changed. Only the fasting table, the id
      counter and the clock can change. */
  lemma BreakFastOutcomes(t: Tables, from: Option<Sender>, now: int, faults: Faults)
    ensures var (replies, t') := BreakFastOn(t, from, now, faults);
      && (SenderId(from).None? ==> replies == [] && t' == t)
      && (SenderId(from).Some? ==>
            var id := from.value.id;
            var active := ActiveFast(t.fasts, id);
            && t' == t.(fasts := t'.fasts, nextId := t'.nextId, clock := t'.clock)
            && (active.Some? && !faults.fastWrite ==>
                  && replies == [Reply(FastEnded(active.value.startedAt), MenuKeyboard)]
                  && |t'.fasts| == |t.fasts|
                  && t'.fasts[LastOpenIndex(t.fasts, id).value] == active.value.(endedAt := Some(now)))
            && (active.Some? && faults.fastWrite ==> replies == [Reply(FastEndError, MenuKeyboard)] && t' == t)
            && (active.None? && !faults.fastWrite ==>
                  && replies == [Reply(FastStarted, MenuKeyboard)]
                  && t'.fasts == t.fasts + [FastingPeriod(t.nextId, id, now, None)])
            && (active.None? && faults.fastWrite ==> replies == [Reply(FastStartError, MenuKeyboard)] && t' == t))
  {
  }

  /** Closing one open period keeps "at most one open period each". */
  lemma CloseKeepsOneOpenEach(fasts: seq<FastingPeriod>, ix: nat, now: int)
    requires OneOpenEach(fasts) && ix < |fasts|
    ensures OneOpenEach(fasts[ix := fasts[ix].(endedAt := Some(now))])
  {
  }

  /** Appending an open period for a user with none open keeps "at most one
      open period each". */
  lemma OpenKeepsOneOpenEach(fasts: seq<FastingPeriod>, f: FastingPeriod)
    requires OneOpenEach(fasts)
    requires forall g | g in fasts :: !IsOpenOf(g, f.telegramId)
    ensures OneOpenEach(fasts + [f])
  {
    var s := fasts + [f];
    forall i, j | 0 <= i < j < |s| && s[i].endedAt.None? && s[j].endedAt.None?
      ensures s[i].telegramId != s[j].telegramId
    {
      if j == |fasts| {
        assert s[i] in fasts;
      }
    }
  }

  /** Because the handler starts a period only when none is open, the toggle
      keeps every user at one open period at most. */
  lemma BreakFastKeepsOneOpenEach(t: Tables, from: Option<Sender>, now: int, faults: Faults)
    requires OneOpenEach(t.fasts)
    ensures OneOpenEach(BreakFastOn(t, from, now, faults).1.fasts)
  {
    if SenderId(from).Some? {
      var id := from.value.id;
      if ActiveFast(t.fasts, id).Some? {
        if !faults.fastWrite {
          CloseKeepsOneOpenEach(t.fasts, LastOpenIndex(t.fasts, id).value, now);
        }
      } else if !faults.fastWrite {
        OpenKeepsOneOpenEach(t.fasts, FastingPeriod(t.nextId, id, now, None));
      }
    }
  }

  /** `startFast` itself does not look for an open period: called on a
      user who has one, it leaves two open. */
  lemma StartFastAloneBreaksOneOpen(t: Tables, id: int, now: int)
    requires ActiveFast(t.fasts, id).Some?
    ensures !OneOpenEach(StartFastOn(t, id, now, false).1.fasts)
  {
    var fasts := StartFastOn(t, id, now, false).1.fasts;
    var ix := LastOpenIndex(t.fasts, id).value;
    assert fasts[ix] == t.fasts[ix] && fasts[|t.fasts|].telegramId == id;
  }

  /** A toggle that goes through flips whether the sender has an open
      period. */
  lemma BreakFastFlips(t: Tables, from: Option<Sender>, now: int, faults: Faults)
    requires OneOpenEach(t.fasts) && SenderId(from).Some? && !faults.fastWrite
    ensures var t' := BreakFastOn(t, from, now, faults).1;
      ActiveFast(t'.fasts, from.value.id).Some? <==> ActiveFast(t.fasts, from.value.id).None?
  {
    var id := from.value.id;
    var t' := BreakFastOn(t, from, now, faults).1;
    if ActiveFast(t.fasts, id).Some? {
      var ix := LastOpenIndex(t.fasts, id).value;
      forall f | f in t'.fasts
        ensures !IsOpenOf(f, id)
      {
        var k :| 0 <= k < |t'.fasts| && t'.fasts[k] == f;
      }
    } else {
      assert t'.fasts[|t.fasts|] in t'.fasts;
    }
  }

  /** A toggle that goes through with no open period appends one. */
  lemma ToggleOpens(t: Tables, from: Option<Sender>, now: int, faults: Faults)
    requires SenderId(from).Some? && ActiveFast(t.fasts, from.value.id).None? && !faults.fastWrite
    ensures BreakFastOn(t, from, now, faults).1.fasts == t.fasts + [FastingPeriod(t.nextId, from.value.id, now, None)]
    ensures LastOpenIndex(BreakFastOn(t, from, now, faults).1.fasts, from.value.id) == Some(|t.fasts|)
  {
  }

  /** A toggle that goes through with an open period closes the latest. */
  lemma ToggleCloses(t: Tables, from: Option<Sender>, now: int, faults: Faults, ix: nat)
    requires SenderId(from).Some? && LastOpenIndex(t.fasts, from.value.id) == Some(ix) && !faults.fastWrite
    ensures BreakFastOn(t, from, now, faults).1.fasts == t.fasts[ix := t.fasts[ix].(endedAt := Some(now))]
  {
  }

  /** Two toggles from no open period leave the table as it was plus one
      closed period, from the first toggle's time to the second's. */
  lemma TwoTogglesCloseOnePeriod(t: Tables, from: Option<Sender>, now1: int, now2: int, faults: Faults)
    requires SenderId(from).Some? && ActiveFast(t.fasts, from.value.id).None? && !faults.fastWrite
    ensures var t1 := BreakFastOn(t, from, now1, faults).1;
      var t2 := BreakFastOn(t1, from, now2, faults).1;
      && t2.fasts == t.fasts + [FastingPeriod(t.nextId, from.value.id, now1, Some(now2))]
      && ActiveFast(t2.fasts, from.value.id).None?
  {
    var id := from.value.id;
    ToggleOpens(t, from, now1, faults);
    var t1 := BreakFastOn(t, from, now1, faults).1;
    ToggleCloses(t1, from, now2, faults, |t.fasts|);
    ClosedAppendLeavesNoneOpen(t.fasts, FastingPeriod(t.nextId, id, now1, Some(now2)), id);
  }

  /** Appending a closed period to a table where the user has no open
      period leaves them with none. */
  lemma ClosedAppendLeavesNoneOpen(fasts: seq<FastingPeriod>, closed: FastingPeriod, id: int)
    requires ActiveFast(fasts, id).None? && closed.endedAt.Some?
    ensures ActiveFast(fasts + [closed], id).None?
  {
    forall f | f in fasts + [closed]
      ensures !IsOpenOf(f, id)
    {
      if f in fasts {
      }
    }
  }

  method BreakFast(db: Store, from: Option<Sender>, now: int, faults: Faults) returns (replies: seq<Reply>)
    requires db.Valid() && db.clock <= now
    modifies db
    ensures db.Valid()
    ensures (replies, db.Snapshot()) == BreakFastOn(old(db.Snapshot()), from, now, faults)
  {
    var id := SenderId(from);
    if id.None? {
      return [];
    }
    if ActiveFast(db.fasts, id.value).Some? {
      var ended := db.EndFast(id.value, now, faults.fastWrite);
      if ended.Some? {
        replies := [Reply(FastEnded(ended.value.startedAt), MenuKeyboard)];
      } else {
        replies := [Reply(FastEndError, MenuKeyboard)];
      }
    } else {
      var started := db.StartFast(id.value, now, faults.fastWrite);
      if started.Some? {
        replies := [Reply(FastStarted, MenuKeyboard)];
      } else {
        replies := [Reply(FastStartError, MenuKeyboard)];
      }
    }
  }
}

/** lib/handlers/menu.ts: the four menu buttons. Two send a fixed prompt;
    Daily Summary and Get Insights are open to users who finished onboarding
    and answer with the agent's text. Nothing is written. */
module MenuHandler {
  import opened Wrappers
  import opened Types
  import opened Messages
  import opened Supabase
  import opened AgentEvents
  import opened InsightsService
  import opened DailySummaryService

  datatype MenuButton = FoodLogButton | DailySummaryButton | InsightsButton | AskQuestionsButton

  /** `summary || GENERATION_ERROR`, where a rejected call also ends in the
      error text. */
  function GeneratedReply(o: Outcome, generationError: Msg): Reply {
    if o.Resolved? && o.text != "" then Reply(AgentText(o.text), MenuButtons) else Reply(generationError, MenuButtons)
  }

  /** Whether the menu's generating buttons serve this sender. */
  predicate Eligible(users: map<int, User>, id: int) {
    id in users && users[id].step == Completed
  }

  /** `handleDailySummaryButton`, with `agent` as the daily summary agent. */
  function DailySummaryButtonOn(users: map<int, User>, from: Option<Sender>,
                                agent: seq<MessagePart> -> AgentRun): (r: seq<Reply>)
  {
    match SenderId(from)
    case None => []
    case Some(id) =>
      if !Eligible(users, id) then [Reply(SummaryOnboardingRequired, MenuButtons)]
      else [Reply(SummaryGenerating, MenuButtons), GeneratedReply(DailySummaryOutcome(id, agent), SummaryGenerationError)]
  }

  /** `handleGetInsightsButton`, with `agent` as the insights agent. */
  function InsightsButtonOn(users: map<int, User>, from: Option<Sender>,
                            agent: seq<MessagePart> -> AgentRun): (r: seq<Reply>)
  {
    match SenderId(from)
    case None => []
    case Some(id) =>
      if !Eligible(users, id) then [Reply(InsightsOnboardingRequired, MenuButtons)]
      else [Reply(InsightsGenerating, MenuButtons), GeneratedReply(InsightsOutcome(id, agent), InsightsGenerationError)]
  }

  /** The handler of `button`, with `summaryAgent` and `insightsAgent` as
      the two agents. */
  function HandleMenuButtonOn(users: map<int, User>, from: Option<Sender>, button: MenuButton,
                              summaryAgent: seq<MessagePart> -> AgentRun,
                              insightsAgent: seq<MessagePart> -> AgentRun): (r: seq<Reply>)
  {
    match button
    case FoodLogButton => [Reply(FoodLogPrompt, MenuButtons)]
    case AskQuestionsButton => [Reply(QuestionsPrompt, MenuButtons)]
    case DailySummaryButton => DailySummaryButtonOn(users, from, summaryAgent)
    case InsightsButton => InsightsButtonOn(users, from, insightsAgent)
  }

  /** Food Log and Ask Questions send their one prompt with the menu,
      whoever asks, and never call an agent. */
  lemma FixedPromptButtons(users: map<int, User>, from: Option<Sender>,
                           summaryAgent: seq<MessagePart> -> AgentRun, insightsAgent: seq<MessagePart> -> AgentRun)
    ensures HandleMenuButtonOn(users, from, FoodLogButton, summaryAgent, insightsAgent) == [Reply(FoodLogPrompt, MenuButtons)]
    ensures HandleMenuButtonOn(users, from, AskQuestionsButton, summaryAgent, insightsAgent) == [Reply(QuestionsPrompt, MenuButtons)]
  {
  }

  /** Daily Summary sends nothing without a sender id and the onboarding
      notice to a user who is missing or not done; a finished user gets
      the generating notice and then the agent's text, or the generation
      error when the text is empty or the call fails or times out. */
  lemma DailySummaryOutcomes(users: map<int, User>, from: Option<Sender>, agent: seq<MessagePart> -> AgentRun)
    ensures var r := DailySummaryButtonOn(users, from, agent);
      && (SenderId(from).None? ==> r == [])
      && (SenderId(from).Some? && !Eligible(users, from.value.id) ==> r == [Reply(SummaryOnboardingRequired, MenuButtons)])
      && (SenderId(from).Some? && Eligible(users, from.value.id) ==>
            var o := DailySummaryOutcome(from.value.id, agent);
            && |r| == 2
            && r[0] == Reply(SummaryGenerating, MenuButtons)
            && (o.Resolved? && o.text != "" ==> r[1] == Reply(AgentText(o.text), MenuButtons))
            && (!(o.Resolved? && o.text != "") ==> r[1] == Reply(SummaryGenerationError, MenuButtons)))
  {
  }

  /** Get Insights behaves as Daily Summary with its own notices and its
      own agent. */
  lemma InsightsOutcomes(users: map<int, User>, from: Option<Sender>, agent: seq<MessagePart> -> AgentRun)
    ensures var r := InsightsButtonOn(users, from, agent);
      && (SenderId(from).None? ==> r == [])
      && (SenderId(from).Some? && !Eligible(users, from.value.id) ==> r == [Reply(InsightsOnboardingRequired, MenuButtons)])
      && (SenderId(from).Some? && Eligible(users, from.value.id) ==>
            var o := InsightsOutcome(from.value.id, agent);
            && |r| == 2
            && r[0] == Reply(InsightsGenerating, MenuButtons)
            && (o.Resolved? && o.text != "" ==> r[1] == Reply(AgentText(o.text), MenuButtons))
            && (!(o.Resolved? && o.text != "") ==> r[1] == Reply(InsightsGenerationError, MenuButtons)))
  {
  }

  /** A sender who may not use the generating buttons never reaches an
      agent: the replies are the same whatever the agents would do. */
  lemma IneligibleNeverCallsAgent(users: map<int, User>, from: Option<Sender>,
                                  a1: seq<MessagePart> -> AgentRun, a2: seq<MessagePart> -> AgentRun)
    requires SenderId(from).None? || !Eligible(users, from.value.id)
    ensures DailySummaryButtonOn(users, from, a1) == DailySummaryButtonOn(users, from, a2)
    ensures InsightsButtonOn(users, from, a1) == InsightsButtonOn(users, from, a2)
  {
  }

  /** An agent run that takes the whole 30 seconds or more ends in the
      generation error, whatever it would have said. */
  lemma SlowAgentGivesError(users: map<int, User>, from: Option<Sender>,
                            summaryAgent: seq<MessagePart> -> AgentRun, insightsAgent: seq<MessagePart> -> AgentRun)
    requires SenderId(from).Some? && Eligible(users, from.value.id)
    requires summaryAgent(DailySummaryRequest(from.value.id)).elapsedMs >= DailySummaryTimeoutMs
    requires insightsAgent(InsightsRequest(from.value.id)).elapsedMs >= InsightsTimeoutMs
    ensures DailySummaryButtonOn(users, from, summaryAgent)[1] == Reply(SummaryGenerationError, MenuButtons)
    ensures InsightsButtonOn(users, from, insightsAgent)[1] == Reply(InsightsGenerationError, MenuButtons)
  {
  }
}

/** lib/utils/photo-processing.ts: picking the photo size to analyse and
    the MIME type of the downloaded file. */
module PhotoProcessing {
  import opened Wrappers
  import opened Strings

  datatype PhotoSize = PhotoSize(fileId: string)

  /** `getLargestPhoto`: Telegram lists the sizes smallest first, so the
      largest is the last. The array must not be empty. */
  function LargestPhoto(photos: seq<PhotoSize>): (r: PhotoSize)
    requires |photos| > 0
    ensures r in photos
    ensures r == photos[|photos| - 1]
  {
    photos[|photos| - 1]
  }

  const PngMime := "image/png"
  const JpegMime := "image/jpeg"

  /** The MIME type chosen from the file's path. */
  function MimeTypeFor(filePath: Option<string>): (r: string)
    ensures r == PngMime <==> filePath.Some? && EndsWith(filePath.value, ".png")
    ensures r == JpegMime <==> !(filePath.Some? && EndsWith(filePath.value, ".png"))
  {
    if filePath.Some? && EndsWith(filePath.value, ".png") then PngMime else JpegMime
  }

  /** The suffix test is case-sensitive: ".PNG" is sent as JPEG. */
  lemma UpperCasePngIsJpeg(name: string)
    ensures MimeTypeFor(Some(name + ".PNG")) == JpegMime
  {
    var path := name + ".PNG";
    assert path[|path| - 3] == 'P';
  }

  /** Any path ending in ".png" is sent as PNG. */
  lemma PngIsPng(name: string)
    ensures MimeTypeFor(Some(name + ".png")) == PngMime
  {
    var path := name + ".png";
    assert path[|path| - 4..] == ".png";
  }

  /** The file Telegram reports for a file id: its path, when it has one,
      and its content as base64. */
  datatype TelegramFile = TelegramFile(filePath: Option<string>, base64: string)

  datatype Download = Download(base64: string, mimeType: string)

  /** `downloadPhotoFromTelegram`; `getFile` stands for the Bot API lookup
      and the download, None when either throws. */
  function DownloadPhoto(fileId: string, getFile: string -> Option<TelegramFile>): (r: Option<Download>)
    ensures r.Some? <==> getFile(fileId).Some?
    ensures r.Some? ==> (r.value.base64 == getFile(fileId).value.base64
                         && r.value.mimeType == MimeTypeFor(getFile(fileId).value.filePath))
  {
    match getFile(fileId)
    case None => None
    case Some(file) => Some(Download(file.base64, MimeTypeFor(file.filePath)))
  }
}

/** lib/handlers/food-logging.ts: a photo message is analysed once. The
    shared set of processed message ids is an object the handler adds to. */
module FoodLoggingHandler {
  import opened Wrappers
  import opened Types
  import opened Messages
  import opened Supabase
  import opened AgentEvents
  import opened FoodAnalyzerService
  import opened PhotoProcessing

  /** An incoming message: its id and its photo sizes, when it has any. */
  datatype PhotoMessage = PhotoMessage(messageId: int, photos: Option<seq<PhotoSize>>)

  /** The replies after the checks have passed: the analysing notice, then
      the agent's text or the meal-logged text, or the analysis error when
      anything throws (an empty size list, the download, the agent). */
  function AnalysisReplies(id: int, photos: seq<PhotoSize>, getFile: string -> Option<TelegramFile>,
                           agent: seq<MessagePart> -> AgentRun): (r: seq<Reply>)
  {
    var last :=
      if |photos| == 0 then Reply(AnalysisError, MenuButtons)
      else
        (match DownloadPhoto(LargestPhoto(photos).fileId, getFile)
         case None => Reply(AnalysisError, MenuButtons)
         case Some(d) =>
           match AnalysisOutcome(d.base64, d.mimeType, id, agent)
           case Rejected(_) => Reply(AnalysisError, MenuButtons)
           case Resolved(text) => if text != "" then Reply(AgentText(text), MenuButtons) else Reply(MealLogged, MenuButtons));
    [Reply(Analyzing, MenuButtons), last]
  }

  /** `handlePhotoMessage` with the processed ids `seen`: the replies and
      the processed ids after. */
  function HandlePhotoOn(seen: set<int>, users: map<int, User>, message: Option<PhotoMessage>, from: Option<Sender>,
                         getFile: string -> Option<TelegramFile>, agent: seq<MessagePart> -> AgentRun): (r: (seq<Reply>, set<int>))
  {
    if message.None? || message.value.photos.None? then ([], seen)
    else if message.value.messageId in seen then ([], seen)
    else
      var seen' := seen + {message.value.messageId};
      match SenderId(from)
      case None => ([], seen')
      case Some(id) =>
        if id !in users || users[id].step != Completed then ([Reply(FoodOnboardingRequired, NoMarkup)], seen')
        else (AnalysisReplies(id, message.value.photos.value, getFile, agent), seen')
  }

  /** A message without photos is ignored and a known message id returns at
      once, neither recording anything. Otherwise the id is recorded before
      any other check; then a sender who is missing or not done gets the
      onboarding notice, and a finished one the analysis, which works on the
      last (largest) size. */
  lemma PhotoOutcomes(seen: set<int>, users: map<int, User>, message: Option<PhotoMessage>, from: Option<Sender>,
                      getFile: string -> Option<TelegramFile>, agent: seq<MessagePart> -> AgentRun)
    ensures var (replies, seen') := HandlePhotoOn(seen, users, message, from, getFile, agent);
      && (message.None? || message.value.photos.None? ==> replies == [] && seen' == seen)
      && (message.Some? && message.value.photos.Some? ==>
            var m := message.value;
            && seen' == seen + {m.messageId}
            && (m.messageId in seen ==> replies == [])
            && (m.messageId !in seen && SenderId(from).None? ==> replies == [])
            && (m.messageId !in seen && SenderId(from).Some? ==>
                  var id := from.value.id;
                  && (id !in users || users[id].step != Completed ==> replies == [Reply(FoodOnboardingRequired, NoMarkup)])
                  && (id in users && users[id].step == Completed ==>
                        && |replies| == 2 && replies[0] == Reply(Analyzing, MenuButtons)
                        && (|m.photos.value| == 0 ==> replies[1] == Reply(AnalysisError, MenuButtons))
                        && (|m.photos.value| > 0 ==>
                              var photo := m.photos.value[|m.photos.value| - 1];
                              var d := DownloadPhoto(photo.fileId, getFile);
                              && (d.None? ==> replies[1] == Reply(AnalysisError, MenuButtons))
                              && (d.Some? ==>
                                    var run := agent(FoodPhotoRequest(d.value.base64, d.value.mimeType, id));
                                    var text := LastReply(FoodAnalyzerAgentName, run.events);
                                    && (run.error.Some? ==> replies[1] == Reply(AnalysisError, MenuButtons))
                                    && (run.error.None? && text == "" ==> replies[1] == Reply(MealLogged, MenuButtons))
                                    && (run.error.None? && text != "" ==> replies[1] == Reply(AgentText(text), MenuButtons)))))))
  {
  }

  /** The handler only ever adds to the processed ids. */
  lemma SeenOnlyGrows(seen: set<int>, users: map<int, User>, message: Option<PhotoMessage>, from: Option<Sender>,
                      getFile: string -> Option<TelegramFile>, agent: seq<MessagePart> -> AgentRun)
    ensures var seen' := HandlePhotoOn(seen, users, message, from, getFile, agent).1;
      seen <= seen' && |seen' - seen| <= 1
  {
    var seen' := HandlePhotoOn(seen, users, message, from, getFile, agent).1;
    if seen' != seen {
      assert seen' - seen == {message.value.messageId};
    }
  }

  /** A message delivered twice is handled once: the second delivery gets
      no reply and records nothing new, whatever the first one did. */
  lemma SecondDeliveryIgnored(seen: set<int>, users: map<int, User>, message: PhotoMessage, from: Option<Sender>,
                              getFile: string -> Option<TelegramFile>, agent: seq<MessagePart> -> AgentRun)
    requires message.photos.Some?
    ensures var seen1 := HandlePhotoOn(seen, users, Some(message), from, getFile, agent).1;
      HandlePhotoOn(seen1, users, Some(message), from, getFile, agent) == ([], seen1)
  {
  }

  /** The shared set of processed message ids. */
  class ProcessedMessages {
    var ids: set<int>

    constructor ()
      ensures ids == {}
    {
      ids := {};
    }
  }

  method HandlePhotoMessage(processed: ProcessedMessages, db: Store, message: Option<PhotoMessage>, from: Option<Sender>,
                            getFile: string -> Option<TelegramFile>, agent: seq<MessagePart> -> AgentRun)
    returns (replies: seq<Reply>)
    modifies processed
    ensures (replies, processed.ids) == HandlePhotoOn(old(processed.ids), db.users, message, from, getFile, agent)
  {
    if message.None? || message.value.photos.None? {
      return [];
    }
    var messageId := message.value.messageId;
    if messageId in processed.ids {
      return [];
    }
    processed.ids := processed.ids + {messageId};
    var id := SenderId(from);
    if id.None? {
      return [];
    }
    if id.value !in db.users || db.users[id.value].step != Completed {
      return [Reply(FoodOnboardingRequired, NoMarkup)];
    }
    var photos := message.value.photos.value;
    if |photos| == 0 {
      return [Reply(Analyzing, MenuButtons), Reply(AnalysisError, MenuButtons)];
    }
    var photo := LargestPhoto(photos);
    var download := DownloadPhoto(photo.fileId, getFile);
    if download.None? {
      return [Reply(Analyzing, MenuButtons), Reply(AnalysisError, MenuButtons)];
    }
    var o := AnalyzeFoodPhoto(download.value.base64, download.value.mimeType, id.value, agent);
    var last;
    if o.Rejected? {
      last := Reply(AnalysisError, MenuButtons);
    } else if o.text != "" {
      last := Reply(AgentText(o.text), MenuButtons);
    } else {
      last := Reply(MealLogged, MenuButtons);
    }
    replies := [Reply(Analyzing, MenuButtons), last];
  }
}

/** lib/utils/error-handler.ts: the text and keyboard of an error reply. */
module ErrorHandler {
  import opened Wrappers
  import opened Strings
  import opened Messages

  /** A thrown value: an `Error` with its message, a string, or anything
      else. */
  datatype Thrown = ErrorObject(message: string) | ThrownString(text: string) | OtherThrown

  const ErrorPrefix := "Sorry, something went wrong: "
  const DatabaseErrorText := "A database error occurred. Please try again."
  const UnexpectedErrorText := "An unexpected error occurred. Please try again."

  /** The message an error reply shows. */
  function ErrorMessage(error: Thrown, defaultMessage: string): (r: string)
    ensures error.ErrorObject? ==> r == error.message
    ensures error.ThrownString? ==> r == error.text
    ensures error.OtherThrown? ==> r == defaultMessage
  {
    match error
    case ErrorObject(message) => message
    case ThrownString(text) => text
    case OtherThrown => defaultMessage
  }

  /** `handleErrorWithKeyboard`: the given keyboard, or the menu. */
  function ErrorReplyWithKeyboard(error: Thrown, defaultMessage: string, keyboard: Option<Markup>): (r: Reply)
  {
    Reply(Plain(ErrorPrefix + ErrorMessage(error, defaultMessage)), if keyboard.Some? then keyboard.value else MenuButtons)
  }

  /** `handleError`: the error reply with the menu. */
  function ErrorReply(error: Thrown, defaultMessage: string): (r: Reply)
  {
    Reply(Plain(ErrorPrefix + ErrorMessage(error, defaultMessage)), MenuButtons)
  }

  /** The reply text is the fixed prefix followed by the chosen message, so
      the message can be read back from the reply; `handleError` is
      `handleErrorWithKeyboard` without a keyboard; a given keyboard is
      used as is. */
  lemma ErrorReplies(error: Thrown, defaultMessage: string, keyboard: Option<Markup>)
    ensures var r := ErrorReplyWithKeyboard(error, defaultMessage, keyboard);
      && r.msg.Plain? && StartsWith(r.msg.text, ErrorPrefix)
      && r.msg.text[|ErrorPrefix|..] == ErrorMessage(error, defaultMessage)
      && (keyboard.Some? ==> r.markup == keyboard.value)
      && (keyboard.None? ==> r.markup == MenuButtons)
      && ErrorReply(error, defaultMessage) == ErrorReplyWithKeyboard(error, defaultMessage, None)
  {
    var r := ErrorReplyWithKeyboard(error, defaultMessage, keyboard);
    assert r.msg.text[..|ErrorPrefix|] == ErrorPrefix;
  }

  /** The default message is used only for a value that is neither an
      `Error` nor a string. */
  lemma DefaultOnlyForOther(error: Thrown, d1: string, d2: string)
    requires !error.OtherThrown?
    ensures ErrorReply(error, d1) == ErrorReply(error, d2)
  {
  }

  /** `handleDatabaseError`: one fixed text for an `Error`, another for
      anything else; the error's own message is never shown. */
  function DatabaseErrorMessage(error: Thrown): (r: string)
    ensures r == DatabaseErrorText <==> error.ErrorObject?
    ensures r == UnexpectedErrorText <==> !error.ErrorObject?
  {
    if error.ErrorObject? then DatabaseErrorText else UnexpectedErrorText
  }
}
