/** The loop the four agent services share (lib/services/insights.ts,
    daily-summary.ts, questions.ts, food-analyzer.ts): the reply text is
    folded out of the runner's event stream. The stream itself, and how long
    the run takes, are inputs: the agents are not part of this model. */
module AgentEvents {
  import opened Wrappers

  /** A content part; `text` is absent for non-text parts. */
  datatype Part = Part(text: Option<string>)

  /** An event of the runner: its author and `content?.parts`. */
  datatype Event = Event(author: string, parts: Option<seq<Part>>)

  /** `"text" in part && part.text`: a part with a non-empty text. */
  predicate HasText(p: Part) {
    p.text.Some? && p.text.value != ""
  }

  /** The texts of the parts with a non-empty text, concatenated in order. */
  function PartsText(parts: seq<Part>): string {
    if parts == [] then ""
    else PartsText(parts[..|parts| - 1]) + (if HasText(parts[|parts| - 1]) then parts[|parts| - 1].text.value else "")
  }

  /** An event the loop takes its reply from: authored by the agent and
      carrying content parts. */
  predicate Qualifies(agent: string, e: Event) {
    e.author == agent && e.parts.Some?
  }

  /** The reply the loop leaves behind after `events`: the text of the last
      qualifying event, "" when there is none. */
  function LastReply(agent: string, events: seq<Event>): (r: string)
    ensures r == "" || exists i | 0 <= i < |events| :: Qualifies(agent, events[i]) && r == PartsText(events[i].parts.value)
  {
    if events == [] then ""
    else
      var e := events[|events| - 1];
      if Qualifies(agent, e) then PartsText(e.parts.value)
      else
        var rest := events[..|events| - 1];
        assert forall i | 0 <= i < |rest| :: rest[i] == events[i];
        LastReply(agent, rest)
  }

  /** The `for await` loop: every qualifying event resets the reply to ""
      and appends the non-empty texts of its parts. */
  method CollectResponse(agent: string, events: seq<Event>) returns (response: string)
    ensures response == LastReply(agent, events)
  {
    response := "";
    var i := 0;
    while i < |events|
      invariant 0 <= i <= |events|
      invariant response == LastReply(agent, events[..i])
    {
      var e := events[i];
      if e.author == agent && e.parts.Some? {
        var parts := e.parts.value;
        response := "";
        var j := 0;
        while j < |parts|
          invariant 0 <= j <= |parts|
          invariant response == PartsText(parts[..j])
        {
          if parts[j].text.Some? && parts[j].text.value != "" {
            response := response + parts[j].text.value;
          }
          assert parts[..j + 1][..j] == parts[..j];
          j := j + 1;
        }
        assert parts[..j] == parts;
      }
      assert events[..i + 1][..i] == events[..i];
      i := i + 1;
    }
    assert events[..i] == events;
  }

  /** The events the loop can take its reply from. */
  function OwnEvents(agent: string, events: seq<Event>): (r: seq<Event>)
    ensures forall e | e in r :: Qualifies(agent, e)
  {
    if events == [] then []
    else
      var e := events[|events| - 1];
      OwnEvents(agent, events[..|events| - 1]) + (if Qualifies(agent, e) then [e] else [])
  }

  /** Events of other authors, and events without parts, never affect the
      reply: it is the same as over the qualifying events alone. */
  lemma {:induction false} OtherEventsIgnored(agent: string, events: seq<Event>)
    ensures LastReply(agent, events) == LastReply(agent, OwnEvents(agent, events))
  {
    if events != [] {
      var init := events[..|events| - 1];
      var e := events[|events| - 1];
      OtherEventsIgnored(agent, init);
      if Qualifies(agent, e) {
        var own := OwnEvents(agent, init) + [e];
        assert own[..|own| - 1] == OwnEvents(agent, init);
      }
    }
  }

  /** With no qualifying event the reply is "". */
  lemma {:induction false} NoQualifyingEvent(agent: string, events: seq<Event>)
    requires forall i | 0 <= i < |events| :: !Qualifies(agent, events[i])
    ensures LastReply(agent, events) == ""
  {
    if events != [] {
      NoQualifyingEvent(agent, events[..|events| - 1]);
    }
  }

  /** The reply is the text of the last qualifying event: whatever came
      before it is discarded, and nothing after it counts. */
  lemma {:induction false} LastQualifyingWins(agent: string, before: seq<Event>, e: Event, after: seq<Event>)
    requires Qualifies(agent, e)
    requires forall i | 0 <= i < |after| :: !Qualifies(agent, after[i])
    ensures LastReply(agent, before + [e] + after) == PartsText(e.parts.value)
  {
    if after == [] {
      assert (before + [e] + after)[..|before| + 1 - 1] == before;
    } else {
      var all := before + [e] + after;
      assert all[..|all| - 1] == before + [e] + after[..|after| - 1];
      LastQualifyingWins(agent, before, e, after[..|after| - 1]);
    }
  }

  /** Parts without a non-empty text contribute nothing. */
  lemma {:induction false} TextlessPartsEmpty(parts: seq<Part>)
    requires forall i | 0 <= i < |parts| :: !HasText(parts[i])
    ensures PartsText(parts) == ""
  {
    if parts != [] {
      TextlessPartsEmpty(parts[..|parts| - 1]);
    }
  }

  /** A later agent event whose parts carry no text resets the reply to "",
      whatever earlier events produced. */
  lemma TextlessEventResets(agent: string, before: seq<Event>, e: Event, after: seq<Event>)
    requires Qualifies(agent, e)
    requires forall i | 0 <= i < |e.parts.value| :: !HasText(e.parts.value[i])
    requires forall i | 0 <= i < |after| :: !Qualifies(agent, after[i])
    ensures LastReply(agent, before + [e] + after) == ""
  {
    LastQualifyingWins(agent, before, e, after);
    TextlessPartsEmpty(e.parts.value);
  }

  /** A part of the message sent to an agent. */
  datatype MessagePart = TextPart(text: string) | InlineData(mimeType: string, data: string)

  /** How a run of an agent ended: the events it produced before finishing
      or failing, the time it took, and the error it threw, if any. */
  datatype AgentRun = AgentRun(events: seq<Event>, elapsedMs: nat, error: Option<string>)

  /** The settled value of `Promise.race([run, timeout])`. */
  datatype Outcome = Resolved(text: string) | Rejected(reason: string)

  /** The race between the run and a timer of `deadlineMs` (none when
      absent). A run that needs the whole deadline or more loses the race. */
  function Race(deadlineMs: Option<nat>, timeoutMessage: string, run: AgentRun, reply: string): (r: Outcome)
    ensures r.Resolved? <==> (deadlineMs.None? || run.elapsedMs < deadlineMs.value) && run.error.None?
    ensures r.Resolved? ==> r.text == reply
    ensures deadlineMs.Some? && run.elapsedMs >= deadlineMs.value ==> r == Rejected(timeoutMessage)
    ensures r.Rejected? && (deadlineMs.None? || run.elapsedMs < deadlineMs.value) ==> r.reason == run.error.value
  {
    if deadlineMs.Some? && run.elapsedMs >= deadlineMs.value then Rejected(timeoutMessage)
    else if run.error.Some? then Rejected(run.error.value)
    else Resolved(reply)
  }
}
