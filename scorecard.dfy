/**
 * The scorecard route (`POST` in src/app/api/generate-scorecard/route.ts) up to and around the
 * model call: the request is validated, the transcript is rendered one speaker-labelled line per
 * entry, the coaching prompt is assembled from the scenario, the duration and the transcript,
 * and an empty completion is an error. The chat-completion call and `JSON.parse` are parameters.
 */
module Scorecard {
  import opened Wrappers
  import Js
  import opened Scenarios

  /** One transcript entry: who spoke (`user` is the trainee) and what was said. */
  datatype Entry = Entry(role: string, text: string)

  /**
   * What `request.json()` gave: the fields the route reads, or the message it was rejected
   * with. `transcript` is absent when the field is not an array.
   */
  datatype Fields = Fields(scenarioId: Option<string>, transcript: Option<seq<Entry>>, duration: Option<int>)

  const FIELDS_REQUIRED: string := "scenarioId and transcript are required"
  const NO_RESPONSE: string := "No response from model"
  const NO_TRANSCRIPT: string := "(No transcript provided)"
  const SCORING_MODEL: string := "gpt-4o"

  /** The prompt's fixed opening, up to the scenario name. */
  const PROMPT_OPENING: string := @"You are an expert SDR coach analysing a cold call simulation. You have been given the full transcript of a practice cold call between a trainee SDR and an AI prospect.

CONTEXT:
- Scenario: "

  /**
   * The prompt's fixed closing after the transcript: the scoring rules and the JSON shape asked for.
   * The text is written as verbatim pieces joined by `+`; the split points carry no meaning.
   */
  const PROMPT_RULES: string := ((@"

SCORING RULES — BE STRICT ON SHORT/MINIMAL CALLS:
- If the call was very short (e.g. under 30–60 seconds) or the SDR said almost nothing (only a few words, one short line, or no real engagement), scores must be LOW. Overall score and all skill scores should be in the 0–20 range. Do not give 30+ for a call where the SDR barely spoke; that would be too generous.
" + @"- Only give moderate or high scores (e.g. 40+) when there was real back-and-forth: multiple SDR turns, questions asked, some attempt at discovery or handling objections. Short calls with minimal SDR contribution should get overall_score and skill scores in the 0–25 range.

Analyse this call and return a JSON object with the following structure. Be specific, cite exact moments from the transcript, and be constructively critical — this person is here to improve, not to be flattered.

{
  ""outcome"": ""meeting_booked"" | ""soft_maybe"" | ""rejected"" | ""hung_up"" | ""time_expired"",
") + (@"  ""overall_score"": <0-100>,
  ""overall_summary"": ""<1-2 sentence summary of performance>"",
  ""skills"": {
    ""opener_hook"": {
      ""score"": <0-100>,
      ""feedback"": ""<2-3 sentences. How was their opening? Did they earn attention quickly?>""
    },
    ""discovery_questions"": {
      ""score"": <0-100>,
      ""feedback"": ""<2-3 sentences. Did they ask smart questions? Did they listen?>""
    },
    ""objection_handling"": {
      ""score"": <0-100>,
      ""feedback"": ""<2-3 sentences. How did they handle pushback?>""
    },
    ""close_next_steps"": {
      ""score"": <0-100>,
" + (@"      ""feedback"": ""<2-3 sentences. Did they drive toward a concrete outcome?>""
    }
  },
  ""key_moments"": [
    {
      ""timestamp_estimate"": ""<approximate timestamp, e.g. '0:42'>"",
      ""what_happened"": ""<what the caller or prospect said/did>"",
      ""coaching_tip"": ""<specific advice on what to do differently>""
    }
  ],
  ""top_strength"": ""<one thing they did well, be specific>"",
  ""top_improvement"": ""<one thing to focus on next time, be specific>""
}

" + @"Be honest but encouraging. The goal is to make this person better, not to discourage them. If they did something well, celebrate it. If they made a mistake, explain exactly what to do instead — with a concrete example of what they could have said.

Remember: a call where the SDR spoke for only a few seconds with little or no substance should get overall_score and skill scores in the 0–20 range, not 30+. Save higher scores for real engagement.

Return ONLY the JSON object. No markdown, no backticks, no explanation.")))


  /** Who a line is attributed to: `SDR` for the trainee, the prospect's name for anyone else. */
  function SpeakerLabel(role: string, prospectName: string): string {
    if role == "user" then "SDR" else prospectName
  }

  /** One transcript line, `<speaker>: <text>`: the speaker, then `": "`, then the text as spoken. */
  function RenderEntry(e: Entry, prospectName: string): (r: string)
    ensures var speaker := SpeakerLabel(e.role, prospectName);
      && |r| == |speaker| + 2 + |e.text|
      && r[..|speaker|] == speaker && r[|speaker|..|speaker| + 2] == ": " && r[|speaker| + 2..] == e.text
  {
    SpeakerLabel(e.role, prospectName) + ": " + e.text
  }

  /** `transcript.map(...)`: one rendered line per entry, in transcript order. */
  function RenderTranscript(transcript: seq<Entry>, prospectName: string): (r: seq<string>)
    ensures |r| == |transcript|
    ensures forall i :: 0 <= i < |r| ==> r[i] == RenderEntry(transcript[i], prospectName)
  {
    if transcript == [] then []
    else [RenderEntry(transcript[0], prospectName)] + RenderTranscript(transcript[1..], prospectName)
  }

  /**
   * `transcriptText`: the rendered lines joined with newlines, so no entries give no text, one
   * entry gives its line, and each further entry follows the first after a line break.
   */
  function TranscriptText(transcript: seq<Entry>, prospectName: string): (r: string)
    ensures transcript == [] ==> r == ""
    ensures |transcript| == 1 ==> r == RenderEntry(transcript[0], prospectName)
    ensures |transcript| > 1 ==> r == RenderEntry(transcript[0], prospectName) + "\n" + TranscriptText(transcript[1..], prospectName)
  {
    Js.Join(RenderTranscript(transcript, prospectName), "\n")
  }

  /** `transcriptText || "(No transcript provided)"`: the text, or the placeholder when it is empty. */
  function ShownTranscript(text: string): (r: string)
    ensures r != ""
    ensures text != "" ==> r == text
    ensures text == "" ==> r == NO_TRANSCRIPT
  {
    if text != "" then text else NO_TRANSCRIPT
  }

  /** The context bullets up to and including the line break after the objective. */
  function ContextBlock(s: Scenario): string {
    PROMPT_OPENING + s.name + "\n- Prospect: " + s.prospectName + ", " + s.prospectTitle + " at " + s.company
    + "\n- Prospect personality: " + s.challengeDescription + "\n- Objective: " + s.objective + "\n"
  }

  /** `- Call duration: ${duration} seconds`, the duration in decimal. */
  function DurationLine(duration: int): string {
    "- Call duration: " + Js.IntToString(duration) + " seconds"
  }

  const TRANSCRIPT_HEADING: string := "\n\nTRANSCRIPT:\n"

  /** The prompt up to the transcript: context bullets and the duration line (0 when absent). */
  function PromptHead(s: Scenario, duration: Option<int>): string {
    ContextBlock(s) + DurationLine(duration.GetOr(0))
  }

  /** The coaching prompt: context, duration, the transcript or its placeholder under its heading, then `rules`. */
  function PromptWith(rules: string, s: Scenario, duration: Option<int>, text: string): string {
    PromptHead(s, duration) + TRANSCRIPT_HEADING + ShownTranscript(text) + rules
  }

  /** The prompt the route sends, closing with the scoring rules. */
  function ScoringPrompt(s: Scenario, duration: Option<int>, text: string): string {
    PromptWith(PROMPT_RULES, s, duration, text)
  }

  /** Whatever the closing text, the prompt opens with the fixed opening and the scenario's name. */
  lemma PromptOpensWithScenario(rules: string, s: Scenario, duration: Option<int>, text: string)
    ensures exists rest :: PromptWith(rules, s, duration, text) == PROMPT_OPENING + s.name + rest
  {
    var r := PromptWith(rules, s, duration, text);
    var rest := r[|PROMPT_OPENING + s.name|..];
    assert r == PROMPT_OPENING + s.name + rest;
  }

  /** The prompt ends with the closing text. */
  lemma PromptEndsWithRules(rules: string, s: Scenario, duration: Option<int>, text: string)
    ensures exists head :: PromptWith(rules, s, duration, text) == head + rules
  {
    var head := PromptHead(s, duration) + TRANSCRIPT_HEADING + ShownTranscript(text);
    assert PromptWith(rules, s, duration, text) == head + rules;
  }

  /** The prompt names the call's duration. */
  lemma PromptNamesDuration(rules: string, s: Scenario, duration: Option<int>, text: string)
    ensures Js.IsInfix(DurationLine(duration.GetOr(0)), PromptWith(rules, s, duration, text))
  {
    var c := ContextBlock(s);
    var d := DurationLine(duration.GetOr(0));
    var x := TRANSCRIPT_HEADING + ShownTranscript(text);
    assert PromptWith(rules, s, duration, text) == c + d + (x + rules);
    Js.InfixAt(c, d, x + rules);
  }

  /** A missing duration is stated as 0 seconds. */
  lemma MissingDurationIsZero(rules: string, s: Scenario, text: string)
    ensures Js.IsInfix("- Call duration: 0 seconds", PromptWith(rules, s, None, text))
  {
    PromptNamesDuration(rules, s, None, text);
    assert Js.IntToString(0) == "0";
    assert DurationLine(0) == "- Call duration: 0 seconds";
  }

  /** The prompt shows the transcript, or the placeholder, under its heading. */
  lemma PromptShowsTranscript(rules: string, s: Scenario, duration: Option<int>, text: string)
    ensures Js.IsInfix(TRANSCRIPT_HEADING + ShownTranscript(text), PromptWith(rules, s, duration, text))
  {
    var x := TRANSCRIPT_HEADING + ShownTranscript(text);
    assert PromptWith(rules, s, duration, text) == PromptHead(s, duration) + x + rules;
    Js.InfixAt(PromptHead(s, duration), x, rules);
  }

  /**
   * The prompt the route sends opens with the scenario, names the duration (0 seconds when none
   * was given), shows the transcript or its placeholder, and ends with the scoring rules.
   */
  lemma PromptCarriesCallFacts(s: Scenario, duration: Option<int>, text: string)
    ensures exists rest :: ScoringPrompt(s, duration, text) == PROMPT_OPENING + s.name + rest
    ensures exists head :: ScoringPrompt(s, duration, text) == head + PROMPT_RULES
    ensures Js.IsInfix(DurationLine(duration.GetOr(0)), ScoringPrompt(s, duration, text))
    ensures duration.None? ==> Js.IsInfix("- Call duration: 0 seconds", ScoringPrompt(s, duration, text))
    ensures Js.IsInfix(TRANSCRIPT_HEADING + ShownTranscript(text), ScoringPrompt(s, duration, text))
  {
    PromptOpensWithScenario(PROMPT_RULES, s, duration, text);
    PromptEndsWithRules(PROMPT_RULES, s, duration, text);
    PromptNamesDuration(PROMPT_RULES, s, duration, text);
    if duration.None? {
      MissingDurationIsZero(PROMPT_RULES, s, text);
    }
    PromptShowsTranscript(PROMPT_RULES, s, duration, text);
  }

  /** Without line breaks in the prospect's name or the texts, splitting the text on newlines gives one line per entry back. */
  lemma TranscriptLinesRoundTrip(transcript: seq<Entry>, prospectName: string)
    requires |transcript| >= 1
    requires '\n' !in prospectName
    requires forall i :: 0 <= i < |transcript| ==> '\n' !in transcript[i].text
    ensures Js.Split(TranscriptText(transcript, prospectName), '\n') == RenderTranscript(transcript, prospectName)
    ensures |Js.Split(TranscriptText(transcript, prospectName), '\n')| == |transcript|
  {
    var lines := RenderTranscript(transcript, prospectName);
    forall i | 0 <= i < |lines| ensures '\n' !in lines[i] {
      var e := transcript[i];
      var speaker := SpeakerLabel(e.role, prospectName);
      assert lines[i] == speaker + ": " + e.text;
      assert '\n' !in speaker;
    }
    Js.SplitJoin(lines, '\n');
  }

  /** The rendered text is empty exactly when the transcript is, which is when the placeholder is shown. */
  lemma EmptyTextIffEmptyTranscript(transcript: seq<Entry>, prospectName: string)
    ensures TranscriptText(transcript, prospectName) == "" <==> transcript == []
    ensures transcript == [] ==> ShownTranscript(TranscriptText(transcript, prospectName)) == NO_TRANSCRIPT
    ensures transcript != [] ==> ShownTranscript(TranscriptText(transcript, prospectName)) == TranscriptText(transcript, prospectName)
  {
    var lines := RenderTranscript(transcript, prospectName);
    if transcript != [] {
      assert |lines[0]| >= 2;
      if |lines| > 1 {
        assert Js.Join(lines, "\n") == lines[0] + "\n" + Js.Join(lines[1..], "\n");
      }
    }
  }

  /** The chat-completion request: the model, the prompt as the one user message, JSON output. */
  datatype ModelRequest = ModelRequest(model: string, prompt: string, responseFormat: string)

  /** The completion call threw, or returned `choices[0]?.message?.content`, possibly absent. */
  datatype Completion = CompletionFailed(message: string) | Completed(content: Option<string>)

  /** The JSON answered: an error, or the scorecard parsed from the model's content (`raw`). */
  datatype Body = ErrorBody(error: string) | ScorecardBody(raw: string)

  datatype Response = Response(status: int, body: Body)

  /** The response, with the model request made, if any. */
  datatype Outcome = Outcome(response: Response, asked: Option<ModelRequest>)

  /**
   * The route. `complete` is the chat-completion call; `parseJson` gives the message
   * `JSON.parse` throws with, or nothing when the content parses.
   */
  function Respond(
    body: Result<Fields, string>, complete: ModelRequest -> Completion, parseJson: string -> Option<string>): (o: Outcome)
    ensures o.response.body.ScorecardBody? ==> o.asked.Some?
  {
    if body.Failure? then Outcome(Response(500, ErrorBody(body.error)), None)
    else
      var fields := body.value;
      if !Js.Truthy(fields.scenarioId) || fields.transcript.None? then
        Outcome(Response(400, ErrorBody(FIELDS_REQUIRED)), None)
      else
        match GetScenario(fields.scenarioId.value)
        case Failure(e) => Outcome(Response(500, ErrorBody(e)), None)
        case Success(s) =>
          var text := TranscriptText(fields.transcript.value, s.prospectName);
          var request := ModelRequest(SCORING_MODEL, ScoringPrompt(s, fields.duration, text), "json_object");
          var response :=
            match complete(request)
            case CompletionFailed(message) => Response(500, ErrorBody(message))
            case Completed(raw) =>
              if !Js.Truthy(raw) then Response(500, ErrorBody(NO_RESPONSE))
              else if parseJson(raw.value).Some? then Response(500, ErrorBody(parseJson(raw.value).value))
              else Response(200, ScorecardBody(raw.value));
          Outcome(response, Some(request))
  }

  /** A missing scenario id or a transcript that is not an array is answered 400 before any lookup or model call. */
  lemma ValidationBeforeLookup(
    fields: Fields, complete: ModelRequest -> Completion, parseJson: string -> Option<string>)
    requires !Js.Truthy(fields.scenarioId) || fields.transcript.None?
    ensures Respond(Success(fields), complete, parseJson) == Outcome(Response(400, ErrorBody(FIELDS_REQUIRED)), None)
  {
  }

  /** An id the catalogue does not know is answered 500 with the lookup's message, and the model is not asked. */
  lemma UnknownScenarioIsServerError(
    fields: Fields, complete: ModelRequest -> Completion, parseJson: string -> Option<string>)
    requires Js.Truthy(fields.scenarioId) && fields.transcript.Some?
    requires fields.scenarioId.value !in SCENARIO_NAMES
    ensures Respond(Success(fields), complete, parseJson)
      == Outcome(Response(500, ErrorBody("Unknown scenario: " + fields.scenarioId.value)), None)
  {
  }

  /** An empty or absent completion is answered 500 `No response from model`. */
  lemma EmptyCompletionIsError(
    fields: Fields, complete: ModelRequest -> Completion, parseJson: string -> Option<string>)
    requires var o := Respond(Success(fields), complete, parseJson);
      o.asked.Some? && complete(o.asked.value).Completed? && !Js.Truthy(complete(o.asked.value).content)
    ensures Respond(Success(fields), complete, parseJson).response == Response(500, ErrorBody(NO_RESPONSE))
  {
  }

  /**
   * A scorecard is returned only for a valid request about a known scenario: the model was asked
   * with that scenario's prompt over the rendered transcript, and its content was non-empty and parsed.
   */
  lemma ScorecardOnlyFromParsedContent(
    fields: Fields, complete: ModelRequest -> Completion, parseJson: string -> Option<string>)
    requires Respond(Success(fields), complete, parseJson).response.body.ScorecardBody?
    ensures Js.Truthy(fields.scenarioId) && fields.transcript.Some?
    ensures var s := GetScenario(fields.scenarioId.value);
      var o := Respond(Success(fields), complete, parseJson);
      var raw := o.response.body.raw;
      && s.Success?
      && o.asked == Some(ModelRequest(SCORING_MODEL,
           ScoringPrompt(s.value, fields.duration, TranscriptText(fields.transcript.value, s.value.prospectName)), "json_object"))
      && complete(o.asked.value) == Completed(Some(raw))
      && raw != "" && parseJson(raw).None?
  {
  }
}
