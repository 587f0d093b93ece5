/**
 * The landing page's simulated live call (src/app/components/CallInProgressHero.tsx): a clock
 * that ticks once a second and is shown as `MM:SS`, and a scripted transcript revealed one line
 * at a time. The timers and the random delay between lines are not modelled; each `Tick` and
 * each `RevealNext` is one firing of the corresponding timer.
 */
module CallHero {
  import Js

  const PROSPECT_NAME: string := "Sarah Chen"

  datatype Role = You | Prospect

  /** One scripted line: who says it and what. */
  datatype Line = Line(role: Role, text: string)

  /** The fixed script the transcript is revealed from. */
  const TRANSCRIPT_LINES: seq<Line> := [
    Line(You, "Hi Sarah, this is Alex from Vertex — do you have 30 seconds?"),
    Line(Prospect, "I'm in back-to-backs. Can you email me?"),
    Line(You, "Happy to. What's the one thing you'd want to see in the first line?"),
    Line(Prospect, "How it saves us time. We're drowning in manual reports."),
    Line(You, "Got it. I'll send something focused on that. When's your next 15 min free?"),
    Line(Prospect, "Thursday 2pm works. Send the calendar link."),
    Line(You, "Done. Talk Thursday.")
  ]

  /** `n.toString().padStart(2, "0")`: at least two digits, zero-padded, never cut. */
  function Pad2(n: nat): (r: string)
    ensures Js.AllDigits(r) && |r| >= 2
    ensures n < 100 <==> |r| == 2
  {
    Js.PadStart(Js.NatToString(n), 2, '0')
  }

  /** The padding only adds leading zeros, so the number reads back unchanged. */
  lemma Pad2RoundTrip(n: nat)
    ensures Js.ParseDigits(Pad2(n)) == n
  {
    Js.ParsePadded(Js.NatToString(n), 2);
    Js.ParseNatToString(n);
  }

  /** The shape `formatTime` produces: digits, a colon, then exactly two digits. */
  predicate IsClockText(r: string) {
    |r| >= 5 && r[|r| - 3] == ':' && Js.AllDigits(r[..|r| - 3]) && Js.AllDigits(r[|r| - 2..])
  }

  /** Minutes, a colon and a two-digit seconds field: each part can be cut back out by position. */
  lemma ColonJoin(m: string, s: string)
    requires |m| >= 2 && |s| == 2 && Js.AllDigits(m) && Js.AllDigits(s)
    ensures var r := m + ":" + s;
      && IsClockText(r) && |r| == |m| + 3 && r[..|r| - 3] == m && r[|r| - 2..] == s
  {
    var r := m + ":" + s;
    assert r[..|m|] == m;
    assert r[|m| + 1..] == s;
  }

  /** The clock text for a minute count and a seconds count below a minute. */
  function ClockText(minutes: nat, secs: nat): (r: string)
    requires secs < 60
    ensures IsClockText(r)
    ensures r[..|r| - 3] == Pad2(minutes) && r[|r| - 2..] == Pad2(secs)
    ensures minutes < 100 <==> |r| == 5
  {
    ColonJoin(Pad2(minutes), Pad2(secs));
    Pad2(minutes) + ":" + Pad2(secs)
  }

  /** Fewer than 6000 seconds is fewer than 100 whole minutes. */
  lemma MinutesBelowHundred(seconds: nat)
    ensures seconds < 6000 <==> seconds / 60 < 100
  {
    var m := seconds / 60;
    assert seconds == m * 60 + seconds % 60;
  }

  /**
   * `formatTime(seconds)`: whole minutes and remaining seconds, each at least two digits, with a
   * colon between; the seconds field is exactly two digits, so the colon is third from the end.
   */
  function FormatTime(seconds: nat): (r: string)
    ensures IsClockText(r)
    ensures seconds < 6000 <==> |r| == 5
  {
    MinutesBelowHundred(seconds);
    ClockText(seconds / 60, seconds % 60)
  }

  /** The number shown before the colon. */
  function MinutesField(r: string): nat
    requires IsClockText(r)
  {
    Js.ParseDigits(r[..|r| - 3])
  }

  /** The number shown in the two digits after the colon. */
  function SecondsField(r: string): nat
    requires IsClockText(r)
  {
    Js.ParseDigits(r[|r| - 2..])
  }

  /** Reads `MM:SS` back: minutes before the colon, seconds after it. */
  function ParseTime(r: string): (seconds: nat)
    requires IsClockText(r)
  {
    MinutesField(r) * 60 + SecondsField(r)
  }

  /** Both fields read back as the counts they were rendered from. */
  lemma ClockTextRoundTrip(minutes: nat, secs: nat)
    requires secs < 60
    ensures MinutesField(ClockText(minutes, secs)) == minutes
    ensures SecondsField(ClockText(minutes, secs)) == secs
  {
    Pad2RoundTrip(minutes);
    Pad2RoundTrip(secs);
  }

  /**
   * The clock loses nothing: the seconds field is the remainder within the minute (so always in
   * `00`..`59`), the minutes field the whole minutes, and reading the shown time back gives the
   * seconds counted.
   */
  lemma FormatTimeRoundTrip(seconds: nat)
    ensures SecondsField(FormatTime(seconds)) == seconds % 60 < 60
    ensures MinutesField(FormatTime(seconds)) == seconds / 60
    ensures ParseTime(FormatTime(seconds)) == seconds
  {
    var minutes, secs := seconds / 60, seconds % 60;
    ClockTextRoundTrip(minutes, secs);
    assert FormatTime(seconds) == ClockText(minutes, secs);
    assert seconds == minutes * 60 + secs;
  }

  /** The clock starts at `00:00`. */
  lemma FormatTimeZero()
    ensures FormatTime(0) == "00:00"
  {
    assert Js.NatToString(0) == "0";
    assert Pad2(0) == "00";
  }

  /** One reveal step: the next scripted line is appended, until the script is exhausted. */
  function NextTranscript(transcript: seq<Line>): (r: seq<Line>)
    requires transcript <= TRANSCRIPT_LINES
    ensures r <= TRANSCRIPT_LINES
    ensures |transcript| < |TRANSCRIPT_LINES| ==> r == transcript + [TRANSCRIPT_LINES[|transcript|]]
    ensures |transcript| >= |TRANSCRIPT_LINES| ==> r == transcript
  {
    if |transcript| >= |TRANSCRIPT_LINES| then transcript
    else
      assert transcript + [TRANSCRIPT_LINES[|transcript|]] == TRANSCRIPT_LINES[..|transcript| + 1];
      transcript + [TRANSCRIPT_LINES[|transcript|]]
  }

  /** The transcript after `k` reveal steps from empty. */
  function RevealSteps(k: nat): (r: seq<Line>)
    ensures r <= TRANSCRIPT_LINES
  {
    if k == 0 then [] else NextTranscript(RevealSteps(k - 1))
  }

  /** After `k` steps the first `min(k, 7)` lines are shown, in script order. */
  lemma {:induction false} RevealStepsShowPrefix(k: nat)
    ensures var n := if k < |TRANSCRIPT_LINES| then k else |TRANSCRIPT_LINES|;
      RevealSteps(k) == TRANSCRIPT_LINES[..n]
  {
    if k > 0 {
      RevealStepsShowPrefix(k - 1);
    }
  }

  /** The widget's state: seconds on the clock, and the lines shown so far. */
  class CallInProgressHero {
    var seconds: nat
    var transcript: seq<Line>

    /** The shown lines are always the start of the script. */
    predicate Valid()
      reads this
    {
      transcript <= TRANSCRIPT_LINES
    }

    constructor()
      ensures Valid()
      ensures seconds == 0 && transcript == []
    {
      seconds := 0;
      transcript := [];
    }

    /** The clock text shown: it reads back as the seconds counted. */
    function Clock(): (r: string)
      reads this
      ensures IsClockText(r) && ParseTime(r) == seconds
    {
      FormatTimeRoundTrip(seconds);
      FormatTime(seconds)
    }

    /** One tick of the one-second interval: the counter goes up by exactly one. */
    method Tick()
      requires Valid()
      modifies this
      ensures Valid()
      ensures seconds == old(seconds) + 1 && transcript == old(transcript)
    {
      seconds := seconds + 1;
    }

    /** One firing of the reveal timeout, which is only armed while lines remain. */
    method RevealNext()
      requires Valid()
      modifies this
      ensures Valid()
      ensures transcript == NextTranscript(old(transcript)) && seconds == old(seconds)
    {
      if |transcript| >= |TRANSCRIPT_LINES| {
        return;
      }
      transcript := transcript + [TRANSCRIPT_LINES[|transcript|]];
    }
  }
}
