/**
 * The live coach's deterministic parts: the performance label for a score on
 * a 0-100 scale, the elapsed-time text, and the record that wraps the
 * language model's feedback or end-of-session summary (overall score, label,
 * weakest area, time text).
 *
 * The model's text and the timestamp are parameters; the prompt is not modelled.
 */
module LiveCoach {
  import opened PyNum
  import opened PyText
  import opened MetricAreas

  const EXCELLENT := "Excellent"
  const GOOD := "Good"
  const AVERAGE := "Average"
  const NEEDS_WORK := "Needs Work"

  /** The labels from the lowest band to the highest. */
  const LABELS: seq<string> := [NEEDS_WORK, AVERAGE, GOOD, EXCELLENT]

  /** `get_performance_label`: above 70 is excellent; 50 and 20 are inclusive lower bounds. */
  function PerformanceLabel(score: real): (l: string)
    ensures l in LABELS
    ensures l == EXCELLENT <==> score > 70.0
    ensures l == GOOD <==> 50.0 <= score <= 70.0
    ensures l == AVERAGE <==> 20.0 <= score < 50.0
    ensures l == NEEDS_WORK <==> score < 20.0
  {
    if score > 70.0 then EXCELLENT
    else if score >= 50.0 then GOOD
    else if score >= 20.0 then AVERAGE
    else NEEDS_WORK
  }

  /** The band a score falls in, counted from the bottom. */
  function Band(score: real): (b: nat)
    ensures b < |LABELS|
  {
    if score > 70.0 then 3 else if score >= 50.0 then 2 else if score >= 20.0 then 1 else 0
  }

  /** The label is the band's entry in LABELS, and a higher score never gets a lower band. */
  lemma LabelFollowsBand(score: real, higher: real)
    requires score <= higher
    ensures PerformanceLabel(score) == LABELS[Band(score)]
    ensures Band(score) <= Band(higher)
  {
  }

  /**
   * `format_elapsed_time`: under a minute the seconds in words; a whole
   * number of minutes as "N minute(s)"; otherwise minutes and the remaining
   * seconds.
   */
  function FormatElapsedTime(seconds: int): (s: string)
    ensures seconds < 60 ==> s == IntToString(seconds) + " seconds"
    ensures seconds >= 60 && seconds % 60 == 0 ==>
      s == NatToString(seconds / 60) + (if seconds / 60 > 1 then " minutes" else " minute")
    ensures seconds >= 60 && seconds % 60 != 0 ==>
      exists m: nat, r: nat :: m * 60 + r == seconds && 0 < r < 60 && m >= 1
        && s == NatToString(m) + "m " + NatToString(r) + "s"
  {
    if seconds < 60 then IntToString(seconds) + " seconds"
    else
      var minutes: nat := seconds / 60;
      var remaining: nat := seconds % 60;
      if remaining == 0 then NatToString(minutes) + " minute" + (if minutes > 1 then "s" else "")
      else NatToString(minutes) + "m " + NatToString(remaining) + "s"
  }

  /** Exactly one minute is singular, every other whole number of minutes is plural. */
  lemma WholeMinutes(n: nat)
    requires n >= 1
    ensures FormatElapsedTime(n * 60) == NatToString(n) + (if n == 1 then " minute" else " minutes")
  {
    assert (n * 60) / 60 == n && (n * 60) % 60 == 0;
  }

  /** A time past a whole minute reads as its minutes and its remaining seconds. */
  lemma MinutesAndSeconds(m: nat, r: nat)
    requires m >= 1 && 0 < r < 60
    ensures FormatElapsedTime(m * 60 + r) == NatToString(m) + "m " + NatToString(r) + "s"
  {
    assert (m * 60 + r) / 60 == m && (m * 60 + r) % 60 == r;
  }

  /** The three metrics averaged, on the same 0-100 scale. */
  function OverallScore(pitchAccuracy: real, scaleConformity: real, timingStability: real): (s: real)
    ensures pitchAccuracy <= scaleConformity && pitchAccuracy <= timingStability ==> pitchAccuracy <= s
    ensures 0.0 <= pitchAccuracy <= 100.0 && 0.0 <= scaleConformity <= 100.0 && 0.0 <= timingStability <= 100.0
            ==> 0.0 <= s <= 100.0
    ensures 3.0 * s == pitchAccuracy + scaleConformity + timingStability
  {
    (pitchAccuracy + scaleConformity + timingStability) / 3.0
  }

  /** The part of `generate_coaching_feedback`'s result that does not come from the model. */
  datatype CoachingFeedback = CoachingFeedback(
    feedback: string,
    overallPerformance: string,
    overallScore: int,
    weakestArea: string,
    elapsedTime: string,
    timestamp: string)

  /** `generate_coaching_feedback`, given the model's reply and the time of day. */
  function CoachingFeedbackFor(pitchAccuracy: real, scaleConformity: real, timingStability: real,
                               elapsedSeconds: int, reply: string, timestamp: string): (r: CoachingFeedback)
    ensures r.feedback == Strip(reply)
    ensures r.overallPerformance == PerformanceLabel(OverallScore(pitchAccuracy, scaleConformity, timingStability))
    ensures var overall := OverallScore(pitchAccuracy, scaleConformity, timingStability);
            r.overallScore == RoundHalfEven(overall) && -0.5 <= overall - r.overallScore as real <= 0.5
    ensures r.weakestArea == AreaName(WeakestArea(pitchAccuracy, scaleConformity, timingStability))
    ensures r.elapsedTime == FormatElapsedTime(elapsedSeconds)
  {
    var overall := OverallScore(pitchAccuracy, scaleConformity, timingStability);
    CoachingFeedback(Strip(reply), PerformanceLabel(overall), RoundHalfEven(overall),
                     AreaName(WeakestArea(pitchAccuracy, scaleConformity, timingStability)),
                     FormatElapsedTime(elapsedSeconds), timestamp)
  }

  /** The deterministic part of `generate_session_summary`'s result. */
  datatype SessionSummary = SessionSummary(
    summary: string,
    overallPerformance: string,
    overallScore: int,
    duration: string,
    timestamp: string)

  /** `generate_session_summary`, given the model's reply and the time of day. */
  function SessionSummaryFor(pitchAccuracy: real, scaleConformity: real, timingStability: real,
                             totalDurationSeconds: int, reply: string, timestamp: string): (r: SessionSummary)
    ensures r.summary == Strip(reply)
    ensures r.overallPerformance == PerformanceLabel(OverallScore(pitchAccuracy, scaleConformity, timingStability))
    ensures var overall := OverallScore(pitchAccuracy, scaleConformity, timingStability);
            r.overallScore == RoundHalfEven(overall) && -0.5 <= overall - r.overallScore as real <= 0.5
    ensures r.duration == FormatElapsedTime(totalDurationSeconds)
  {
    var overall := OverallScore(pitchAccuracy, scaleConformity, timingStability);
    SessionSummary(Strip(reply), PerformanceLabel(overall), RoundHalfEven(overall),
                   FormatElapsedTime(totalDurationSeconds), timestamp)
  }

  /** Live feedback and the end-of-session summary agree on the label and the score for the same metrics. */
  lemma FeedbackAgreesWithSummary(pitchAccuracy: real, scaleConformity: real, timingStability: real,
                                  elapsed: int, reply1: string, reply2: string, t1: string, t2: string)
    ensures var f := CoachingFeedbackFor(pitchAccuracy, scaleConformity, timingStability, elapsed, reply1, t1);
            var s := SessionSummaryFor(pitchAccuracy, scaleConformity, timingStability, elapsed, reply2, t2);
            f.overallPerformance == s.overallPerformance && f.overallScore == s.overallScore
            && f.elapsedTime == s.duration
  {
  }
}
