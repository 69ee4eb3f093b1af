/**
 * The evaluation metrics of the coaching agent that need no language model:
 * the heuristic fallback score for a piece of coaching feedback, the
 * improvement score of a recommendation, the completion score of a practice
 * plan and the learning-progress score of a session history.
 */
module CustomMetrics {
  import opened Wrappers
  import opened PyNum
  import opened PyText
  import opened MetricAreas
  import CreateDatasets

  // ---------------------------------------------------------------------------
  // Coaching helpfulness, heuristic fallback
  // ---------------------------------------------------------------------------

  const ACTION_WORDS: seq<string> := ["try", "practice", "focus", "use", "work on", "keep", "remember"]
  const ENCOURAGING_WORDS: seq<string> := ["great", "good", "well", "nice", "keep", "excellent"]
  const TECHNIQUE_WORDS: seq<string> := ["metronome", "finger", "fret", "pressure", "position", "scale"]

  /** The outcome of the four independent checks on a piece of feedback. */
  datatype Checks = Checks(actionable: bool, encouraging: bool, technique: bool, addressesWeakness: bool)

  /** The checks as `_heuristic_score` makes them, on the lower-cased feedback. */
  function ChecksOf(feedback: string, weakestArea: string): Checks {
    var lowered := Lower(feedback);
    Checks(ContainsAny(lowered, ACTION_WORDS), ContainsAny(lowered, ENCOURAGING_WORDS),
           ContainsAny(lowered, TECHNIQUE_WORDS),
           Contains(lowered, ReplaceAll(Lower(weakestArea), " ", "_")))
  }

  /** The baseline plus 0.15, 0.15, 0.10 and 0.10 for the checks that pass. */
  function HeuristicValue(c: Checks): (v: real)
    ensures 0.5 <= v <= 1.0
    ensures v == 0.5 <==> !c.actionable && !c.encouraging && !c.technique && !c.addressesWeakness
    ensures v == 1.0 <==> c.actionable && c.encouraging && c.technique && c.addressesWeakness
  {
    0.5 + (if c.actionable then 0.15 else 0.0) + (if c.encouraging then 0.15 else 0.0)
        + (if c.technique then 0.1 else 0.0) + (if c.addressesWeakness then 0.1 else 0.0)
  }

  /** The reasons listed for the checks that pass, in the order they are made. */
  function Reasons(c: Checks): seq<string> {
    (if c.actionable then ["Contains actionable advice"] else [])
    + (if c.encouraging then ["Encouraging tone detected"] else [])
    + (if c.technique then ["Specific technique mentioned"] else [])
    + (if c.addressesWeakness then ["Addresses weakest area"] else [])
  }

  /** A passing check adds to the score and never takes away: the score is monotone in the checks. */
  lemma HeuristicMonotone(c: Checks, d: Checks)
    requires c.actionable ==> d.actionable
    requires c.encouraging ==> d.encouraging
    requires c.technique ==> d.technique
    requires c.addressesWeakness ==> d.addressesWeakness
    ensures HeuristicValue(c) <= HeuristicValue(d)
    ensures |Reasons(c)| <= |Reasons(d)|
  {
  }

  /**
   * `_heuristic_score`: start at 0.5, add for each passing check and note
   * why, clamp to [0, 1], and report the reasons (or "Baseline score").
   */
  method HeuristicScore(feedback: string, weakestArea: string) returns (score: real, reason: string)
    ensures var c := ChecksOf(feedback, weakestArea);
            score == HeuristicValue(c)
            && reason == "Heuristic: " + (if Reasons(c) == [] then "Baseline score" else Join(Reasons(c), "; "))
    ensures 0.5 <= score <= 1.0
  {
    score := 0.5;
    var reasons: seq<string> := [];
    var lowered := Lower(feedback);
    if ContainsAny(lowered, ACTION_WORDS) {
      score := score + 0.15;
      reasons := reasons + ["Contains actionable advice"];
    }
    if ContainsAny(lowered, ENCOURAGING_WORDS) {
      score := score + 0.15;
      reasons := reasons + ["Encouraging tone detected"];
    }
    if ContainsAny(lowered, TECHNIQUE_WORDS) {
      score := score + 0.1;
      reasons := reasons + ["Specific technique mentioned"];
    }
    if Contains(lowered, ReplaceAll(Lower(weakestArea), " ", "_")) {
      score := score + 0.1;
      reasons := reasons + ["Addresses weakest area"];
    }
    ghost var c := ChecksOf(feedback, weakestArea);
    assert reasons == Reasons(c);
    assert score == HeuristicValue(c);
    score := Clamp01(score);
    reason := "Heuristic: " + (if reasons == [] then "Baseline score" else Join(reasons, "; "));
  }

  // ---------------------------------------------------------------------------
  // Recommendation accuracy
  // ---------------------------------------------------------------------------

  /** `dict.get(key, 0)` on a dict of numbers. */
  function GetOr0(m: map<string, real>, key: string): real {
    if key in m then m[key] else 0.0
  }

  /**
   * The improvement score: 0.5 with no baseline, otherwise 0.5 plus 2.5 times
   * the relative change, clamped to [0, 1].
   */
  function ImprovementScore(previous: real, current: real): (v: real)
    ensures 0.0 <= v <= 1.0
    ensures previous == 0.0 ==> v == 0.5
    ensures previous != 0.0 ==> v == Clamp01(0.5 + (current - previous) / previous * 2.5)
  {
    if previous == 0.0 then 0.5
    else
      var improvementPct := (current - previous) / previous;
      Clamp01(0.5 + improvementPct * 2.5)
  }

  /** A 20% gain scores 1, no change scores 0.5 and a 20% loss scores 0. */
  lemma ImprovementLandmarks(previous: real)
    requires previous != 0.0
    ensures ImprovementScore(previous, previous * 1.2) == 1.0
    ensures ImprovementScore(previous, previous) == 0.5
    ensures ImprovementScore(previous, previous * 0.8) == 0.0
  {
    assert (previous * 1.2 - previous) / previous == 0.2;
    assert (previous * 0.8 - previous) / previous == -0.2;
    assert (previous - previous) / previous == 0.0;
  }

  /** With a positive baseline, a gain scores above 0.5 and a loss below. */
  lemma ImprovementDirection(previous: real, current: real)
    requires previous > 0.0
    ensures current > previous ==> ImprovementScore(previous, current) > 0.5
    ensures current < previous ==> ImprovementScore(previous, current) < 0.5
  {
    var pct := (current - previous) / previous;
    if current > previous {
      assert pct > 0.0;
    } else if current < previous {
      assert pct < 0.0;
    }
  }

  /**
   * `RecommendationAccuracy.score` as written: both values are read under
   * "<focus>_accuracy", from the user's history and from the executed
   * session's metrics.
   */
  function RecommendationAccuracyAsWritten(userHistory: map<string, real>, executionMetrics: map<string, real>,
                                           focus: Option<string>): (v: real)
    ensures 0.0 <= v <= 1.0
    ensures focus.GetOr("pitch") + "_accuracy" !in userHistory ==> v == 0.5
  {
    var f := focus.GetOr("pitch");
    ImprovementScore(GetOr0(userHistory, f + "_accuracy"), GetOr0(executionMetrics, f + "_accuracy"))
  }

  /**
   * The history of a dataset item holds only "avg_..." keys and the session
   * count, so the key read as written is absent for every focus but
   * "avg_pitch": the baseline reads as 0 and the score is always 0.5.
   */
  lemma RecommendationAccuracyAlwaysHalf(row: CreateDatasets.RecommendationRow,
                                         decode: string -> Option<CreateDatasets.PlanFields>)
    requires CreateDatasets.RecommendationItemOf(row, decode).recommendedFocus != "avg_pitch"
    ensures var item := CreateDatasets.RecommendationItemOf(row, decode);
            RecommendationAccuracyAsWritten(item.userHistory, item.executionMetrics,
                                            Some(item.recommendedFocus)) == 0.5
  {
    var item := CreateDatasets.RecommendationItemOf(row, decode);
    var key := item.recommendedFocus + "_accuracy";
    HistoryKeysNeverMatch(item.recommendedFocus);
    assert key !in item.userHistory;
  }

  /** Appending "_accuracy" to any name other than "avg_pitch" gives none of the history keys. */
  lemma HistoryKeysNeverMatch(focus: string)
    requires focus != "avg_pitch"
    ensures focus + "_accuracy" !in {"avg_pitch_accuracy", "avg_scale_conformity", "avg_timing_stability",
                                     "total_sessions"}
  {
    var key := focus + "_accuracy";
    var n := |key|;
    assert key[n - 9..] == "_accuracy";
    assert "avg_scale_conformity"[|"avg_scale_conformity"| - 9..] != "_accuracy";
    assert "avg_timing_stability"[|"avg_timing_stability"| - 9..] != "_accuracy";
    assert "total_sessions"[|"total_sessions"| - 9..] != "_accuracy";
  }

  /** The key of an area's score in a session's metrics. */
  function MetricKey(focus: string): string {
    if focus == "pitch" then "pitch_accuracy"
    else if focus == "scale" then "scale_conformity"
    else if focus == "timing" then "timing_stability"
    else focus + "_accuracy"
  }

  /** The key of an area's average in a user's history: "avg_" followed by its metric key. */
  function HistoryKey(focus: string): string {
    if focus == "pitch" then "avg_pitch_accuracy"
    else if focus == "scale" then "avg_scale_conformity"
    else if focus == "timing" then "avg_timing_stability"
    else "avg_" + focus + "_accuracy"
  }

  /**
   * `RecommendationAccuracy.score` reading the baseline under the key the
   * history is stored with ("avg_" and the area's metric key) and the result
   * under the area's metric key.
   */
  function RecommendationAccuracy(userHistory: map<string, real>, executionMetrics: map<string, real>,
                                  focus: Option<string>): (v: real)
    ensures 0.0 <= v <= 1.0
  {
    var f := focus.GetOr("pitch");
    ImprovementScore(GetOr0(userHistory, HistoryKey(f)), GetOr0(executionMetrics, MetricKey(f)))
  }

  /** The corrected history key finds each area's stored average. */
  lemma HistoryKeyReadsTheArea(a: Area, hp: real, hs: real, ht: real, count: nat)
    ensures GetOr0(CreateDatasets.UserHistory(hp, hs, ht, count), HistoryKey(AreaName(a)))
            == RoundTo(ValueOf(a, hp, hs, ht), 3)
  {
  }

  /** The corrected metric key finds each area's score in the executed session. */
  lemma MetricKeyReadsTheArea(a: Area, p: real, s: real, t: real)
    ensures GetOr0(CreateDatasets.ExecutionMetrics(p, s, t), MetricKey(AreaName(a))) == RoundTo(ValueOf(a, p, s, t), 3)
  {
  }

  /**
   * On a dataset item that focuses on an area, the corrected score compares
   * the area's earlier average with the executed session's score for that
   * area: a gain scores above 0.5 and a loss below it.
   */
  lemma RecommendationAccuracyMeasuresChange(row: CreateDatasets.RecommendationRow,
                                             decode: string -> Option<CreateDatasets.PlanFields>, a: Area)
    requires CreateDatasets.RecommendationItemOf(row, decode).recommendedFocus == AreaName(a)
    ensures var item := CreateDatasets.RecommendationItemOf(row, decode);
            var before := RoundTo(ValueOf(a, CreateDatasets.HistoryAverage(row.histPitch),
                                          CreateDatasets.HistoryAverage(row.histScale),
                                          CreateDatasets.HistoryAverage(row.histTiming)), 3);
            var after := RoundTo(ValueOf(a, row.pitch, row.scaleConformity, row.timing), 3);
            var v := RecommendationAccuracy(item.userHistory, item.executionMetrics, Some(AreaName(a)));
            v == ImprovementScore(before, after)
            && (before > 0.0 && after > before ==> v > 0.5)
            && (before > 0.0 && after < before ==> v < 0.5)
  {
    HistoryKeyReadsTheArea(a, CreateDatasets.HistoryAverage(row.histPitch),
                           CreateDatasets.HistoryAverage(row.histScale),
                           CreateDatasets.HistoryAverage(row.histTiming), row.histCount);
    MetricKeyReadsTheArea(a, row.pitch, row.scaleConformity, row.timing);
    var before := RoundTo(ValueOf(a, CreateDatasets.HistoryAverage(row.histPitch),
                                  CreateDatasets.HistoryAverage(row.histScale),
                                  CreateDatasets.HistoryAverage(row.histTiming)), 3);
    var after := RoundTo(ValueOf(a, row.pitch, row.scaleConformity, row.timing), 3);
    if before > 0.0 {
      ImprovementDirection(before, after);
    }
  }

  // ---------------------------------------------------------------------------
  // Practice-plan completion
  // ---------------------------------------------------------------------------

  const DEFAULT_WINDOW_HOURS := 48.0

  datatype CompletionStatus = Completed | Pending | Expired

  /**
   * `PracticePlanCompletionRate.score`: 1.0 for an executed plan, 0.5 while
   * an unexecuted plan is inside the window, 0.0 after it. `completion` is
   * the expected output's flag, None when it is absent.
   */
  function CompletionScore(completion: Option<bool>, hoursSinceGeneration: real, windowHours: real)
    : (r: (real, CompletionStatus))
    ensures r.0 == 1.0 <==> r.1 == Completed
    ensures r.0 == 0.5 <==> r.1 == Pending
    ensures r.0 == 0.0 <==> r.1 == Expired
  {
    var executed := completion.GetOr(false);
    if !executed && hoursSinceGeneration < windowHours then (0.5, Pending)
    else if executed then (1.0, Completed)
    else (0.0, Expired)
  }

  /** An executed plan scores 1 at any age; an unexecuted one scores 0.5 before the window ends and 0 after. */
  lemma CompletionCases(hours: real, windowHours: real)
    ensures CompletionScore(Some(true), hours, windowHours).0 == 1.0
    ensures hours < windowHours ==> CompletionScore(Some(false), hours, windowHours).0 == 0.5
    ensures hours >= windowHours ==> CompletionScore(Some(false), hours, windowHours).0 == 0.0
    ensures CompletionScore(None, hours, windowHours) == CompletionScore(Some(false), hours, windowHours)
  {
  }

  /** Waiting longer never raises the score of a plan. */
  lemma CompletionNeverRisesWithAge(completion: Option<bool>, h1: real, h2: real, windowHours: real)
    requires h1 <= h2
    ensures CompletionScore(completion, h2, windowHours).0 <= CompletionScore(completion, h1, windowHours).0
  {
  }

  /** Every item of the recommendation dataset is marked executed, so it scores 1 at any age. */
  lemma DatasetItemsScoreComplete(row: CreateDatasets.RecommendationRow,
                                  decode: string -> Option<CreateDatasets.PlanFields>, windowHours: real)
    ensures var item := CreateDatasets.RecommendationItemOf(row, decode);
            CompletionScore(Some(item.completion), item.hoursSinceGeneration, windowHours) == (1.0, Completed)
  {
  }

  // ---------------------------------------------------------------------------
  // Learning progress
  // ---------------------------------------------------------------------------

  /** A session of the history; a metric it lacks reads as 0. */
  datatype SessionScores = SessionScores(pitchAccuracy: Option<real>, scaleConformity: Option<real>,
                                         timingStability: Option<real>)

  /** `avg_performance`: the mean of the three metrics. */
  function AvgPerformance(s: SessionScores): real {
    (s.pitchAccuracy.GetOr(0.0) + s.scaleConformity.GetOr(0.0) + s.timingStability.GetOr(0.0)) / 3.0
  }

  /** The sum of the sessions' mean performances. */
  function SumPerformance(sessions: seq<SessionScores>): real {
    if sessions == [] then 0.0 else SumPerformance(sessions[..|sessions| - 1]) + AvgPerformance(sessions[|sessions| - 1])
  }

  /** The mean performance of a non-empty run of sessions. */
  function MeanPerformance(sessions: seq<SessionScores>): real
    requires |sessions| > 0
  {
    SumPerformance(sessions) / |sessions| as real
  }

  /** The gain of the later half's mean performance over the earlier half's (the later half takes the odd session). */
  function HalvesGain(sessions: seq<SessionScores>): real
    requires |sessions| >= 2
  {
    HalvesNonEmpty(|sessions|);
    var mid := |sessions| / 2;
    MeanPerformance(sessions[mid..]) - MeanPerformance(sessions[..mid])
  }

  /**
   * `LearningProgressRate.score`: 0.5 with fewer than two sessions; otherwise
   * 0.5 for no change between the halves, above 0.5 exactly for a gain,
   * 1 exactly for a gain of a tenth or more, 0 exactly for a loss of a tenth
   * or more, and five times the gain added to 0.5 in between.
   */
  function LearningProgress(sessions: seq<SessionScores>): (v: real)
    ensures 0.0 <= v <= 1.0
    ensures |sessions| < 2 ==> v == 0.5
    ensures |sessions| >= 2 ==> (v == 0.5 <==> HalvesGain(sessions) == 0.0)
    ensures |sessions| >= 2 ==> (v > 0.5 <==> HalvesGain(sessions) > 0.0)
    ensures |sessions| >= 2 ==> (v == 1.0 <==> HalvesGain(sessions) >= 0.1)
    ensures |sessions| >= 2 ==> (v == 0.0 <==> HalvesGain(sessions) <= -0.1)
    ensures |sessions| >= 2 && -0.1 <= HalvesGain(sessions) <= 0.1 ==> v == 0.5 + 5.0 * HalvesGain(sessions)
  {
    if |sessions| < 2 then 0.5
    else Clamp01(0.5 + HalvesGain(sessions) * 5.0)
  }

  /** Both halves are non-empty, and the second is as long as the first or one longer. */
  lemma HalvesNonEmpty(n: nat)
    requires n >= 2
    ensures 1 <= n / 2 && 1 <= n - n / 2 && n / 2 <= n - n / 2 <= n / 2 + 1
  {
  }

  /** Sessions that all perform alike have that performance as their sum per session. */
  lemma {:induction false} SumOfEqual(sessions: seq<SessionScores>, p: real)
    requires forall i :: 0 <= i < |sessions| ==> AvgPerformance(sessions[i]) == p
    ensures SumPerformance(sessions) == |sessions| as real * p
  {
    if sessions != [] {
      SumOfEqual(sessions[..|sessions| - 1], p);
    }
  }

  /** A history in which every session performs the same has no gain between its halves, so it scores exactly 0.5. */
  lemma SteadyHistoryScoresHalf(sessions: seq<SessionScores>, p: real)
    requires |sessions| >= 2
    requires forall i :: 0 <= i < |sessions| ==> AvgPerformance(sessions[i]) == p
    ensures HalvesGain(sessions) == 0.0
    ensures LearningProgress(sessions) == 0.5
  {
    var mid := |sessions| / 2;
    var first := sessions[..mid];
    var second := sessions[mid..];
    SumOfEqual(first, p);
    SumOfEqual(second, p);
    assert MeanPerformance(first) == p;
    assert MeanPerformance(second) == p;
  }
}
