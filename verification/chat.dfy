/**
 * The chat coach of the web interface: the practice summary it works from,
 * the rule that picks a weakest area and a scale to suggest, the practice
 * plan it offers and the text the plan is saved as, the detection of a
 * confirmation, the routing of a message to a chart, and the per-thread store
 * of plans that wait for the user's confirmation.
 *
 * The database queries, the language model and the plan identifiers are
 * outside the model: their results arrive as parameters.
 */
module ChatCoach {
  import opened Wrappers
  import opened PyNum
  import opened PyText
  import opened MetricAreas

  // ---------------------------------------------------------------------------
  // The practice summary
  // ---------------------------------------------------------------------------

  /**
   * One row of the per-scale aggregate: the scale, its type and its mean
   * pitch score, each None where the database holds NULL. The query always
   * selects both columns, so a NULL arrives as a present key with value None.
   */
  datatype ScaleRow = ScaleRow(scaleChosen: string, scaleType: Option<string>, avgPitch: Option<real>)

  /** What `get_user_practice_data` returns, less the recent-session rows. */
  datatype PracticeData = PracticeData(
    totalSessions: nat,
    avgPitchAccuracy: real,
    avgScaleConformity: real,
    avgTimingStability: real,
    practicedScales: seq<ScaleRow>,
    weakestArea: string)

  /** The weakest area of a user: pitch when there are no sessions yet, otherwise the least average. */
  function PracticeWeakest(totalSessions: nat, avgPitch: real, avgScale: real, avgTiming: real): (w: string)
    ensures w in {"pitch", "scale", "timing"}
    ensures totalSessions == 0 ==> w == "pitch"
    ensures totalSessions > 0 ==> w == AreaName(WeakestArea(avgPitch, avgScale, avgTiming))
  {
    if totalSessions > 0 then AreaName(WeakestArea(avgPitch, avgScale, avgTiming)) else "pitch"
  }

  /**
   * `get_user_practice_data` after its queries: missing averages read as 0
   * and the weakest area is derived from the three averages.
   */
  function PracticeDataOf(totalSessions: nat, avgPitch: Option<real>, avgScale: Option<real>,
                          avgTiming: Option<real>, scales: seq<ScaleRow>): (d: PracticeData)
    ensures d.totalSessions == totalSessions && d.practicedScales == scales
    ensures d.avgPitchAccuracy == avgPitch.GetOr(0.0) && d.avgScaleConformity == avgScale.GetOr(0.0)
            && d.avgTimingStability == avgTiming.GetOr(0.0)
    ensures d.weakestArea == PracticeWeakest(totalSessions, d.avgPitchAccuracy, d.avgScaleConformity,
                                             d.avgTimingStability)
  {
    var p := avgPitch.GetOr(0.0);
    var s := avgScale.GetOr(0.0);
    var t := avgTiming.GetOr(0.0);
    PracticeData(totalSessions, p, s, t, scales, PracticeWeakest(totalSessions, p, s, t))
  }

  /** A user with sessions is told to work on an area whose average is the least of the three. */
  lemma WeakestHasLeastAverage(totalSessions: nat, avgPitch: Option<real>, avgScale: Option<real>,
                               avgTiming: Option<real>, scales: seq<ScaleRow>)
    requires totalSessions > 0
    ensures var d := PracticeDataOf(totalSessions, avgPitch, avgScale, avgTiming, scales);
            exists a: Area :: AreaName(a) == d.weakestArea
              && forall b: Area :: ValueOf(a, d.avgPitchAccuracy, d.avgScaleConformity, d.avgTimingStability)
                                   <= ValueOf(b, d.avgPitchAccuracy, d.avgScaleConformity, d.avgTimingStability)
  {
    var d := PracticeDataOf(totalSessions, avgPitch, avgScale, avgTiming, scales);
    var a := WeakestArea(d.avgPitchAccuracy, d.avgScaleConformity, d.avgTimingStability);
    assert AreaName(a) == d.weakestArea;
  }

  // ---------------------------------------------------------------------------
  // The suggested scale
  // ---------------------------------------------------------------------------

  const DEFAULT_SCALE := "C Major"
  const DEFAULT_SCALE_TYPE := "diatonic"

  /** The message of the TypeError that `None < 0.8` raises. */
  const NULL_SCORE_ERROR := "'<' not supported between instances of 'NoneType' and 'float'"

  /** A practised scale needs work when its mean pitch score is below 0.8. */
  predicate NeedsWork(row: ScaleRow) {
    row.avgPitch.Some? && row.avgPitch.value < 0.8
  }

  /**
   * The loop stops at a row that needs work, and also at a row without a
   * score: `s.get('avg_pitch', 1)` is then None, and comparing it raises.
   */
  predicate StopsScan(row: ScaleRow) {
    row.avgPitch.None? || NeedsWork(row)
  }

  /** The first practised scale at which the loop stops, if any. */
  function ScanStop(scales: seq<ScaleRow>): (k: Option<nat>)
    ensures k.Some? ==> k.value < |scales| && StopsScan(scales[k.value])
    ensures k.Some? ==> forall j :: 0 <= j < k.value ==> !StopsScan(scales[j])
    ensures k.None? ==> forall j :: 0 <= j < |scales| ==> !StopsScan(scales[j])
  {
    if scales == [] then None
    else if StopsScan(scales[0]) then Some(0)
    else match ScanStop(scales[1..])
         case None => None
         case Some(k) => Some(k + 1)
  }

  /**
   * The scale and scale type a plan suggests: the defaults when the loop runs
   * to the end, the stopping row's scale and its type as stored (None for a
   * NULL type) when that row needs work, and the TypeError when it has no score.
   */
  function Suggestion(scales: seq<ScaleRow>): (r: Result<(string, Option<string>)>)
    ensures (forall j :: 0 <= j < |scales| ==> !StopsScan(scales[j])) ==> r == Success((DEFAULT_SCALE, Some(DEFAULT_SCALE_TYPE)))
    ensures r.Failure? ==> r.error == NULL_SCORE_ERROR && exists k :: 0 <= k < |scales| && scales[k].avgPitch.None?
    ensures r.Success? && r.value != (DEFAULT_SCALE, Some(DEFAULT_SCALE_TYPE)) ==>
              exists k :: 0 <= k < |scales| && NeedsWork(scales[k]) && r.value == (scales[k].scaleChosen, scales[k].scaleType)
  {
    match ScanStop(scales)
    case None => Success((DEFAULT_SCALE, Some(DEFAULT_SCALE_TYPE)))
    case Some(k) =>
      if scales[k].avgPitch.None? then Failure(NULL_SCORE_ERROR)
      else Success((scales[k].scaleChosen, scales[k].scaleType))
  }

  /** The loop of `generate_practice_recommendation` that looks for a scale that needs work. */
  method SuggestScale(scales: seq<ScaleRow>) returns (r: Result<(string, Option<string>)>)
    ensures r == Suggestion(scales)
  {
    var scale := DEFAULT_SCALE;
    var scaleType := Some(DEFAULT_SCALE_TYPE);
    var i := 0;
    while i < |scales|
      invariant 0 <= i <= |scales|
      invariant forall j :: 0 <= j < i ==> !StopsScan(scales[j])
      invariant scale == DEFAULT_SCALE && scaleType == Some(DEFAULT_SCALE_TYPE)
    {
      if scales[i].avgPitch.None? {
        ScanStopIs(scales, i);
        return Failure(NULL_SCORE_ERROR);
      }
      if scales[i].avgPitch.value < 0.8 {
        scale := scales[i].scaleChosen;
        scaleType := scales[i].scaleType;
        ScanStopIs(scales, i);
        return Success((scale, scaleType));
      }
      i := i + 1;
    }
    return Success((scale, scaleType));
  }

  /** The first index at which the loop stops, with none before it, is what ScanStop finds. */
  lemma {:induction false} ScanStopIs(scales: seq<ScaleRow>, i: nat)
    requires i < |scales| && StopsScan(scales[i])
    requires forall j :: 0 <= j < i ==> !StopsScan(scales[j])
    ensures ScanStop(scales) == Some(i)
  {
    if i > 0 {
      ScanStopIs(scales[1..], i - 1);
    }
  }

  /**
   * The suggestion fails exactly when a row without a score comes before
   * every row that needs work; a row that needs work and comes first is
   * suggested with its stored type, NULL included.
   */
  lemma SuggestionCases(scales: seq<ScaleRow>, i: nat)
    requires i < |scales| && forall j :: 0 <= j < i ==> !StopsScan(scales[j])
    ensures scales[i].avgPitch.None? ==> Suggestion(scales) == Failure(NULL_SCORE_ERROR)
    ensures NeedsWork(scales[i]) ==> Suggestion(scales) == Success((scales[i].scaleChosen, scales[i].scaleType))
  {
    if StopsScan(scales[i]) {
      ScanStopIs(scales, i);
    }
  }

  // ---------------------------------------------------------------------------
  // The practice plan
  // ---------------------------------------------------------------------------

  /** The dict key of the average that measures an area. */
  function ScoreKey(weakest: string): string {
    "avg_" + weakest + "_" + (if weakest == "pitch" then "accuracy" else if weakest == "scale" then "conformity"
                              else "stability")
  }

  /** `practice_data.get(key, practice_data['avg_pitch_accuracy'])` over the three averages. */
  function AverageAt(d: PracticeData, key: string): real {
    if key == "avg_pitch_accuracy" then d.avgPitchAccuracy
    else if key == "avg_scale_conformity" then d.avgScaleConformity
    else if key == "avg_timing_stability" then d.avgTimingStability
    else d.avgPitchAccuracy
  }

  /** Each area's score key names that area's average. */
  lemma ScoreKeyReadsTheArea(d: PracticeData, a: Area)
    ensures AverageAt(d, ScoreKey(AreaName(a)))
            == ValueOf(a, d.avgPitchAccuracy, d.avgScaleConformity, d.avgTimingStability)
  {
    match a
    case Pitch => PitchKey(d);
    case Scale => ScaleKey(d);
    case Timing => TimingKey(d);
  }

  lemma PitchKey(d: PracticeData)
    ensures AverageAt(d, ScoreKey("pitch")) == d.avgPitchAccuracy
  {
    assert ScoreKey("pitch") == "avg_" + "pitch" + "_" + "accuracy" == "avg_pitch_accuracy";
  }

  lemma ScaleKey(d: PracticeData)
    ensures AverageAt(d, ScoreKey("scale")) == d.avgScaleConformity
  {
    assert ScoreKey("scale") == "avg_" + "scale" + "_" + "conformity" == "avg_scale_conformity";
  }

  lemma TimingKey(d: PracticeData)
    ensures AverageAt(d, ScoreKey("timing")) == d.avgTimingStability
  {
    assert ScoreKey("timing") == "avg_" + "timing" + "_" + "stability" == "avg_timing_stability";
  }

  /** `focus_names.get(weakest, weakest)` */
  function FocusName(weakest: string): string {
    if weakest == "pitch" then "Pitch Accuracy"
    else if weakest == "scale" then "Scale Conformity"
    else if weakest == "timing" then "Timing Stability"
    else weakest
  }

  const PITCH_EXERCISES: seq<string> := [
    "Practice slow scales focusing on hitting each note cleanly",
    "Use a tuner while practicing to get immediate feedback",
    "Work on sustaining notes and listening to their quality"]
  const SCALE_EXERCISES: seq<string> := [
    "Practice the scale patterns slowly before increasing speed",
    "Focus on one scale at a time until it becomes muscle memory",
    "Try playing the scale in different positions on the neck"]
  const TIMING_EXERCISES: seq<string> := [
    "Practice with a metronome starting at a slow tempo",
    "Focus on consistent note duration before speed",
    "Try rhythm exercises with varying note values"]

  /** `exercises.get(weakest, exercises['pitch'])` */
  function ExercisesFor(weakest: string): (e: seq<string>)
    ensures |e| == 3
  {
    if weakest == "scale" then SCALE_EXERCISES
    else if weakest == "timing" then TIMING_EXERCISES
    else PITCH_EXERCISES
  }

  const SESSION_TARGET := "20-30 minutes"

  datatype PlanData = PlanData(
    focusArea: string,
    currentScore: int,
    suggestedScale: string,
    suggestedScaleType: Option<string>,
    exercises: seq<string>,
    sessionTarget: string)

  /**
   * The plan `generate_practice_recommendation` builds from a practice
   * summary, or the TypeError its scale loop raises.
   */
  function PlanFor(d: PracticeData): (p: Result<PlanData>)
    ensures p.Success? <==> Suggestion(d.practicedScales).Success?
    ensures p.Failure? ==> p.error == NULL_SCORE_ERROR
    ensures p.Success? ==> |p.value.exercises| == 3 && p.value.sessionTarget == SESSION_TARGET
    ensures p.Success? ==> Success((p.value.suggestedScale, p.value.suggestedScaleType)) == Suggestion(d.practicedScales)
  {
    var w := d.weakestArea;
    match Suggestion(d.practicedScales)
    case Failure(e) => Failure(e)
    case Success((scale, scaleType)) =>
      Success(PlanData(FocusName(w), RoundHalfEven(AverageAt(d, ScoreKey(w)) * 100.0), scale, scaleType,
                       ExercisesFor(w), SESSION_TARGET))
  }

  /**
   * For a summary whose weakest area is one of the three, a plan names that
   * area and reports its average as a percentage rounded half to even.
   */
  lemma PlanTargetsWeakestArea(d: PracticeData, a: Area)
    requires d.weakestArea == AreaName(a)
    requires Suggestion(d.practicedScales).Success?
    ensures PlanFor(d).Success?
    ensures var p := PlanFor(d).value;
            var v := ValueOf(a, d.avgPitchAccuracy, d.avgScaleConformity, d.avgTimingStability);
            && p.focusArea == FocusName(AreaName(a)) && p.focusArea != AreaName(a)
            && p.currentScore == RoundHalfEven(v * 100.0)
            && p.exercises == ExercisesFor(AreaName(a))
  {
    ScoreKeyReadsTheArea(d, a);
  }

  /** With no practised scale below 0.8 and none without a score, the plan suggests C major, diatonic. */
  lemma DefaultSuggestion(d: PracticeData)
    requires forall j :: 0 <= j < |d.practicedScales| ==> !StopsScan(d.practicedScales[j])
    ensures PlanFor(d).Success?
    ensures PlanFor(d).value.suggestedScale == DEFAULT_SCALE
    ensures PlanFor(d).value.suggestedScaleType == Some(DEFAULT_SCALE_TYPE)
  {
    assert ScanStop(d.practicedScales).None?;
  }

  /** `str()` of the suggested type as the f-string prints it: a NULL type reads "None". */
  function TypeText(scaleType: Option<string>): string {
    scaleType.GetOr("None")
  }

  /** The "- " line written for each exercise. */
  function ExerciseLines(exercises: seq<string>): (lines: seq<string>)
    ensures |lines| == |exercises|
    ensures forall i :: 0 <= i < |exercises| ==> lines[i] == "- " + exercises[i]
  {
    if exercises == [] then [] else ["- " + exercises[0]] + ExerciseLines(exercises[1..])
  }

  /** The seven lines of the saved text above the exercises. */
  function PlanHeaderLines(p: PlanData): seq<string> {
    ["Practice Plan",
     "Focus Area: " + p.focusArea,
     "Current Score: " + IntToString(p.currentScore) + "%",
     "Suggested Scale: " + p.suggestedScale + " (" + TypeText(p.suggestedScaleType) + ")",
     "Session Target: " + p.sessionTarget,
     "",
     "Exercises:"]
  }

  /** `format_plan_text`: the header lines, a line break, and the exercise lines joined by line breaks. */
  function FormatPlanText(p: PlanData): (text: string)
    ensures StartsWith(text, "Practice Plan\nFocus Area: " + p.focusArea + "\n")
  {
    PlanTextOpening(p);
    Join(PlanHeaderLines(p), "\n") + "\n" + Join(ExerciseLines(p.exercises), "\n")
  }

  /** The saved text opens with the title line and the focus line. */
  lemma PlanTextOpening(p: PlanData)
    ensures var text := Join(PlanHeaderLines(p), "\n") + "\n" + Join(ExerciseLines(p.exercises), "\n");
            StartsWith(text, "Practice Plan\nFocus Area: " + p.focusArea + "\n")
  {
    var h := PlanHeaderLines(p);
    JoinOpening(h, "\n");
    TitleAndFocus(p.focusArea, Join(h[2..], "\n"), Join(ExerciseLines(p.exercises), "\n"));
  }

  /** A join of three or more parts opens with the first two, each followed by the separator. */
  lemma JoinOpening(parts: seq<string>, sep: string)
    requires |parts| >= 3
    ensures Join(parts, sep) == parts[0] + sep + (parts[1] + sep + Join(parts[2..], sep))
  {
    assert parts[1..][1..] == parts[2..];
  }

  /** The title line and the focus line, followed by anything, open the text. */
  lemma TitleAndFocus(focus: string, middle: string, tail: string)
    ensures StartsWith("Practice Plan" + "\n" + ("Focus Area: " + focus + "\n" + middle) + "\n" + tail,
                       "Practice Plan\nFocus Area: " + focus + "\n")
  {
    var opening := "Practice Plan\nFocus Area: " + focus + "\n";
    var text := "Practice Plan" + "\n" + ("Focus Area: " + focus + "\n" + middle) + "\n" + tail;
    assert text == opening + (middle + "\n" + tail);
  }

  /** Joining two non-empty lists is joining each and putting the separator between. */
  lemma {:induction false} JoinAppend(a: seq<string>, b: seq<string>, sep: string)
    requires |a| >= 1 && |b| >= 1
    ensures Join(a + b, sep) == Join(a, sep) + sep + Join(b, sep)
  {
    if |a| == 1 {
      assert (a + b)[1..] == b;
    } else {
      assert (a + b)[1..] == a[1..] + b;
      JoinAppend(a[1..], b, sep);
    }
  }

  /** No header line holds a line break when the plan's text fields hold none. */
  lemma HeaderLinesUnbroken(p: PlanData)
    requires '\n' !in p.focusArea && '\n' !in p.suggestedScale && '\n' !in TypeText(p.suggestedScaleType)
    requires '\n' !in p.sessionTarget
    ensures forall k :: 0 <= k < 7 ==> '\n' !in PlanHeaderLines(p)[k]
  {
    var score := IntToString(p.currentScore);
    assert '\n' !in score;
  }

  /**
   * Read back line by line, the saved text of a plan whose fields hold no
   * line break is its seven header lines followed by one "- " line per
   * exercise, in order.
   */
  lemma PlanTextLines(p: PlanData)
    requires |p.exercises| >= 1
    requires '\n' !in p.focusArea && '\n' !in p.suggestedScale && '\n' !in TypeText(p.suggestedScaleType)
    requires '\n' !in p.sessionTarget
    requires forall i :: 0 <= i < |p.exercises| ==> '\n' !in p.exercises[i]
    ensures Split(FormatPlanText(p), '\n') == PlanHeaderLines(p) + ExerciseLines(p.exercises)
  {
    var h := PlanHeaderLines(p);
    var e := ExerciseLines(p.exercises);
    JoinAppend(h, e, "\n");
    var lines := h + e;
    HeaderLinesUnbroken(p);
    forall k | 0 <= k < |lines|
      ensures '\n' !in lines[k]
    {
      if k >= |h| {
        assert lines[k] == "- " + p.exercises[k - |h|];
      } else {
        assert lines[k] == h[k];
      }
    }
    SplitJoin(lines, '\n');
  }

  // ---------------------------------------------------------------------------
  // Confirmation and intent
  // ---------------------------------------------------------------------------

  const CONFIRM_PHRASES: seq<string> := [
    "yes", "save", "confirm", "ok", "okay", "sure", "sounds good",
    "looks good", "perfect", "great", "let's do it", "go ahead",
    "i like it", "save it", "save the plan", "confirmed", "accept"]

  /** `check_for_confirmation`: any listed phrase anywhere in the lower-cased, stripped message. */
  function CheckForConfirmation(message: string): (confirmed: bool)
    ensures Strip(Lower(message)) == [] ==> !confirmed
    ensures forall i :: 0 <= i < |CONFIRM_PHRASES| && Contains(Strip(Lower(message)), CONFIRM_PHRASES[i]) ==> confirmed
  {
    ContainsAny(Strip(Lower(message)), CONFIRM_PHRASES)
  }

  /** A message already in lower case with no surrounding space is matched as it is. */
  lemma ConfirmationOfPlainText(m: string)
    requires m != [] && !IsPySpace(m[0]) && !IsPySpace(m[|m| - 1])
    requires forall i :: 0 <= i < |m| ==> !('A' <= m[i] <= 'Z')
    ensures CheckForConfirmation(m) == ContainsAny(m, CONFIRM_PHRASES)
  {
    assert Lower(m) == m;
    StripUnspaced(m);
  }

  /** "ok" is one of the phrases. */
  lemma OkIsListed(m: string)
    requires Contains(m, "ok")
    ensures ContainsAny(m, CONFIRM_PHRASES)
  {
    assert CONFIRM_PHRASES[3] == "ok";
    ContainsAnyAt(m, CONFIRM_PHRASES, 3);
  }

  /**
   * The test is by substring, so a plain lower-case message that merely
   * contains "ok" inside a word, such as "book", reads as a confirmation.
   */
  lemma OkInsideAWordConfirms(m: string, k: nat)
    requires m != [] && !IsPySpace(m[0]) && !IsPySpace(m[|m| - 1])
    requires forall i :: 0 <= i < |m| ==> !('A' <= m[i] <= 'Z')
    requires k + 2 <= |m| && m[k..k + 2] == "ok"
    ensures CheckForConfirmation(m)
  {
    ContainsAt(m, "ok", k);
    OkIsListed(m);
    ConfirmationOfPlainText(m);
  }

  /** "no" contains none of the phrases: "ok" has a "k", and every other phrase is longer. */
  lemma NoDoesNotConfirm()
    ensures !CheckForConfirmation("no")
  {
    var m := "no";
    ConfirmationOfPlainText(m);
    forall i | 0 <= i < |CONFIRM_PHRASES|
      ensures !Contains(m, CONFIRM_PHRASES[i])
    {
      if i == 3 {
        MissingCharNotContained(m, "ok", 1);
      } else {
        LongerNotContained(m, CONFIRM_PHRASES[i]);
      }
    }
  }

  const PROGRESS_WORDS: seq<string> := ["progress", "trend", "chart", "graph", "show me", "visualize", "how am i doing"]
  const COMPARE_WORDS: seq<string> := ["compare", "versus", "vs", "latest", "average", "comparison"]
  const PRACTICE_WORDS: seq<string> := ["practice", "recommend", "suggest", "what should", "plan", "advice", "help me"]

  datatype Intent = ShowProgress | CompareLatest | RecommendPlan | JustTalk

  /** The chart a lower-cased message asks for; no new plan in a turn that saved one. */
  function IntentOf(lowered: string, planSaved: bool): (i: Intent)
    ensures i == ShowProgress <==> ContainsAny(lowered, PROGRESS_WORDS)
    ensures i == CompareLatest <==> !ContainsAny(lowered, PROGRESS_WORDS) && ContainsAny(lowered, COMPARE_WORDS)
    ensures i == RecommendPlan <==>
      !ContainsAny(lowered, PROGRESS_WORDS) && !ContainsAny(lowered, COMPARE_WORDS)
      && ContainsAny(lowered, PRACTICE_WORDS) && !planSaved
  {
    if ContainsAny(lowered, PROGRESS_WORDS) then ShowProgress
    else if ContainsAny(lowered, COMPARE_WORDS) then CompareLatest
    else if ContainsAny(lowered, PRACTICE_WORDS) && !planSaved then RecommendPlan
    else JustTalk
  }

  /** Progress words win over plan words: "show me a practice plan" draws the trend chart. */
  lemma ProgressBeatsPractice(planSaved: bool)
    ensures IntentOf("show me a practice plan", planSaved) == ShowProgress
  {
    var m := "show me a practice plan";
    assert m[0..7] == "show me";
    ContainsAt(m, "show me", 0);
    assert PROGRESS_WORDS[4] == "show me";
  }

  // ---------------------------------------------------------------------------
  // The pending plans and one chat turn
  // ---------------------------------------------------------------------------

  datatype PendingPlan = PendingPlan(planId: string, userId: string, planData: PlanData, planText: string)

  datatype Chart = PerformanceTrend | Comparison | PracticePlan(plan: PlanData, planId: string)

  datatype ChatMessage = ChatMessage(role: string, content: string)

  datatype ChatResponse = ChatResponse(
    content: string,
    chart: Option<Chart>,
    planSaved: bool,
    hasPendingPlan: bool,
    totalSessions: nat,
    weakestArea: string)

  const TREND_NOTE := "\n\n*I've displayed your performance trend chart below.*"
  const COMPARISON_NOTE := "\n\n*I've shown a comparison of your latest session vs your average below.*"
  const PLAN_NOTE := "\n\n*I've created a practice plan for you below. Would you like me to save this plan?*"
  const SAVED_NOTE := "\n\n\U{2705} *Your practice plan has been saved! You can access it anytime from your practice history.*"

  /** The model's reply with a line about the chart shown and about a saved plan. */
  function ReplyContent(reply: string, chart: Option<Chart>, planSaved: bool): string {
    var withChart := match chart
      case None => reply
      case Some(PerformanceTrend) => reply + TREND_NOTE
      case Some(Comparison) => reply + COMPARISON_NOTE
      case Some(PracticePlan(_, _)) => reply + PLAN_NOTE;
    if planSaved then withChart + SAVED_NOTE else withChart
  }

  /** `request.thread_id or f"chat-{user_id}"` */
  function ThreadOf(threadId: Option<string>, userId: string): string {
    if threadId.Some? && threadId.value != "" then threadId.value else "chat-" + userId
  }

  /** The last message's text, or "" for an empty conversation. */
  function LastMessage(messages: seq<ChatMessage>): string {
    if messages == [] then "" else messages[|messages| - 1].content
  }

  /** The pending plans after the confirmation step of a turn. */
  function AfterConfirmation(plans: map<string, PendingPlan>, thread: string, message: string,
                             save: PendingPlan -> bool): map<string, PendingPlan> {
    if thread in plans && CheckForConfirmation(message) && save(plans[thread]) then plans - {thread} else plans
  }

  /** The module-level `pending_plans` dict, keyed by conversation thread. */
  class PlanStore {
    var pendingPlans: map<string, PendingPlan>

    constructor()
      ensures pendingPlans == map[]
    {
      pendingPlans := map[];
    }

    /**
     * `generate_practice_recommendation`: the plan for the summary, stored
     * for the thread (replacing any earlier one) with its saved text; when the
     * scale loop raises, nothing is stored.
     */
    method Recommend(d: PracticeData, userId: string, threadId: string, planId: string) returns (r: Result<Chart>)
      modifies this
      ensures PlanFor(d).Failure? ==> r == Failure(PlanFor(d).error) && pendingPlans == old(pendingPlans)
      ensures PlanFor(d).Success? ==>
                var plan := PlanFor(d).value;
                && r == Success(PracticePlan(plan, planId))
                && pendingPlans == old(pendingPlans)[threadId := PendingPlan(planId, userId, plan, FormatPlanText(plan))]
    {
      var w := d.weakestArea;
      var suggestion := SuggestScale(d.practicedScales);
      if suggestion.Failure? {
        return Failure(suggestion.error);
      }
      var (scale, scaleType) := suggestion.value;
      var plan := PlanData(FocusName(w), RoundHalfEven(AverageAt(d, ScoreKey(w)) * 100.0), scale, scaleType,
                           ExercisesFor(w), SESSION_TARGET);
      assert Success(plan) == PlanFor(d);
      pendingPlans := pendingPlans[threadId := PendingPlan(planId, userId, plan, FormatPlanText(plan))];
      r := Success(PracticePlan(plan, planId));
    }

    /** The confirmation step of `chat`: a pending plan the user confirms is saved and dropped. */
    method Confirm(thread: string, message: string, save: PendingPlan -> bool) returns (planSaved: bool)
      modifies this
      ensures planSaved <==> thread in old(pendingPlans) && CheckForConfirmation(message)
                             && save(old(pendingPlans)[thread])
      ensures pendingPlans == AfterConfirmation(old(pendingPlans), thread, message, save)
    {
      planSaved := false;
      if thread in pendingPlans && CheckForConfirmation(message) {
        var pending := pendingPlans[thread];
        if save(pending) {
          planSaved := true;
          pendingPlans := pendingPlans - {thread};
        }
      }
    }

    /**
     * One call of the `chat` endpoint. `save` is the database insert of a
     * pending plan (true when it succeeds), `hasLatest` whether the user has a
     * session to compare, `reply` the model's answer and `planId` the fresh
     * identifier a new plan would get. A plan request whose scale loop raises
     * fails the whole call with the error as its detail.
     */
    method Chat(messages: seq<ChatMessage>, userId: string, threadId: Option<string>, d: PracticeData,
                save: PendingPlan -> bool, hasLatest: bool, reply: string, planId: string)
      returns (r: Result<ChatResponse>)
      modifies this
      ensures var thread := ThreadOf(threadId, userId);
              var message := LastMessage(messages);
              var saved := thread in old(pendingPlans) && CheckForConfirmation(message)
                           && save(old(pendingPlans)[thread]);
              var intent := IntentOf(Lower(message), saved);
              var kept := AfterConfirmation(old(pendingPlans), thread, message, save);
              && (r.Failure? <==> intent == RecommendPlan && PlanFor(d).Failure?)
              && (r.Failure? ==> r.error == "Chat failed: " + PlanFor(d).error)
              && (r.Success? ==> r.value.planSaved == saved)
              && pendingPlans
                   == (if intent == RecommendPlan && PlanFor(d).Success?
                       then kept[thread := PendingPlan(planId, userId, PlanFor(d).value, FormatPlanText(PlanFor(d).value))]
                       else kept)
      ensures var message := LastMessage(messages);
              r.Success? ==>
                r.value.chart == match IntentOf(Lower(message), r.value.planSaved)
                  case ShowProgress => Some(PerformanceTrend)
                  case CompareLatest => if hasLatest then Some(Comparison) else None
                  case RecommendPlan => Some(PracticePlan(PlanFor(d).value, planId))
                  case JustTalk => None
      ensures r.Success? ==> r.value.content == ReplyContent(reply, r.value.chart, r.value.planSaved)
      ensures r.Success? ==> r.value.hasPendingPlan == (ThreadOf(threadId, userId) in pendingPlans)
      ensures r.Success? ==> r.value.totalSessions == d.totalSessions && r.value.weakestArea == d.weakestArea
    {
      var thread := ThreadOf(threadId, userId);
      var message := LastMessage(messages);
      var planSaved := Confirm(thread, message, save);
      var chart: Option<Chart> := None;
      var lowered := Lower(message);
      if ContainsAny(lowered, PROGRESS_WORDS) {
        chart := Some(PerformanceTrend);
      } else if ContainsAny(lowered, COMPARE_WORDS) {
        chart := if hasLatest then Some(Comparison) else None;
      } else if ContainsAny(lowered, PRACTICE_WORDS) && !planSaved {
        var plan := Recommend(d, userId, thread, planId);
        if plan.Failure? {
          return Failure("Chat failed: " + plan.error);
        }
        chart := Some(plan.value);
      }
      r := Success(ChatResponse(ReplyContent(reply, chart, planSaved), chart, planSaved, thread in pendingPlans,
                                d.totalSessions, d.weakestArea));
    }
  }

  /**
   * A turn that saves the thread's plan leaves no plan pending for that
   * thread, and a turn that does not save it keeps it (or replaces it with a
   * new one).
   */
  lemma SavedPlanIsCleared(plans: map<string, PendingPlan>, thread: string, message: string,
                           save: PendingPlan -> bool, planSaved: bool)
    requires planSaved <==> thread in plans && CheckForConfirmation(message) && save(plans[thread])
    ensures planSaved ==> thread !in AfterConfirmation(plans, thread, message, save)
    ensures planSaved ==> IntentOf(Lower(message), planSaved) != RecommendPlan
    ensures !planSaved ==> AfterConfirmation(plans, thread, message, save) == plans
  {
  }
}
