/**
 * The evaluation datasets built from recorded sessions: the skill level of a
 * set of metrics, the item derived from each row of the three queries
 * (coaching feedback, recommendation outcome, learning progress), and the
 * slicing of an item list into insert batches.
 *
 * The queries and the dataset service are outside the model: rows arrive as
 * values, timestamps as seconds, and each insert call is recorded as the
 * batch it would send. Decoding a stored plan is a parameter that yields its
 * fields, or None when the text is not a JSON object.
 */
module CreateDatasets {
  import opened Wrappers
  import opened PyNum
  import opened MetricAreas

  // ---------------------------------------------------------------------------
  // Skill level
  // ---------------------------------------------------------------------------

  const ADVANCED := "advanced"
  const INTERMEDIATE := "intermediate"
  const BEGINNER := "beginner"

  /** `metrics.get(key, 0)` */
  function MetricOr0(metrics: map<string, real>, key: string): real {
    if key in metrics then metrics[key] else 0.0
  }

  /** The mean of the three metrics that `calculate_skill_level` grades. */
  function MeanOfAreas(metrics: map<string, real>): real {
    (MetricOr0(metrics, "pitch") + MetricOr0(metrics, "scale") + MetricOr0(metrics, "timing")) / 3.0
  }

  /** `calculate_skill_level`: the mean of the three metrics graded at 0.8 and 0.5; a missing metric counts as 0. */
  function SkillLevel(metrics: map<string, real>): (level: string)
    ensures level == ADVANCED <==> MeanOfAreas(metrics) >= 0.8
    ensures level == INTERMEDIATE <==> 0.5 <= MeanOfAreas(metrics) < 0.8
    ensures level == BEGINNER <==> MeanOfAreas(metrics) < 0.5
  {
    var avg := MeanOfAreas(metrics);
    if avg >= 0.8 then ADVANCED
    else if avg >= 0.5 then INTERMEDIATE
    else BEGINNER
  }

  /** The three levels in order. */
  function LevelRank(level: string): nat {
    if level == ADVANCED then 2 else if level == INTERMEDIATE then 1 else 0
  }

  /** The metrics dict of a session. */
  function AreaMetrics(pitch: real, scale: real, timing: real): map<string, real> {
    map["pitch" := pitch, "scale" := scale, "timing" := timing]
  }

  /** Raising any of the three metrics never lowers the level. */
  lemma SkillLevelMonotone(p1: real, s1: real, t1: real, p2: real, s2: real, t2: real)
    requires p1 <= p2 && s1 <= s2 && t1 <= t2
    ensures LevelRank(SkillLevel(AreaMetrics(p1, s1, t1))) <= LevelRank(SkillLevel(AreaMetrics(p2, s2, t2)))
  {
    assert MeanOfAreas(AreaMetrics(p1, s1, t1)) == (p1 + s1 + t1) / 3.0;
    assert MeanOfAreas(AreaMetrics(p2, s2, t2)) == (p2 + s2 + t2) / 3.0;
  }

  /** With no metrics at all the mean is 0, a beginner. */
  lemma EmptyMetricsAreBeginner()
    ensures SkillLevel(map[]) == BEGINNER
  {
    assert MeanOfAreas(map[]) == 0.0;
  }

  // ---------------------------------------------------------------------------
  // Batch inserts
  // ---------------------------------------------------------------------------

  /** The items of a list of batches, in order. */
  function Concat<T>(batches: seq<seq<T>>): seq<T> {
    if batches == [] then [] else Concat(batches[..|batches| - 1]) + batches[|batches| - 1]
  }

  function Min(a: int, b: int): int {
    if a <= b then a else b
  }

  /** One more slice, taken where the earlier ones stop, extends what they cover. */
  lemma AppendBatch<T>(items: seq<T>, batches: seq<seq<T>>, i: nat, end: nat)
    requires i <= end <= |items| && Concat(batches) == items[..i]
    ensures Concat(batches + [items[i..end]]) == items[..end]
  {
    assert (batches + [items[i..end]])[..|batches|] == batches;
    assert items[..i] + items[i..end] == items[..end];
  }

  /**
   * The insert loop: `items[i:i + size]` for i in `range(0, len(items), size)`.
   * Every item is sent exactly once and in order, and every batch is
   * non-empty and holds at most `size` items.
   */
  method InsertInBatches<T>(items: seq<T>, size: nat) returns (batches: seq<seq<T>>)
    requires size > 0
    ensures Concat(batches) == items
    ensures forall k :: 0 <= k < |batches| ==> 0 < |batches[k]| <= size
  {
    batches := [];
    var i := 0;
    while i < |items|
      invariant Concat(batches) == items[..Min(i, |items|)]
      invariant forall k :: 0 <= k < |batches| ==> 0 < |batches[k]| <= size
      decreases |items| - i
    {
      var end := Min(i + size, |items|);
      AppendBatch(items, batches, i, end);
      batches := batches + [items[i..end]];
      i := i + size;
    }
    assert items[..|items|] == items;
  }

  const ITEM_BATCH := 50
  const PROGRESS_BATCH := 10

  // ---------------------------------------------------------------------------
  // Coaching items
  // ---------------------------------------------------------------------------

  /** A session row of the coaching query (the query keeps only rows with all three metrics). */
  datatype CoachingRow = CoachingRow(
    sessionId: string, userId: string, scaleChosen: string, scaleType: string,
    pitch: real, scaleConformity: real, timing: real, duration: int, startTimestamp: Option<string>)

  datatype CoachingItem = CoachingItem(
    scaleName: string, scaleType: string,
    pitchAccuracy: real, scaleConformity: real, timingStability: real,
    weakestArea: string, sessionDuration: int, skillLevel: string, metrics: map<string, real>,
    focusArea: string, tone: string, actionable: bool,
    sessionId: string, userId: string, startTimestamp: Option<string>)

  /** The coaching item of a session row: its weakest area is also the expected focus. */
  function CoachingItemOf(row: CoachingRow): (item: CoachingItem)
    ensures item.weakestArea == item.focusArea
    ensures item.weakestArea == AreaName(WeakestArea(row.pitch, row.scaleConformity, row.timing))
    ensures item.skillLevel == SkillLevel(AreaMetrics(row.pitch, row.scaleConformity, row.timing))
    ensures item.metrics.Keys == {"pitch", "scale", "timing"}
  {
    var metrics := AreaMetrics(row.pitch, row.scaleConformity, row.timing);
    var weakest := AreaName(WeakestArea(row.pitch, row.scaleConformity, row.timing));
    CoachingItem(row.scaleChosen, row.scaleType, row.pitch, row.scaleConformity, row.timing,
                 weakest, row.duration, SkillLevel(metrics), metrics,
                 weakest, "encouraging", true,
                 row.sessionId, row.userId, row.startTimestamp)
  }

  /** The item's skill level is the grade of the session's mean score. */
  lemma CoachingSkillIsMeanGrade(row: CoachingRow)
    ensures var mean := (row.pitch + row.scaleConformity + row.timing) / 3.0;
            var item := CoachingItemOf(row);
            (item.skillLevel == ADVANCED <==> mean >= 0.8)
            && (item.skillLevel == BEGINNER <==> mean < 0.5)
  {
    assert MeanOfAreas(AreaMetrics(row.pitch, row.scaleConformity, row.timing))
        == (row.pitch + row.scaleConformity + row.timing) / 3.0;
  }

  // ---------------------------------------------------------------------------
  // Recommendation items
  // ---------------------------------------------------------------------------

  /** The fields of a stored plan that the dataset reads. */
  datatype PlanFields = PlanFields(focusArea: Option<string>, scaleName: Option<string>, strictness: Option<real>)

  const NO_PLAN := PlanFields(None, None, None)

  /**
   * An executed plan with its session's scores and the user's earlier
   * averages (each None when SQL's AVG has no rows); times are in seconds.
   */
  datatype RecommendationRow = RecommendationRow(
    practiceId: string, userId: string, planJson: Option<string>, generatedAt: Option<real>,
    executedSessionId: string, pitch: real, scaleConformity: real, timing: real, executedAt: Option<real>,
    histPitch: Option<real>, histScale: Option<real>, histTiming: Option<real>, histCount: nat)

  datatype RecommendationItem = RecommendationItem(
    userHistory: map<string, real>,
    recommendedScale: string, recommendedFocus: string, recommendedStrictness: real,
    hoursSinceGeneration: real,
    executionMetrics: map<string, real>,
    completion: bool, improvement: bool,
    practiceId: string, sessionId: string, userId: string)

  /** `value or 0.5`: a missing average, and a genuine 0.0 as well, both read as 0.5. */
  function HistoryAverage(x: Option<real>): (r: real)
    ensures x.Some? && x.value != 0.0 ==> r == x.value
    ensures x.None? || x.value == 0.0 ==> r == 0.5
  {
    if x.None? || x.value == 0.0 then 0.5 else x.value
  }

  /** A user whose earlier sessions all scored 0 on a metric is recorded as averaging 0.5 on it. */
  lemma ZeroHistoryReadsAsHalf()
    ensures HistoryAverage(Some(0.0)) == HistoryAverage(None) == 0.5
  {
  }

  /** Hours from generation to execution, or 0 when either time is missing. */
  function HoursSince(generatedAt: Option<real>, executedAt: Option<real>): (h: real)
    ensures generatedAt.None? || executedAt.None? ==> h == 0.0
    ensures generatedAt.Some? && executedAt.Some? ==> h * 3600.0 == executedAt.value - generatedAt.value
  {
    if generatedAt.Some? && executedAt.Some? then (executedAt.value - generatedAt.value) / 3600.0 else 0.0
  }

  /** The plan as parsed: nothing stored, or text that does not decode to an object, reads as an empty plan. */
  function ParsedPlan(planJson: Option<string>, decode: string -> Option<PlanFields>): PlanFields {
    if planJson.None? || planJson.value == "" then NO_PLAN
    else decode(planJson.value).GetOr(NO_PLAN)
  }

  /** The `user_history` of an item: the three averages to 3 places and the session count. */
  function UserHistory(avgPitch: real, avgScale: real, avgTiming: real, count: nat): (h: map<string, real>)
    ensures h.Keys == {"avg_pitch_accuracy", "avg_scale_conformity", "avg_timing_stability", "total_sessions"}
  {
    map["avg_pitch_accuracy" := RoundTo(avgPitch, 3),
        "avg_scale_conformity" := RoundTo(avgScale, 3),
        "avg_timing_stability" := RoundTo(avgTiming, 3),
        "total_sessions" := count as real]
  }

  /** The `execution_metrics` of an item: the executed session's three scores to 3 places. */
  function ExecutionMetrics(pitch: real, scale: real, timing: real): (m: map<string, real>)
    ensures m.Keys == {"pitch_accuracy", "scale_conformity", "timing_stability"}
  {
    map["pitch_accuracy" := RoundTo(pitch, 3),
        "scale_conformity" := RoundTo(scale, 3),
        "timing_stability" := RoundTo(timing, 3)]
  }

  /** The recommendation item of an executed plan. */
  function RecommendationItemOf(row: RecommendationRow, decode: string -> Option<PlanFields>)
    : (item: RecommendationItem)
    ensures item.userHistory
            == UserHistory(HistoryAverage(row.histPitch), HistoryAverage(row.histScale),
                           HistoryAverage(row.histTiming), row.histCount)
    ensures item.executionMetrics == ExecutionMetrics(row.pitch, row.scaleConformity, row.timing)
    ensures item.recommendedFocus == ParsedPlan(row.planJson, decode).focusArea.GetOr("pitch")
    ensures item.recommendedScale == ParsedPlan(row.planJson, decode).scaleName.GetOr("Unknown")
    ensures item.recommendedStrictness == ParsedPlan(row.planJson, decode).strictness.GetOr(0.5)
    ensures item.completion && item.improvement
    ensures item.practiceId == row.practiceId && item.sessionId == row.executedSessionId && item.userId == row.userId
    ensures -0.05 <= HoursSince(row.generatedAt, row.executedAt) - item.hoursSinceGeneration <= 0.05
  {
    var plan := ParsedPlan(row.planJson, decode);
    var hours := HoursSince(row.generatedAt, row.executedAt);
    assert Pow10(1) == 10;
    RecommendationItem(
      UserHistory(HistoryAverage(row.histPitch), HistoryAverage(row.histScale),
                  HistoryAverage(row.histTiming), row.histCount),
      plan.scaleName.GetOr("Unknown"), plan.focusArea.GetOr("pitch"), plan.strictness.GetOr(0.5),
      RoundTo(hours, 1),
      ExecutionMetrics(row.pitch, row.scaleConformity, row.timing),
      true, true,
      row.practiceId, row.executedSessionId, row.userId)
  }

  /** A plan that is missing or does not decode is read as a pitch plan for an unknown scale. */
  lemma UndecodablePlanFocusesPitch(row: RecommendationRow, decode: string -> Option<PlanFields>)
    requires row.planJson.None? || decode(row.planJson.value).None?
    ensures RecommendationItemOf(row, decode).recommendedFocus == "pitch"
    ensures RecommendationItemOf(row, decode).recommendedScale == "Unknown"
  {
  }

  // ---------------------------------------------------------------------------
  // Learning-progress items
  // ---------------------------------------------------------------------------

  datatype SessionRow = SessionRow(
    sessionId: string, startTimestamp: Option<string>,
    pitch: real, scaleConformity: real, timing: real,
    scaleChosen: string, duration: int)

  datatype UserSessions = UserSessions(userId: string, sessions: seq<SessionRow>)

  datatype ProgressItem = ProgressItem(userId: string, sessions: seq<SessionRow>, startingSkillLevel: string,
                                       totalSessions: nat)

  const MIN_PROGRESS_SESSIONS := 10

  /** The mean of a session's three scores. */
  function SessionMean(s: SessionRow): real {
    (s.pitch + s.scaleConformity + s.timing) / 3.0
  }

  /** The mean of the first three sessions' means. */
  function FirstThreeMean(sessions: seq<SessionRow>): real
    requires |sessions| >= 3
  {
    (SessionMean(sessions[0]) + SessionMean(sessions[1]) + SessionMean(sessions[2])) / 3.0
  }

  /** The item of a user with enough sessions: all of them, and the grade of the first three sessions' mean. */
  function ProgressItemOf(u: UserSessions): (item: ProgressItem)
    requires |u.sessions| >= MIN_PROGRESS_SESSIONS
    ensures item.userId == u.userId && item.sessions == u.sessions && item.totalSessions == |u.sessions|
    ensures item.startingSkillLevel == ADVANCED <==> FirstThreeMean(u.sessions) >= 0.8
    ensures item.startingSkillLevel == BEGINNER <==> FirstThreeMean(u.sessions) < 0.5
  {
    var avg := FirstThreeMean(u.sessions);
    assert MeanOfAreas(AreaMetrics(avg, avg, avg)) == avg;
    ProgressItem(u.userId, u.sessions, SkillLevel(AreaMetrics(avg, avg, avg)), |u.sessions|)
  }

  /** The items for the users with enough sessions, in the users' order. */
  function ProgressItems(users: seq<UserSessions>): (items: seq<ProgressItem>)
    ensures |items| <= |users|
    ensures (forall j :: 0 <= j < |users| ==> |users[j].sessions| >= MIN_PROGRESS_SESSIONS) ==> |items| == |users|
    ensures (forall j :: 0 <= j < |users| ==> |users[j].sessions| < MIN_PROGRESS_SESSIONS) ==> items == []
  {
    if users == [] then []
    else
      var last := users[|users| - 1];
      ProgressItems(users[..|users| - 1])
        + (if |last.sessions| >= MIN_PROGRESS_SESSIONS then [ProgressItemOf(last)] else [])
  }

  /** The loop over users of `create_learning_progress_dataset`. */
  method BuildProgressItems(users: seq<UserSessions>) returns (items: seq<ProgressItem>)
    ensures items == ProgressItems(users)
  {
    items := [];
    for i := 0 to |users|
      invariant items == ProgressItems(users[..i])
    {
      assert users[..i + 1][..i] == users[..i];
      if |users[i].sessions| >= MIN_PROGRESS_SESSIONS {
        items := items + [ProgressItemOf(users[i])];
      }
    }
    assert users[..|users|] == users;
  }

  /**
   * Every item is for a user with at least ten sessions, carries all of them,
   * and starts at the grade of the mean of the first three sessions.
   */
  lemma {:induction false} ProgressItemsQualify(users: seq<UserSessions>)
    ensures forall k :: 0 <= k < |ProgressItems(users)| ==>
      var item := ProgressItems(users)[k];
      |item.sessions| >= MIN_PROGRESS_SESSIONS && item.totalSessions == |item.sessions|
      && (item.startingSkillLevel == ADVANCED <==> FirstThreeMean(item.sessions) >= 0.8)
      && (item.startingSkillLevel == BEGINNER <==> FirstThreeMean(item.sessions) < 0.5)
  {
    if users != [] {
      ProgressItemsQualify(users[..|users| - 1]);
      var last := users[|users| - 1];
      if |last.sessions| >= MIN_PROGRESS_SESSIONS {
        var avg := FirstThreeMean(last.sessions);
        assert MeanOfAreas(AreaMetrics(avg, avg, avg)) == avg;
      }
    }
  }

  /** A user below ten sessions gets no item. */
  lemma {:induction false} ShortHistoriesSkipped(users: seq<UserSessions>, userId: string)
    requires forall k :: 0 <= k < |users| && users[k].userId == userId ==> |users[k].sessions| < MIN_PROGRESS_SESSIONS
    ensures forall k :: 0 <= k < |ProgressItems(users)| ==> ProgressItems(users)[k].userId != userId
  {
    if users != [] {
      ShortHistoriesSkipped(users[..|users| - 1], userId);
    }
  }

  /** A user with ten sessions or more gets an item. */
  lemma {:induction false} LongHistoriesKept(users: seq<UserSessions>, j: nat)
    requires j < |users| && |users[j].sessions| >= MIN_PROGRESS_SESSIONS
    ensures ProgressItemOf(users[j]) in ProgressItems(users)
  {
    var prefix := users[..|users| - 1];
    if j < |users| - 1 {
      assert prefix[j] == users[j];
      LongHistoriesKept(prefix, j);
    }
  }
}
