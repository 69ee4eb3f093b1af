/**
 * The practice-plan quality metric of the web chat evaluation: it scores a
 * reply only when the user asked for a plan, finds the first brace-delimited
 * object in the reply that mentions "focus_area", decodes it and grades it.
 *
 * The JSON decoder is a parameter; its result is a decoded object or a
 * decode error with its message.
 */
module PlanQuality {
  import opened Wrappers
  import opened PyText
  import opened MetricResult

  /** The phrases that make a query a request for a practice plan. */
  const PLAN_REQUEST_KEYWORDS: seq<string> := [
    "practice plan", "make a plan", "create a plan", "give me a plan", "build a plan",
    "suggest a plan", "what should i practice", "today's practice", "practice session", "surprise me"]

  /** The quoted key the extracted object must mention. */
  const FOCUS_KEY := "\"focus_area\""

  /** A decoded JSON value. Numbers are ints or finite floats. */
  datatype Json =
    | JNull
    | JBool(b: bool)
    | JInt(i: int)
    | JFloat(f: real)
    | JStr(s: string)
    | JList(items: seq<Json>)
    | JObject(fields: map<string, Json>)

  /** What the decoder makes of the extracted text. */
  datatype Decoded = DecodeError(msg: string) | Parsed(plan: map<string, Json>)

  predicate IsBrace(c: char) {
    c == '{' || c == '}'
  }

  // ---------------------------------------------------------------------------
  // Extraction: re.search(r'\{[^{}]*"focus_area"[^{}]*\}', output)
  // ---------------------------------------------------------------------------

  /** The first brace at or after `i`, or the length of `s` when there is none. */
  function NextBrace(s: string, i: nat): (k: nat)
    requires i <= |s|
    ensures i <= k <= |s|
    ensures k < |s| ==> IsBrace(s[k])
    ensures forall j :: i <= j < k ==> !IsBrace(s[j])
    decreases |s| - i
  {
    if i == |s| || IsBrace(s[i]) then i else NextBrace(s, i + 1)
  }

  /**
   * The match of the pattern that starts at `i`. No brace may occur inside,
   * so the closing brace is the first brace after the opening one.
   */
  function MatchAt(s: string, i: nat): Option<string>
    requires i < |s|
  {
    if s[i] != '{' then None
    else
      var k := NextBrace(s, i + 1);
      if k < |s| && s[k] == '}' && Contains(s[i + 1..k], FOCUS_KEY) then Some(s[i..k + 1]) else None
  }

  /**
   * A match is a piece of the text that opens and closes with a brace, has
   * no brace in between and mentions the key.
   */
  lemma MatchShape(s: string, i: nat)
    requires i < |s| && MatchAt(s, i).Some?
    ensures var m := MatchAt(s, i).value;
            |m| >= 2 && m[0] == '{' && m[|m| - 1] == '}'
            && (forall j :: 0 < j < |m| - 1 ==> !IsBrace(m[j]))
            && Contains(m[1..|m| - 1], FOCUS_KEY)
            && i + |m| <= |s| && s[i..i + |m|] == m
  {
    var k := NextBrace(s, i + 1);
    assert s[i..k + 1][1..k - i] == s[i + 1..k];
  }

  /** The leftmost match at or after `i`. */
  function SearchFrom(s: string, i: nat): Option<string>
    requires i <= |s|
    decreases |s| - i
  {
    if i == |s| then None
    else if MatchAt(s, i).Some? then MatchAt(s, i)
    else SearchFrom(s, i + 1)
  }

  /** The search finds the match that starts leftmost, and finds nothing only when nothing matches. */
  lemma {:induction false} SearchIsLeftmost(s: string, i: nat)
    requires i <= |s|
    ensures SearchFrom(s, i).None? ==> forall j :: i <= j < |s| ==> MatchAt(s, j).None?
    ensures SearchFrom(s, i).Some? ==>
              exists j :: i <= j < |s| && MatchAt(s, j) == SearchFrom(s, i)
                          && forall k :: i <= k < j ==> MatchAt(s, k).None?
    decreases |s| - i
  {
    if i < |s| && MatchAt(s, i).None? {
      SearchIsLeftmost(s, i + 1);
      if SearchFrom(s, i).Some? {
        var j :| i + 1 <= j < |s| && MatchAt(s, j) == SearchFrom(s, i + 1)
                 && forall k :: i + 1 <= k < j ==> MatchAt(s, k).None?;
        assert forall k :: i <= k < j ==> MatchAt(s, k).None?;
      }
    }
  }

  /** The plan object of a reply, as the search finds it. */
  function PlanObjectIn(output: string): Option<string> {
    SearchFrom(output, 0)
  }

  /** Skipping text without an opening brace does not change the search. */
  lemma {:induction false} SearchSkipsPlainText(s: string, i: nat, n: nat)
    requires i + n <= |s|
    requires forall j :: i <= j < i + n ==> s[j] != '{'
    ensures SearchFrom(s, i) == SearchFrom(s, i + n)
    decreases n
  {
    if n > 0 {
      SearchSkipsPlainText(s, i + 1, n - 1);
    }
  }

  /**
   * An object that opens at the first opening brace of the text, closes at
   * the next brace and mentions the key is the object the search extracts,
   * whatever follows it.
   */
  lemma FirstObjectIsFound(s: string, i: nat, k: nat)
    requires i < k < |s| && s[i] == '{' && s[k] == '}'
    requires forall j :: 0 <= j < i ==> s[j] != '{'
    requires forall j :: i < j < k ==> !IsBrace(s[j])
    requires Contains(s[i + 1..k], FOCUS_KEY)
    ensures PlanObjectIn(s) == Some(s[i..k + 1])
  {
    SearchSkipsPlainText(s, 0, i);
    NextBraceSkips(s, i + 1, k);
  }

  /** Over a stretch without braces, the next brace is where the stretch ends. */
  lemma {:induction false} NextBraceSkips(s: string, i: nat, k: nat)
    requires i <= k < |s| && IsBrace(s[k])
    requires forall j :: i <= j < k ==> !IsBrace(s[j])
    ensures NextBrace(s, i) == k
    decreases k - i
  {
    if i < k {
      NextBraceSkips(s, i + 1, k);
    }
  }

  // ---------------------------------------------------------------------------
  // Grading the decoded plan
  // ---------------------------------------------------------------------------

  /** All six required fields are present. */
  predicate HasRequiredFields(plan: map<string, Json>) {
    "focus_area" in plan && "current_score" in plan && "suggested_scale" in plan
    && "suggested_scale_type" in plan && "session_target" in plan && "exercises" in plan
  }

  /** The required fields absent from the plan, in the order they are listed. */
  function MissingFields(plan: map<string, Json>): (missing: seq<string>)
    ensures missing == [] <==> HasRequiredFields(plan)
    ensures forall k :: 0 <= k < |missing| ==> missing[k] !in plan
    ensures |missing| <= 6
  {
    (if "focus_area" in plan then [] else ["focus_area"])
    + (if "current_score" in plan then [] else ["current_score"])
    + (if "suggested_scale" in plan then [] else ["suggested_scale"])
    + (if "suggested_scale_type" in plan then [] else ["suggested_scale_type"])
    + (if "session_target" in plan then [] else ["session_target"])
    + (if "exercises" in plan then [] else ["exercises"])
  }

  /** A string that is not blank once stripped. */
  predicate NonBlankString(v: Json) {
    v.JStr? && Strip(v.s) != []
  }

  /**
   * `isinstance(v, (int, float)) and 0 <= v <= 100`. A JSON boolean passes:
   * Python's bool is a kind of int, true comparing as 1 and false as 0.
   */
  predicate ScoreInRange(v: Json) {
    match v
    case JInt(i) => 0 <= i <= 100
    case JFloat(f) => 0.0 <= f <= 100.0
    case JBool(_) => true
    case _ => false
  }

  predicate ExercisesNonEmpty(v: Json) {
    v.JList? && |v.items| > 0
  }

  predicate AllNonBlankStrings(items: seq<Json>) {
    forall k :: 0 <= k < |items| ==> NonBlankString(items[k])
  }

  /** Every required field has a value of the right type and range. */
  predicate ValidPlan(plan: map<string, Json>)
    requires HasRequiredFields(plan)
  {
    NonBlankString(plan["focus_area"]) && ScoreInRange(plan["current_score"])
    && NonBlankString(plan["suggested_scale"]) && NonBlankString(plan["suggested_scale_type"])
    && NonBlankString(plan["session_target"])
    && ExercisesNonEmpty(plan["exercises"]) && AllNonBlankStrings(plan["exercises"].items)
  }

  /** The message of a failed check, or nothing when it passes. */
  function IssueUnless(ok: bool, message: string): (r: seq<string>)
    ensures r == [] <==> ok
    ensures |r| <= 1
  {
    if ok then [] else [message]
  }

  /** The validation issues, one per failing field, in the order the fields are checked. */
  function Issues(plan: map<string, Json>): (issues: seq<string>)
    requires HasRequiredFields(plan)
    ensures issues == [] <==> ValidPlan(plan)
    ensures |issues| <= 6
  {
    var exercises := plan["exercises"];
    IssueUnless(NonBlankString(plan["focus_area"]), "focus_area must be non-empty string")
    + IssueUnless(ScoreInRange(plan["current_score"]), "current_score must be number between 0-100")
    + IssueUnless(NonBlankString(plan["suggested_scale"]), "suggested_scale must be non-empty string")
    + IssueUnless(NonBlankString(plan["suggested_scale_type"]), "suggested_scale_type must be non-empty string")
    + IssueUnless(NonBlankString(plan["session_target"]), "session_target must be non-empty string")
    + (if !ExercisesNonEmpty(exercises) then ["exercises must be non-empty list"]
       else IssueUnless(AllNonBlankStrings(exercises.items), "all exercises must be non-empty strings"))
  }

  /** The grade of a decoded object: 0.3 with fields missing, 0.5 with issues, 1.0 otherwise. */
  function GradePlan(plan: map<string, Json>): (r: Score)
    ensures r.value == 0.3 <==> MissingFields(plan) != []
    ensures r.value == 1.0 <==> MissingFields(plan) == [] && ValidPlan(plan)
    ensures r.value == 0.5 <==> MissingFields(plan) == [] && !ValidPlan(plan)
  {
    var missing := MissingFields(plan);
    if missing != [] then Score(0.3, "Missing required fields: " + Join(missing, ", "))
    else
      var issues := Issues(plan);
      if issues != [] then Score(0.5, "Validation issues: " + Join(issues, "; "))
      else
        var focus := plan["focus_area"].s;
        Score(1.0, "Valid practice plan with " + NatToString(|plan["exercises"].items|)
                   + " exercises focusing on " + focus)
  }

  /**
   * `PracticePlanQuality.score`: None unless the query asks for a plan; 0.0
   * without a plan object, 0.1 when it does not decode, and otherwise the
   * grade of the decoded object.
   */
  function PlanQualityScore(input: string, output: string, decode: string -> Decoded): (r: Option<Score>)
    ensures r.None? <==> !ContainsAny(Lower(input), PLAN_REQUEST_KEYWORDS)
    ensures r.Some? && PlanObjectIn(output).None? ==> r.value.value == 0.0
    ensures r.Some? && PlanObjectIn(output).Some? ==>
              match decode(PlanObjectIn(output).value)
              case DecodeError(_) => r.value.value == 0.1
              case Parsed(plan) => r.value == GradePlan(plan)
  {
    if !ContainsAny(Lower(input), PLAN_REQUEST_KEYWORDS) then None
    else
      match PlanObjectIn(output)
      case None => Some(Score(0.0, "No practice plan JSON found in response"))
      case Some(planJson) =>
        match decode(planJson)
        case DecodeError(msg) => Some(Score(0.1, "Invalid JSON format: " + msg))
        case Parsed(plan) => Some(GradePlan(plan))
  }

  /** Every score the metric gives is one of its five grades. */
  lemma ScoreIsAGrade(input: string, output: string, decode: string -> Decoded)
    requires PlanQualityScore(input, output, decode).Some?
    ensures PlanQualityScore(input, output, decode).value.value in {0.0, 0.1, 0.3, 0.5, 1.0}
  {
    var r := PlanQualityScore(input, output, decode).value;
    if PlanObjectIn(output).Some? {
      match decode(PlanObjectIn(output).value)
      case DecodeError(_) =>
      case Parsed(plan) =>
        if MissingFields(plan) == [] {
          assert r.value == 1.0 || r.value == 0.5;
        }
    }
  }

  /** A boolean current score passes the range check, as a Python bool is an int. */
  lemma BooleanScoreAccepted(b: bool)
    ensures ScoreInRange(JBool(b))
  {
  }

  /** A whitespace-only exercise fails validation. */
  lemma BlankExerciseFails(plan: map<string, Json>, k: nat)
    requires HasRequiredFields(plan)
    requires plan["exercises"].JList? && k < |plan["exercises"].items|
    requires plan["exercises"].items[k].JStr?
    requires forall i :: 0 <= i < |plan["exercises"].items[k].s| ==> IsPySpace(plan["exercises"].items[k].s[i])
    ensures GradePlan(plan).value == 0.5
  {
    StripBlank(plan["exercises"].items[k].s);
    assert !AllNonBlankStrings(plan["exercises"].items);
  }
}
