/**
 * The response-completeness metric of the web chat evaluation: a decision
 * tree over the reply's blankness, error phrases, length and action words.
 * The reply is None when the agent produced nothing.
 */
module ResponseCompleteness {
  import opened Wrappers
  import opened PyText
  import opened MetricResult

  const ERROR_INDICATORS: seq<string> := [
    "error occurred", "i apologize", "encountered an issue", "something went wrong", "failed to", "unable to"]

  const ACTIONABLE_INDICATORS: seq<string> := [
    "practice", "focus", "improve", "try", "work on", "exercise", "session", "scale", "accuracy", "timing"]

  /** Below this many characters a reply is too short. */
  const MIN_LENGTH := 50
  /** From this many characters on a reply counts as detailed. */
  const DETAILED_LENGTH := 100

  /** The reply is missing or only whitespace. */
  predicate Blank(output: Option<string>) {
    output.None? || Strip(output.value) == []
  }

  predicate HasError(text: string) {
    ContainsAny(Lower(text), ERROR_INDICATORS)
  }

  predicate HasActionable(text: string) {
    ContainsAny(Lower(text), ACTIONABLE_INDICATORS)
  }

  /**
   * `ResponseCompleteness.score`: None for an AI greeting; 0.0 for a blank
   * reply; 0.2 for an error phrase, whatever the length; 0.4 when shorter
   * than 50 characters; then 1.0, 0.8, 0.7 or 0.6 by action words and
   * whether the reply reaches 100 characters.
   */
  function CompletenessScore(output: Option<string>, isAiGreeting: bool): (r: Option<Score>)
    ensures r.None? <==> isAiGreeting
    ensures r.Some? && Blank(output) ==> r.value.value == 0.0
    ensures r.Some? && !Blank(output) ==>
              var text := output.value;
              (r.value.value == 0.2 <==> HasError(text))
              && (r.value.value == 0.4 <==> !HasError(text) && |text| < MIN_LENGTH)
              && (r.value.value >= 0.6 <==> !HasError(text) && |text| >= MIN_LENGTH)
              && (r.value.value == 1.0 <==> !HasError(text) && HasActionable(text) && |text| >= DETAILED_LENGTH)
              && (r.value.value == 0.8 <==> !HasError(text) && HasActionable(text) && MIN_LENGTH <= |text| < DETAILED_LENGTH)
              && (r.value.value == 0.7 <==> !HasError(text) && !HasActionable(text) && |text| >= DETAILED_LENGTH)
              && (r.value.value == 0.6 <==> !HasError(text) && !HasActionable(text) && MIN_LENGTH <= |text| < DETAILED_LENGTH)
  {
    if isAiGreeting then None
    else if Blank(output) then Some(Score(0.0, "Empty response"))
    else
      var text := output.value;
      var length := |text|;
      if HasError(text) then Some(Score(0.2, "Response contains error indicators"))
      else if length < MIN_LENGTH then Some(Score(0.4, "Response too short (" + NatToString(length) + " chars)"))
      else
        var actionable := HasActionable(text);
        if actionable && length >= DETAILED_LENGTH then
          Some(Score(1.0, "Complete and actionable response (" + NatToString(length) + " chars)"))
        else if actionable then
          Some(Score(0.8, "Actionable but could be more detailed (" + NatToString(length) + " chars)"))
        else if length >= DETAILED_LENGTH then Some(Score(0.7, "Response is detailed but lacks clear action items"))
        else Some(Score(0.6, "Response could be more complete and actionable"))
  }

  /** A reply of nothing but whitespace scores 0, like a missing one. */
  lemma WhitespaceScoresZero(text: string)
    requires forall i :: 0 <= i < |text| ==> IsPySpace(text[i])
    ensures CompletenessScore(Some(text), false) == CompletenessScore(None, false) == Some(Score(0.0, "Empty response"))
  {
    StripBlank(text);
  }

  /**
   * Extending a reply that keeps its error and action phrases never lowers
   * its score: length only ever helps.
   */
  lemma LongerNeverWorse(short: string, long: string)
    requires !Blank(Some(short)) && !Blank(Some(long)) && |short| <= |long|
    requires HasError(short) == HasError(long) && HasActionable(short) == HasActionable(long)
    ensures CompletenessScore(Some(short), false).value.value <= CompletenessScore(Some(long), false).value.value
  {
  }

  /** For replies of the same length free of error phrases, action words never lower the score. */
  lemma ActionableNeverWorse(plain: string, actionable: string)
    requires !Blank(Some(plain)) && !Blank(Some(actionable)) && |plain| == |actionable|
    requires !HasError(plain) && !HasError(actionable) && HasActionable(actionable)
    ensures CompletenessScore(Some(plain), false).value.value <= CompletenessScore(Some(actionable), false).value.value
  {
  }
}
