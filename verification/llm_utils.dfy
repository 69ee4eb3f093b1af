/**
 * Token counting and cost accounting for the language-model calls: the price
 * table, the cost of one call rounded to six decimals, the metadata record a
 * call is tracked with, a cost estimate before a call, and the dollar string
 * shown to the user.
 *
 * The OpenAI tokenizer is foreign code: it arrives as a parameter that gives
 * the token count of a text for a base model name, or None when it fails.
 */
module LlmUtils {
  import opened Wrappers
  import opened PyNum
  import opened PyText

  /** Dollars per thousand tokens, for the prompt and for the response. */
  datatype Pricing = Pricing(input: real, output: real)

  const GPT_4O_MINI := "gpt-4o-mini"
  const GEMINI_FLASH := "gemini-2.5-flash"
  const GPT_4O_MINI_TTS := "gpt-4o-mini-tts"

  /** `MODEL_PRICING`: the three priced models; every other name is unknown. */
  function PricingOf(model: string): (p: Option<Pricing>)
    ensures p.Some? <==> model in {GPT_4O_MINI, GEMINI_FLASH, GPT_4O_MINI_TTS}
  {
    if model == GPT_4O_MINI then Some(Pricing(0.00015, 0.0006))
    else if model == GEMINI_FLASH then Some(Pricing(0.0, 0.0))
    else if model == GPT_4O_MINI_TTS then Some(Pricing(0.00015, 0.0006))
    else None
  }

  /** The speech model is billed like the text model it is built on. */
  lemma SpeechPricedLikeText()
    ensures PricingOf(GPT_4O_MINI_TTS) == PricingOf(GPT_4O_MINI)
  {
  }

  /** The name the tokenizer is asked for: the model name with "-tts" removed. */
  function BaseModel(model: string): string {
    ReplaceAll(model, "-tts", "")
  }

  /**
   * `count_tokens(text, model)`: no tokens for an empty text; the tokenizer's
   * count for a "gpt" model when it succeeds; otherwise a quarter of the
   * characters, rounded down.
   */
  function CountTokens(text: string, model: string, tokenize: (string, string) -> Option<nat>): (n: nat)
    ensures text == [] ==> n == 0
    ensures text != [] && !StartsWith(model, "gpt") ==> n == |text| / 4
    ensures text != [] && StartsWith(model, "gpt") && tokenize(BaseModel(model), text).Some?
            ==> n == tokenize(BaseModel(model), text).value
    ensures text != [] && StartsWith(model, "gpt") && tokenize(BaseModel(model), text).None?
            ==> n == |text| / 4
  {
    if text == [] then 0
    else if StartsWith(model, "gpt") then
      match tokenize(BaseModel(model), text)
      case Some(count) => count
      case None => |text| / 4
    else |text| / 4
  }

  /** The price of a call before rounding. */
  function ExactCost(p: Pricing, inputTokens: int, outputTokens: int): real {
    inputTokens as real / 1000.0 * p.input + outputTokens as real / 1000.0 * p.output
  }

  /** `calculate_cost`: 0.0 for an unknown model, otherwise the price rounded to six decimals. */
  function CalculateCost(model: string, inputTokens: int, outputTokens: int): (cost: real)
    ensures PricingOf(model).None? ==> cost == 0.0
    ensures PricingOf(model).Some? ==> cost == RoundTo(ExactCost(PricingOf(model).value, inputTokens, outputTokens), 6)
  {
    match PricingOf(model)
    case None => 0.0
    case Some(p) => RoundTo(ExactCost(p, inputTokens, outputTokens), 6)
  }

  /** Rounding to six places moves the price by at most half a millionth of a dollar. */
  lemma CostWithinRounding(model: string, inputTokens: int, outputTokens: int)
    requires PricingOf(model).Some?
    ensures var exact := ExactCost(PricingOf(model).value, inputTokens, outputTokens);
            -0.0000005 <= CalculateCost(model, inputTokens, outputTokens) - exact <= 0.0000005
  {
    var exact := ExactCost(PricingOf(model).value, inputTokens, outputTokens);
    var r := CalculateCost(model, inputTokens, outputTokens);
    assert Pow10(6) == 1000000;
    assert -0.5 <= (exact - r) * 1000000.0 <= 0.5;
  }

  /** A rounded non-negative number is non-negative. */
  lemma RoundToNonNegative(x: real, n: nat)
    requires x >= 0.0
    ensures RoundTo(x, n) >= 0.0
  {
    var p := Pow10(n) as real;
    var k := RoundHalfEven(x * p);
    assert x * p >= 0.0;
    assert k >= 0;
  }

  /** A rounded zero is zero. */
  lemma RoundToZero(n: nat)
    ensures RoundTo(0.0, n) == 0.0
  {
    var p := Pow10(n) as real;
    assert 0.0 * p == 0.0;
    assert RoundHalfEven(0.0) == 0;
  }

  /** A call that uses no tokens costs nothing, whatever the model. */
  lemma ZeroTokensFree(model: string)
    ensures CalculateCost(model, 0, 0) == 0.0
  {
    if PricingOf(model).Some? {
      assert ExactCost(PricingOf(model).value, 0, 0) == 0.0;
      RoundToZero(6);
    }
  }

  /** The Gemini model is on the free tier: every call costs nothing. */
  lemma GeminiIsFree(inputTokens: int, outputTokens: int)
    ensures CalculateCost(GEMINI_FLASH, inputTokens, outputTokens) == 0.0
  {
    assert ExactCost(Pricing(0.0, 0.0), inputTokens, outputTokens) == 0.0;
    RoundToZero(6);
  }

  /** No call is ever charged a negative price. */
  lemma CostNonNegative(model: string, inputTokens: nat, outputTokens: nat)
    ensures CalculateCost(model, inputTokens, outputTokens) >= 0.0
  {
    if PricingOf(model).Some? {
      var p := PricingOf(model).value;
      assert p.input >= 0.0 && p.output >= 0.0;
      assert inputTokens as real / 1000.0 * p.input >= 0.0;
      assert outputTokens as real / 1000.0 * p.output >= 0.0;
      RoundToNonNegative(ExactCost(p, inputTokens, outputTokens), 6);
    }
  }

  /** A metadata value: the tracking record mixes strings, counts and prices. */
  datatype Value = VStr(s: string) | VInt(i: int) | VReal(r: real) | VBool(b: bool)

  const TRACKED_KEYS: set<string> :=
    {"model", "input_tokens", "output_tokens", "total_tokens", "total_cost", "cost_currency"}

  /** The record computed for a call, before any caller-supplied entries. */
  function BaseMetadata(model: string, inputTokens: nat, outputTokens: nat): map<string, Value> {
    map["model" := VStr(model),
        "input_tokens" := VInt(inputTokens),
        "output_tokens" := VInt(outputTokens),
        "total_tokens" := VInt(inputTokens + outputTokens),
        "total_cost" := VReal(CalculateCost(model, inputTokens, outputTokens)),
        "cost_currency" := VStr("USD")]
  }

  /**
   * `track_llm_call`: both texts counted with the model's tokenizer, the
   * computed record, then `update` with the caller's entries (when there are
   * any), which win over the computed ones.
   */
  function TrackLlmCall(prompt: string, response: string, model: string,
                        additional: Option<map<string, Value>>,
                        tokenize: (string, string) -> Option<nat>): (m: map<string, Value>)
    ensures additional.None? ==> m.Keys == TRACKED_KEYS
    ensures additional.Some? ==> m.Keys == TRACKED_KEYS + additional.value.Keys
    ensures additional.Some? ==> forall k :: k in additional.value ==> m[k] == additional.value[k]
    ensures forall k :: k in TRACKED_KEYS && (additional.None? || k !in additional.value) ==>
              m[k] == BaseMetadata(model, CountTokens(prompt, model, tokenize), CountTokens(response, model, tokenize))[k]
  {
    var base := BaseMetadata(model, CountTokens(prompt, model, tokenize), CountTokens(response, model, tokenize));
    if additional.Some? && additional.value != map[] then base + additional.value else base
  }

  /**
   * Without caller entries the record holds exactly the six computed keys:
   * the two counts, their sum, and the price of those counts.
   */
  lemma TrackedTotals(prompt: string, response: string, model: string, additional: Option<map<string, Value>>,
                      tokenize: (string, string) -> Option<nat>)
    requires additional.None? || TRACKED_KEYS !! additional.value.Keys
    ensures var m := TrackLlmCall(prompt, response, model, additional, tokenize);
            var i := CountTokens(prompt, model, tokenize);
            var o := CountTokens(response, model, tokenize);
            && TRACKED_KEYS <= m.Keys
            && m["input_tokens"] == VInt(i) && m["output_tokens"] == VInt(o)
            && m["total_tokens"] == VInt(i + o)
            && m["total_cost"] == VReal(CalculateCost(model, i, o))
            && m["model"] == VStr(model) && m["cost_currency"] == VStr("USD")
  {
  }

  /** Caller entries override computed ones; computed keys the caller leaves alone keep their values. */
  lemma AdditionalMetadataWins(prompt: string, response: string, model: string, extra: map<string, Value>,
                               tokenize: (string, string) -> Option<nat>)
    ensures var m := TrackLlmCall(prompt, response, model, Some(extra), tokenize);
            var base := BaseMetadata(model, CountTokens(prompt, model, tokenize),
                                     CountTokens(response, model, tokenize));
            && m.Keys == TRACKED_KEYS + extra.Keys
            && (forall k :: k in extra ==> m[k] == extra[k])
            && (forall k :: k in TRACKED_KEYS && k !in extra ==> m[k] == base[k])
  {
  }

  /** `estimate_prompt_cost`: the prompt counted with the model's tokenizer, the response length given by the caller. */
  function EstimatePromptCost(prompt: string, model: string, expectedOutputTokens: int,
                              tokenize: (string, string) -> Option<nat>): (cost: real)
    ensures PricingOf(model).None? ==> cost == 0.0
    ensures expectedOutputTokens >= 0 ==> cost >= 0.0
    ensures prompt == [] ==> cost == CalculateCost(model, 0, expectedOutputTokens)
  {
    var inputTokens := CountTokens(prompt, model, tokenize);
    if expectedOutputTokens >= 0 then
      CostNonNegative(model, inputTokens, expectedOutputTokens);
      CalculateCost(model, inputTokens, expectedOutputTokens)
    else CalculateCost(model, inputTokens, expectedOutputTokens)
  }

  /** The estimate is the price of the real call whenever the response has the expected length. */
  lemma EstimateMatchesTrackedCall(prompt: string, response: string, model: string,
                                   tokenize: (string, string) -> Option<nat>)
    ensures var m := TrackLlmCall(prompt, response, model, None, tokenize);
            m["total_cost"]
              == VReal(EstimatePromptCost(prompt, model, CountTokens(response, model, tokenize), tokenize))
  {
  }

  /**
   * `format_cost`: a dollar sign and the cost with four decimals below one
   * cent, two otherwise. The digits after the sign, read without the point,
   * are the cost in units of the last decimal, within half a unit.
   */
  function FormatCost(cost: real): (s: string)
    ensures |s| >= 2 && s[0] == '$' && (s[1] == '-' <==> cost < 0.0)
    ensures ShowsRounded(s[if cost < 0.0 then 2 else 1..], if cost < 0.01 then 4 else 2, cost)
  {
    var d := if cost < 0.01 then 4 else 2;
    DollarText(FormatFixed(cost, d), cost, d);
    "$" + FormatFixed(cost, d)
  }

  lemma DollarText(f: string, cost: real, d: nat)
    requires |f| >= 1 && (f[0] == '-' <==> cost < 0.0)
    requires d > 0 && ShowsRounded(f[(if cost < 0.0 then 1 else 0)..], d, cost)
    ensures var s := "$" + f;
            |s| >= 2 && s[0] == '$' && (s[1] == '-' <==> cost < 0.0)
            && ShowsRounded(s[if cost < 0.0 then 2 else 1..], d, cost)
  {
    DropAfterPrefix("$", f, if cost < 0.0 then 1 else 0);
  }


}
