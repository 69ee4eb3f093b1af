/**
 * The portable (terminal) front end: the feedback line and colour chosen from
 * the composite average, the ten-cell progress bars, the scale lookup by name
 * and type, and the audio processor that fills a bounded sample buffer from
 * the input stream and scores it once it is full.
 *
 * The stream itself, the terminal rendering and the bulb's network protocol
 * are outside the model: input blocks, clock readings and the outcome of a
 * bulb send arrive as parameters.
 */
module PortableMain {
  import opened Wrappers
  import opened PyNum
  import opened PyText
  import Scales
  import opened AudioMetrics

  const SAMPLE_RATE: int := 44100
  const BLOCK_SIZE: int := 128
  const ANALYSIS_WINDOW_SEC: real := 0.30
  const PHRASE_WINDOW: real := 0.8

  /** `int(SAMPLE_RATE * ANALYSIS_WINDOW_SEC)`: the samples in one analysis window. */
  const BUFFER_SIZE: int := Trunc(SAMPLE_RATE as real * ANALYSIS_WINDOW_SEC)

  lemma BufferHoldsOneWindow()
    ensures BUFFER_SIZE == 13230
  {
    assert SAMPLE_RATE as real * ANALYSIS_WINDOW_SEC == 13230.0;
  }

  // ---------------------------------------------------------------------------
  // Feedback
  // ---------------------------------------------------------------------------

  /** The coloured circle shown before each feedback message. */
  datatype Marker = WhiteCircle | RedCircle | GreenCircle | YellowCircle | OrangeCircle

  datatype Feedback = Feedback(marker: Marker, message: string)

  const WAITING := Feedback(WhiteCircle, "Waiting for input...")
  const PLAY_A_NOTE := Feedback(WhiteCircle, "Play a note...")
  const WRONG_NOTE := Feedback(RedCircle, "Wrong note! Stay in scale")

  /** The in-scale messages from the lowest tier to the highest. */
  const IN_SCALE_TIERS: seq<Feedback> := [
    Feedback(OrangeCircle, "Slow down, focus on accuracy"),
    Feedback(YellowCircle, "Work on your timing"),
    Feedback(YellowCircle, "Getting there, stay focused"),
    Feedback(GreenCircle, "Good playing!"),
    Feedback(GreenCircle, "Excellent! Keep it up!")]

  /** The averages at which the in-scale message moves up a tier. */
  const FEEDBACK_THRESHOLDS: seq<real> := [0.40, 0.55, 0.70, 0.85]

  /** The colour names from the lowest tier to the highest, and where each tier starts. */
  const COLOR_TIERS: seq<string> := ["red", "orange1", "yellow", "green"]
  const COLOR_THRESHOLDS: seq<real> := [0.30, 0.50, 0.70]

  /** How many of the thresholds `x` reaches. */
  function TiersReached(thresholds: seq<real>, x: real): (n: nat)
    ensures n <= |thresholds|
  {
    if thresholds == [] then 0
    else (if thresholds[0] <= x then 1 else 0) + TiersReached(thresholds[1..], x)
  }

  /** Reaching a higher value never reaches fewer thresholds. */
  lemma {:induction false} TiersReachedMonotone(thresholds: seq<real>, x: real, y: real)
    requires x <= y
    ensures TiersReached(thresholds, x) <= TiersReached(thresholds, y)
  {
    if thresholds != [] {
      TiersReachedMonotone(thresholds[1..], x, y);
    }
  }

  /**
   * `get_feedback_message(state, result)` with `ema` the state's composite
   * average: no result, no note and a wrong note each have a fixed message;
   * an in-scale note gets a message picked by the average.
   */
  function FeedbackMessage(ema: real, result: Option<QualityResult>): (r: Feedback)
    ensures result.None? ==> r == WAITING
    ensures result.Some? && !result.value.noteDetected ==> r == PLAY_A_NOTE
    ensures result.Some? && result.value.noteDetected && !result.value.inScale ==> r == WRONG_NOTE
    ensures result.Some? && result.value.noteDetected && result.value.inScale ==> r in IN_SCALE_TIERS
  {
    if result.None? then WAITING
    else if !result.value.noteDetected then PLAY_A_NOTE
    else if !result.value.inScale then WRONG_NOTE
    else if ema >= 0.85 then IN_SCALE_TIERS[4]
    else if ema >= 0.70 then IN_SCALE_TIERS[3]
    else if ema >= 0.55 then IN_SCALE_TIERS[2]
    else if ema >= 0.40 then IN_SCALE_TIERS[1]
    else IN_SCALE_TIERS[0]
  }

  /** Outside the in-scale case the message does not depend on the average. */
  lemma FeedbackIgnoresAverageOffScale(ema1: real, ema2: real, result: Option<QualityResult>)
    requires result.None? || !result.value.noteDetected || !result.value.inScale
    ensures FeedbackMessage(ema1, result) == FeedbackMessage(ema2, result)
  {
  }

  /**
   * For an in-scale note the message is the tier given by how many of the
   * thresholds 0.40, 0.55, 0.70, 0.85 the average reaches, so a higher
   * average never gets a lower tier.
   */
  lemma {:induction false} FeedbackFollowsThresholds(ema: real, higher: real, result: QualityResult)
    requires result.noteDetected && result.inScale
    requires ema <= higher
    ensures FeedbackMessage(ema, Some(result)) == IN_SCALE_TIERS[TiersReached(FEEDBACK_THRESHOLDS, ema)]
    ensures TiersReached(FEEDBACK_THRESHOLDS, ema) <= TiersReached(FEEDBACK_THRESHOLDS, higher)
  {
    var t := FEEDBACK_THRESHOLDS;
    assert t[1..] == [0.55, 0.70, 0.85] && t[1..][1..] == [0.70, 0.85] && t[1..][1..][1..] == [0.85];
    assert TiersReached([0.85], ema) == if 0.85 <= ema then 1 else 0;
    assert TiersReached([0.70, 0.85], ema) == (if 0.70 <= ema then 1 else 0) + TiersReached([0.85], ema);
    assert TiersReached([0.55, 0.70, 0.85], ema)
        == (if 0.55 <= ema then 1 else 0) + TiersReached([0.70, 0.85], ema);
    assert TiersReached(t, ema) == (if 0.40 <= ema then 1 else 0) + TiersReached([0.55, 0.70, 0.85], ema);
    TiersReachedMonotone(t, ema, higher);
  }

  /** `get_feedback_color(ema)` */
  function FeedbackColor(ema: real): (c: string)
    ensures c in COLOR_TIERS
  {
    if ema >= 0.70 then "green"
    else if ema >= 0.50 then "yellow"
    else if ema >= 0.30 then "orange1"
    else "red"
  }

  /**
   * The colour is the tier given by how many of 0.30, 0.50, 0.70 the average
   * reaches; and a green circle before an in-scale message goes with a green
   * colour, and only with it.
   */
  lemma {:induction false} ColorFollowsThresholds(ema: real, result: QualityResult)
    ensures FeedbackColor(ema) == COLOR_TIERS[TiersReached(COLOR_THRESHOLDS, ema)]
    ensures result.noteDetected && result.inScale ==>
      (FeedbackMessage(ema, Some(result)).marker == GreenCircle <==> FeedbackColor(ema) == "green")
  {
    var t := COLOR_THRESHOLDS;
    assert t[1..] == [0.50, 0.70] && t[1..][1..] == [0.70];
    assert TiersReached([0.70], ema) == if 0.70 <= ema then 1 else 0;
    assert TiersReached([0.50, 0.70], ema) == (if 0.50 <= ema then 1 else 0) + TiersReached([0.70], ema);
    assert TiersReached(t, ema) == (if 0.30 <= ema then 1 else 0) + TiersReached([0.50, 0.70], ema);
  }

  // ---------------------------------------------------------------------------
  // Progress bars
  // ---------------------------------------------------------------------------

  const FULL_BLOCK: char := '\U{2588}'
  const LIGHT_SHADE: char := '\U{2591}'

  /** The bar in rich markup: the colour tag, the full cells, then the dimmed empty cells. */
  function ProgressBar(value: int, color: string): string {
    "[" + color + "]" + Repeat(FULL_BLOCK, value / 10) + "[/][dim]" + Repeat(LIGHT_SHADE, 10 - value / 10) + "[/]"
  }

  /**
   * `create_progress_line(label, value, color)`: the label padded to 18
   * columns, the bar, and the value right-aligned in 3 columns followed by a
   * percent sign.
   */
  function ProgressLine(caption: string, value: int, color: string): (line: string)
    ensures StartsWith(line, PadRight(caption, 18))
  {
    var head := PadRight(caption, 18);
    var line := head + (" [" + ProgressBar(value, color) + "] ") + (PadLeft(IntToString(value), 3, ' ') + "%");
    assert line[..|head|] == head;
    line
  }

  /**
   * The line ends in the value right-aligned in three columns and a percent
   * sign, and for a non-negative value the digits just before the sign read
   * back as the value.
   */
  lemma ProgressLineShowsValue(caption: string, value: int, color: string)
    ensures var line := ProgressLine(caption, value, color);
            var field := PadLeft(IntToString(value), 3, ' ');
            |line| > |field| && line[|line| - |field| - 1..] == field + "%"
    ensures 0 <= value ==>
              var line := ProgressLine(caption, value, color);
              var n := |NatToString(value)|;
              |line| > n && DigitsValue(line[|line| - 1 - n..|line| - 1]) == value
  {
    LineShape(ProgressLine(caption, value, color), PadRight(caption, 18), " [" + ProgressBar(value, color) + "] ", value);
  }

  /** A line that ends in the value's field and a percent sign, as `ProgressLine` promises. */
  lemma LineShape(line: string, head: string, middle: string, value: int)
    requires line == head + middle + (PadLeft(IntToString(value), 3, ' ') + "%")
    ensures StartsWith(line, head)
    ensures var field := PadLeft(IntToString(value), 3, ' ');
            |line| > |field| && line[|line| - |field| - 1..] == field + "%"
    ensures 0 <= value ==>
              var n := |NatToString(value)|;
              |line| > n && DigitsValue(line[|line| - 1 - n..|line| - 1]) == value
  {
    var field := PadLeft(IntToString(value), 3, ' ');
    ThreeParts(head, middle, field + "%");
    FieldDigits(value);
    ValueField(line, field + "%", value);
  }

  /** A line made of three parts starts with the first and ends with the last. */
  lemma ThreeParts(head: string, middle: string, tail: string)
    ensures var line := head + middle + tail;
            line[..|head|] == head && line[|line| - |tail|..] == tail
  {
    var line := head + middle + tail;
    assert line[..|head|] == head;
    assert line[|line| - |tail|..] == tail;
  }

  /** The characters just before the last one of a line are those of its suffix. */
  lemma SliceOfSuffix(line: string, suffix: string, n: nat)
    requires |suffix| <= |line| && line[|line| - |suffix|..] == suffix && n < |suffix|
    ensures line[|line| - 1 - n..|line| - 1] == suffix[|suffix| - 1 - n..|suffix| - 1]
  {
    var off := |line| - |suffix|;
    assert forall k :: |suffix| - 1 - n <= k < |suffix| - 1 ==> line[off + k] == suffix[k];
  }

  /** The digits just before the percent sign are the value's. */
  lemma ValueField(line: string, suffix: string, value: int)
    requires |suffix| <= |line| && line[|line| - |suffix|..] == suffix
    requires 0 <= value ==>
               var n := |NatToString(value)|;
               n < |suffix| && suffix[|suffix| - 1 - n..|suffix| - 1] == NatToString(value)
    ensures 0 <= value ==>
              var n := |NatToString(value)|;
              |line| > n && DigitsValue(line[|line| - 1 - n..|line| - 1]) == value
  {
    if 0 <= value {
      SliceOfSuffix(line, suffix, |NatToString(value)|);
      NatToStringValue(value);
    }
  }

  /** A right-aligned field followed by a percent sign ends in the value's digits. */
  lemma FieldDigits(value: int)
    ensures 0 <= value ==>
              var suffix := PadLeft(IntToString(value), 3, ' ') + "%";
              var n := |NatToString(value)|;
              n < |suffix| && suffix[|suffix| - 1 - n..|suffix| - 1] == NatToString(value)
  {
    if 0 <= value {
      var digits := NatToString(value);
      var field := PadLeft(digits, 3, ' ');
      var suffix := field + "%";
      assert IntToString(value) == digits;
      assert suffix[|suffix| - 1 - |digits|..|suffix| - 1] == field[|field| - |digits|..];
    }
  }

  /** How many times `c` occurs in `s`. */
  function Occurrences(s: string, c: char): nat {
    if s == [] then 0 else (if s[0] == c then 1 else 0) + Occurrences(s[1..], c)
  }

  lemma {:induction false} OccurrencesAppend(a: string, b: string, c: char)
    ensures Occurrences(a + b, c) == Occurrences(a, c) + Occurrences(b, c)
  {
    if a == [] {
      assert a + b == b;
    } else {
      assert (a + b)[1..] == a[1..] + b;
      OccurrencesAppend(a[1..], b, c);
    }
  }

  lemma {:induction false} OccurrencesAbsent(s: string, c: char)
    requires c !in s
    ensures Occurrences(s, c) == 0
  {
    if s != [] {
      OccurrencesAbsent(s[1..], c);
    }
  }

  lemma {:induction false} RepeatCount(c: char, d: char, n: int)
    ensures Occurrences(Repeat(c, n), d) == if c == d && n > 0 then n else 0
    decreases if n > 0 then n else 0
  {
    if n > 0 {
      RepeatCount(c, d, n - 1);
      assert Repeat(c, n)[1..] == Repeat(c, n - 1);
    }
  }

  /** Counting the cells of the bar: value // 10 full ones, the rest of the ten empty. */
  lemma {:induction false} BarCellCounts(value: int, color: string, c: char)
    requires 0 <= value <= 100
    requires c == FULL_BLOCK || c == LIGHT_SHADE
    requires c !in color
    ensures Occurrences(ProgressBar(value, color), c) == if c == FULL_BLOCK then value / 10 else 10 - value / 10
  {
    var full := Repeat(FULL_BLOCK, value / 10);
    var empty := Repeat(LIGHT_SHADE, 10 - value / 10);
    RepeatCount(FULL_BLOCK, c, value / 10);
    RepeatCount(LIGHT_SHADE, c, 10 - value / 10);
    var open := "[" + color + "]";
    assert c !in open;
    OnlyFillingCounts(open, full, "[/][dim]", empty, "[/]", c);
  }

  /** Markup without the character adds nothing to its count. */
  lemma {:induction false} OnlyFillingCounts(open: string, full: string, mid: string, empty: string, close: string,
                                              c: char)
    requires c !in open && c !in mid && c !in close
    ensures Occurrences(open + full + mid + empty + close, c) == Occurrences(full, c) + Occurrences(empty, c)
  {
    OccurrencesAbsent(open, c);
    OccurrencesAbsent(mid, c);
    OccurrencesAbsent(close, c);
    OccurrencesAppend(open, full, c);
    OccurrencesAppend(open + full, mid, c);
    OccurrencesAppend(open + full + mid, empty, c);
    OccurrencesAppend(open + full + mid + empty, close, c);
  }

  /** Only the bar contributes cells to a line whose other parts hold none. */
  lemma {:induction false} OnlyBarHasCells(head: string, bar: string, tail: string, c: char)
    requires c !in head && c !in tail && c != ' ' && c != '[' && c != ']' && c != '%'
    ensures Occurrences(head + (" [" + bar + "] ") + (tail + "%"), c) == Occurrences(bar, c)
  {
    OccurrencesAbsent(head, c);
    OccurrencesAbsent(" [", c);
    OccurrencesAbsent("] ", c);
    OccurrencesAbsent(tail, c);
    OccurrencesAbsent("%", c);
    OccurrencesAppend(" [", bar, c);
    OccurrencesAppend(" [" + bar, "] ", c);
    OccurrencesAppend(tail, "%", c);
    OccurrencesAppend(head, " [" + bar + "] ", c);
    OccurrencesAppend(head + (" [" + bar + "] "), tail + "%", c);
  }

  /**
   * For a percentage in 0..100 (and a label and colour without block
   * characters), the line holds value // 10 full cells and 10 - value // 10
   * empty ones: ten cells in all.
   */
  lemma {:induction false} ProgressLineHasTenCells(caption: string, value: int, color: string, c: char)
    requires 0 <= value <= 100
    requires c == FULL_BLOCK || c == LIGHT_SHADE
    requires c !in caption && c !in color
    ensures Occurrences(ProgressLine(caption, value, color), c) == if c == FULL_BLOCK then value / 10 else 10 - value / 10
  {
    var head := PadRight(caption, 18);
    var tail := PadLeft(IntToString(value), 3, ' ');
    assert c !in head;
    assert c !in tail;
    BarCellCounts(value, color, c);
    OnlyBarHasCells(head, ProgressBar(value, color), tail, c);
  }

  // ---------------------------------------------------------------------------
  // Scale lookup
  // ---------------------------------------------------------------------------

  const NATURAL_SUFFIX: string := " (Natural)"
  const PENTATONIC_SUFFIX: string := " (Pentatonic)"

  /** The name with the " (Natural)" and " (Pentatonic)" suffixes removed. */
  function CleanName(scaleName: string): string {
    ReplaceAll(ReplaceAll(scaleName, NATURAL_SUFFIX, ""), PENTATONIC_SUFFIX, "")
  }

  /** The table a scale type and a major/minor choice select: diatonic only for "natural". */
  function TableFor(scaleType: string, isMajor: bool): Scales.ScaleTable {
    if scaleType == "natural" then (if isMajor then Scales.MAJOR_DIATONIC else Scales.MINOR_DIATONIC)
    else (if isMajor then Scales.MAJOR_PENTATONIC else Scales.MINOR_PENTATONIC)
  }

  /**
   * `get_target_pitch_classes(scale_name, scale_type)`: the pitch classes of
   * the cleaned name in the table the type and the "Major" substring choose;
   * None where the source's dictionary lookup raises KeyError.
   */
  function TargetPitchClasses(scaleName: string, scaleType: string): (r: Option<set<int>>)
    ensures r.Some? ==> |r.value| == (if scaleType == "natural" then 7 else 5)
    ensures r.Some? ==> forall pc :: pc in r.value ==> 0 <= pc < 12
    ensures r.None? <==> CleanName(scaleName) !in TableFor(scaleType, Contains(CleanName(scaleName), "Major"))
  {
    Scales.ScaleTablesWellFormed();
    var clean := CleanName(scaleName);
    var table := TableFor(scaleType, Contains(clean, "Major"));
    if clean in table then Some(table[clean]) else None
  }

  /** A name without a parenthesis is left alone by the suffix removal. */
  lemma {:induction false} CleanPlainName(name: string)
    requires '(' !in name
    ensures CleanName(name) == name
  {
    MissingCharNotContained(name, NATURAL_SUFFIX, 1);
    MissingCharNotContained(name, PENTATONIC_SUFFIX, 1);
  }

  lemma NaturalNotInPentatonicSuffix()
    ensures !Contains(PENTATONIC_SUFFIX, NATURAL_SUFFIX)
  {
    assert NATURAL_SUFFIX[2] == 'N' && 'N' !in PENTATONIC_SUFFIX;
    MissingCharNotContained(PENTATONIC_SUFFIX, NATURAL_SUFFIX, 2);
  }

  /**
   * Either suffix after a plain scale name is dropped, so "<scale> (Natural)"
   * and "<scale> (Pentatonic)" look up the same set as "<scale>".
   */
  lemma {:induction false} SuffixIsIgnored(name: string, scaleType: string)
    requires '(' !in name
    ensures TargetPitchClasses(name + NATURAL_SUFFIX, scaleType) == TargetPitchClasses(name, scaleType)
    ensures TargetPitchClasses(name + PENTATONIC_SUFFIX, scaleType) == TargetPitchClasses(name, scaleType)
  {
    CleanPlainName(name);
    MissingCharNotContained(name, PENTATONIC_SUFFIX, 1);
    ReplaceAtEnd(name, NATURAL_SUFFIX, "");
    assert name + "" == name;
    assert ReplaceAll(name + NATURAL_SUFFIX, NATURAL_SUFFIX, "") == name;
    assert CleanName(name + NATURAL_SUFFIX) == name;
    if Contains(name + PENTATONIC_SUFFIX, NATURAL_SUFFIX) {
      ContainsInTail(name, PENTATONIC_SUFFIX, NATURAL_SUFFIX);
      NaturalNotInPentatonicSuffix();
    }
    ReplaceAtEnd(name, PENTATONIC_SUFFIX, "");
    assert CleanName(name + PENTATONIC_SUFFIX) == name;
  }

  /**
   * A scale of the tables looks up its diatonic set under "natural" and its
   * pentatonic set under any other type, from the major or the minor tables
   * as its name says.
   */
  lemma {:induction false} TargetPitchClassesOfScale(name: string, scaleType: string)
    ensures name in Scales.MAJOR_DIATONIC ==>
      TargetPitchClasses(name, scaleType)
        == Some(if scaleType == "natural" then Scales.MAJOR_DIATONIC[name] else Scales.MAJOR_PENTATONIC[name])
    ensures name in Scales.MINOR_DIATONIC ==>
      TargetPitchClasses(name, scaleType)
        == Some(if scaleType == "natural" then Scales.MINOR_DIATONIC[name] else Scales.MINOR_PENTATONIC[name])
  {
    Scales.NoParenInNames();
    Scales.QualityInName();
    Scales.ScaleTablesWellFormed();
    if name in Scales.MAJOR_DIATONIC || name in Scales.MINOR_DIATONIC {
      CleanPlainName(name);
    }
  }

  // ---------------------------------------------------------------------------
  // The capture buffer
  // ---------------------------------------------------------------------------

  /** An input block: a one-dimensional array, or frames of one sample per channel. */
  datatype InputBlock = Flat(samples: seq<real>) | Frames(rows: seq<seq<real>>)

  /** `indata.flatten()` of a two-dimensional block: the rows one after another. */
  function Flatten(rows: seq<seq<real>>): seq<real> {
    if rows == [] then [] else rows[0] + Flatten(rows[1..])
  }

  /** `indata[:, c]`: the c-th sample of every frame. */
  function Column(rows: seq<seq<real>>, c: nat): seq<real>
    requires forall i :: 0 <= i < |rows| ==> c < |rows[i]|
  {
    seq(|rows|, i requires 0 <= i < |rows| => rows[i][c])
  }

  /** The block can be read at the guitar channel wherever the source reads it. */
  predicate Readable(block: InputBlock, channels: int, guitarChannel: nat) {
    block.Frames? && channels != 1 ==>
      forall i :: 0 <= i < |block.rows| ==> guitarChannel < |block.rows[i]|
  }

  /** The mono/stereo choice of `audio_callback`: the whole block for one channel, else one column. */
  function GuitarSignal(block: InputBlock, channels: int, guitarChannel: nat): (signal: seq<real>)
    requires Readable(block, channels, guitarChannel)
    ensures block.Flat? ==> signal == block.samples
    ensures block.Frames? && channels == 1 ==> signal == Flatten(block.rows)
    ensures block.Frames? && channels != 1 ==>
              |signal| == |block.rows| && forall i :: 0 <= i < |signal| ==> signal[i] == block.rows[i][guitarChannel]
  {
    match block
    case Flat(samples) => samples
    case Frames(rows) => if channels == 1 then Flatten(rows) else Column(rows, guitarChannel)
  }

  /**
   * On a block of one-sample frames, flattening and taking column 0 agree, so
   * the mono path records the same samples the column path would.
   */
  lemma {:induction false} MonoFramesAreColumnZero(rows: seq<seq<real>>)
    requires forall i :: 0 <= i < |rows| ==> |rows[i]| == 1
    ensures Flatten(rows) == Column(rows, 0)
  {
    if rows != [] {
      MonoFramesAreColumnZero(rows[1..]);
      assert Column(rows, 0) == [rows[0][0]] + Column(rows[1..], 0);
      assert rows[0] == [rows[0][0]];
    }
  }

  /** The newest `cap` elements of `s` (all of them when there are fewer). */
  function Newest(s: seq<real>, cap: nat): (r: seq<real>)
    ensures |r| == if |s| <= cap then |s| else cap
    ensures r == s[|s| - |r|..]
  {
    if |s| <= cap then s else s[|s| - cap..]
  }

  /** `deque(buf, maxlen=cap).extend(xs)`: the newest `cap` samples of the two together. */
  function DequeExtend(buf: seq<real>, xs: seq<real>, cap: nat): (r: seq<real>)
    ensures |r| == if |buf| + |xs| <= cap then |buf| + |xs| else cap
    ensures r == (buf + xs)[|buf| + |xs| - |r|..]
    ensures |xs| >= cap ==> r == xs[|xs| - cap..]
  {
    Newest(buf + xs, cap)
  }

  /**
   * `append(x)` on a deque with `maxlen=cap`: the sample goes on the right,
   * and when the deque is already full the leftmost sample is discarded.
   */
  function Append(buf: seq<real>, x: real, cap: nat): seq<real>
    requires |buf| <= cap
  {
    if |buf| < cap then buf + [x] else if cap == 0 then [] else buf[1..] + [x]
  }

  /** Appending the samples one at a time, left to right. */
  function AppendEach(buf: seq<real>, xs: seq<real>, cap: nat): seq<real>
    requires |buf| <= cap
    decreases |xs|
  {
    if xs == [] then buf
    else
      var next := Append(buf, xs[0], cap);
      assert |next| <= cap;
      AppendEach(next, xs[1..], cap)
  }

  /** Dropping old samples first does not change which samples are newest later. */
  lemma NewestOfNewest(s: seq<real>, t: seq<real>, cap: nat)
    ensures Newest(Newest(s, cap) + t, cap) == Newest(s + t, cap)
  {
    var k := Newest(s, cap);
    assert k + t == (s + t)[|s| - |k|..];
  }

  /**
   * `extend` keeps the newest samples: appending the block one sample at a
   * time, with the deque's eviction, leaves exactly `DequeExtend`.
   */
  lemma {:induction false} ExtendIsAppendEach(buf: seq<real>, xs: seq<real>, cap: nat)
    requires |buf| <= cap
    ensures AppendEach(buf, xs, cap) == DequeExtend(buf, xs, cap)
    decreases |xs|
  {
    if xs == [] {
      assert buf + xs == buf;
    } else {
      var next := Append(buf, xs[0], cap);
      assert next == Newest(buf + [xs[0]], cap);
      ExtendIsAppendEach(next, xs[1..], cap);
      NewestOfNewest(buf + [xs[0]], xs[1..], cap);
      assert buf + [xs[0]] + xs[1..] == buf + xs;
    }
  }

  /** Extending by two blocks one after the other keeps what extending by both at once keeps. */
  lemma {:induction false} DequeExtendTwice(buf: seq<real>, xs: seq<real>, ys: seq<real>, cap: nat)
    ensures DequeExtend(DequeExtend(buf, xs, cap), ys, cap) == DequeExtend(buf, xs + ys, cap)
  {
    NewestOfNewest(buf + xs, ys, cap);
    assert buf + xs + ys == buf + (xs + ys);
  }

  /** The command sent to the bulb: a hue and a brightness. */
  datatype BulbCommand = BulbCommand(hue: int, brightness: int)

  /** `AudioProcessor`: the buffer it fills, the scoring state it drives and the bulb throttle. */
  class AudioProcessor {
    const channels: int
    const guitarChannel: nat
    const targetPitchClasses: set<int>
    const ambientLighting: bool
    const qualityConfig: QualityConfig
    const quality: QualityState
    const bulb: BulbState
    var buffer: seq<real>
    var latestResult: Option<QualityResult>

    predicate Valid()
      reads this
    {
      |buffer| <= BUFFER_SIZE
    }

    /** An empty buffer, a fresh scoring state started at `now`, and a bulb throttle that has sent nothing. */
    constructor(channels: int, guitarChannel: nat, targetPitchClasses: set<int>,
                strictness: real, sensitivity: real, ambientLighting: bool, now: real)
      ensures this.channels == channels && this.guitarChannel == guitarChannel
      ensures this.targetPitchClasses == targetPitchClasses && this.ambientLighting == ambientLighting
      ensures qualityConfig == QualityConfig(strictness, sensitivity, SAMPLE_RATE, PHRASE_WINDOW)
      ensures fresh(quality) && quality.Snapshot() == Quality(0.0, 0.0, 0.0, now, map[], [], None)
      ensures fresh(bulb) && bulb.lastSentHue == None && bulb.lastSendTime == 0.0
      ensures bulb.updateInterval == 0.30 && bulb.hueEpsilon == 5
      ensures buffer == [] && latestResult == None
      ensures Valid()
    {
      this.channels := channels;
      this.guitarChannel := guitarChannel;
      this.targetPitchClasses := targetPitchClasses;
      this.ambientLighting := ambientLighting;
      qualityConfig := QualityConfig(strictness, sensitivity, SAMPLE_RATE, PHRASE_WINDOW);
      quality := new QualityState(now);
      bulb := new BulbState();
      buffer := [];
      latestResult := None;
    }

    /**
     * `audio_callback`: the guitar signal of the block is appended sample by
     * sample, the oldest sample dropped whenever the buffer is full.
     */
    method AudioCallback(block: InputBlock)
      requires Valid()
      requires Readable(block, channels, guitarChannel)
      modifies this
      ensures buffer == DequeExtend(old(buffer), GuitarSignal(block, channels, guitarChannel), BUFFER_SIZE)
      ensures latestResult == old(latestResult)
      ensures Valid()
    {
      var guitar := GuitarSignal(block, channels, guitarChannel);
      buffer := DequeExtend(buffer, guitar, BUFFER_SIZE);
    }

    /**
     * `process_frame`: until the buffer holds a full window nothing is scored
     * and nothing changes. Otherwise the buffer's features (`extract`) go
     * through one scoring step, the result is kept, and, with lighting on and
     * the bulb enabled, a new colour is sent if the throttle allows it, and
     * the throttle records it: the send never reports a failure, since
     * `set_bulb_color` catches and prints every exception. `clockSec`/`now`
     * are the scorer's clock readings, `bulbNow` the throttle's, and `sentAt`
     * the one `mark_sent` takes.
     */
    method ProcessFrame(extract: seq<real> -> FrameFeatures,
                        timing: (seq<real>, int, real) -> TimingReading,
                        coverage: (map<PitchClass, nat>, set<int>) -> real,
                        clockSec: real, now: real, bulbEnabled: bool, bulbNow: real, sentAt: real)
      returns (r: Option<QualityResult>, attempted: Option<BulbCommand>)
      requires Valid()
      modifies this, quality, bulb
      ensures Valid() && buffer == old(buffer)
      ensures |buffer| < BUFFER_SIZE ==>
        r == None && quality.Snapshot() == old(quality.Snapshot()) && latestResult == old(latestResult)
      ensures |buffer| >= BUFFER_SIZE ==>
        FrameOutcome(quality.Snapshot(), r)
          == FrameStep(old(quality.Snapshot()), extract(buffer), targetPitchClasses, qualityConfig, None,
                       timing, coverage, clockSec, now)
        && latestResult == r
      ensures attempted.Some? <==>
        r.Some? && ambientLighting && bulbEnabled &&
        Throttle(old(bulb.lastSentHue), old(bulb.lastSendTime), bulb.updateInterval, bulb.hueEpsilon,
                 ScoreToHue(quality.emaQuality), bulbNow)
      ensures attempted.Some? ==>
        attempted.value == BulbCommand(ScoreToHue(quality.emaQuality), BulbBrightness(quality.emaQuality))
      ensures attempted.Some? ==>
        bulb.lastSentHue == Some(attempted.value.hue) && bulb.lastSendTime == sentAt
      ensures attempted.None? ==>
        bulb.lastSentHue == old(bulb.lastSentHue) && bulb.lastSendTime == old(bulb.lastSendTime)
      ensures bulb.updateInterval == old(bulb.updateInterval) && bulb.hueEpsilon == old(bulb.hueEpsilon)
    {
      attempted := None;
      if |buffer| < BUFFER_SIZE {
        return None, None;
      }
      r := quality.ProcessAudioFrame(extract(buffer), targetPitchClasses, qualityConfig, None,
                                     timing, coverage, clockSec, now);
      latestResult := r;
      if r.Some? && ambientLighting && bulbEnabled {
        var hue := ScoreToHue(quality.emaQuality);
        if bulb.ShouldUpdate(hue, bulbNow) {
          var brightness := BulbBrightness(quality.emaQuality);
          attempted := Some(BulbCommand(hue, brightness));
          bulb.MarkSent(hue, sentAt);
        }
      }
    }
  }
}
