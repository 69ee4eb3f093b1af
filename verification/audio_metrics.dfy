/**
 * The per-frame scoring state machine: the silence gate, the per-pitch-class
 * histogram, the onset rule, the wrong-note penalty, the phrase-debounced
 * composite average and the per-metric averages, together with the weighting
 * of the four scores and the throttle for the smart bulb.
 *
 * The feature extractor's output for a frame arrives as a `FrameFeatures`
 * record; the timing analyzer and the scale-coverage analyzer are passed in
 * as functions; every reading of the wall clock is a parameter.
 */
module AudioMetrics {
  import opened Wrappers
  import opened PyNum

  type PitchClass = pc: int | 0 <= pc < 12

  datatype QualityConfig = QualityConfig(strictness: real, sensitivity: real, sampleRate: int, phraseWindow: real)

  const DEFAULT_CONFIG := QualityConfig(0.5, 0.5, 44100, 0.8)

  /** The window and threshold handed to the timing analyzer on every frame. */
  const TIMING_WINDOW: int := 15
  const TIMING_CONSISTENCY_THRESHOLD: real := 0.15

  /** The smoothing factor of the per-metric averages. */
  const METRIC_ALPHA: real := 0.25

  const PITCH_ACCURACY: string := "pitch_accuracy"
  const SCALE_CONFORMITY: string := "scale_conformity"
  const TIMING_STABILITY: string := "timing_stability"

  /** What the feature extractor reports for one buffer. */
  datatype FrameFeatures = FrameFeatures(
    energy: real,                   // mean square of the buffer
    pitchScore: real,               // pitch_correctness score
    noteDetected: bool,
    inScale: bool,
    pitchClass: Option<PitchClass>,
    detectedHz: real,
    detectedMidi: real,
    stability: real,                // pitch_stability
    noise: real)                    // noise_control

  /** The timing analyzer's answer: a score and how many notes it used. */
  datatype TimingReading = TimingReading(score: real, notesForTiming: int)

  datatype QualityResult = QualityResult(
    pitchScore: real,
    stabilityScore: real,
    timingScore: real,
    noiseScore: real,
    qualityScore: real,
    scaleCoverage: real,
    noteDetected: bool,
    inScale: bool,
    pitchClass: Option<PitchClass>,
    detectedHz: real,
    detectedMidi: real,
    notesForTiming: int)

  /** `int(clip(score, 0, 1) * 120)`: red (0) for a poor score up to green (120). */
  function ScoreToHue(score: real): (hue: int)
    ensures 0 <= hue <= 120
    ensures score <= 0.0 ==> hue == 0
    ensures score >= 1.0 ==> hue == 120
  {
    Trunc(Clip(score, 0.0, 1.0) * 120.0)
  }

  /** A better score never gives a redder hue. */
  lemma ScoreToHueMonotone(a: real, b: real)
    requires a <= b
    ensures ScoreToHue(a) <= ScoreToHue(b)
  {
    var x := Clip(a, 0.0, 1.0) * 120.0;
    var y := Clip(b, 0.0, 1.0) * 120.0;
    assert x <= y;
    assert x.Floor <= y.Floor;
  }

  /** The mean-square energy below which a frame counts as silence. */
  function EnergyThreshold(sensitivity: real): (t: real)
    ensures 0.0 <= sensitivity <= 1.0 ==> 0.0000001 <= t <= 0.0000011
  {
    0.0000001 * (1.0 + sensitivity * 10.0)
  }

  /** The smoothing factor of the composite average, 0.10 to 0.40 as strictness goes 0 to 1. */
  function EmaAlpha(strictness: real): (a: real)
    ensures 0.0 <= strictness <= 1.0 ==> 0.10 <= a <= 0.40
  {
    0.10 + strictness * 0.30
  }

  /** `enabled_metrics.get(key, True)` */
  function IsEnabled(enabled: map<string, bool>, key: string): bool {
    if key in enabled then enabled[key] else true
  }

  /**
   * `calculate_weighted_quality`: noise always counts; with pitch enabled it
   * weighs 0.40 + 0.15 * strictness and the other enabled scores share the
   * rest equally; with pitch disabled the enabled scores share equally.
   */
  function WeightedQuality(pitch: real, scale: real, timing: real, noise: real, strictness: real,
                           enabled: map<string, bool>): (r: real)
    ensures (!IsEnabled(enabled, PITCH_ACCURACY) && !IsEnabled(enabled, SCALE_CONFORMITY)
             && !IsEnabled(enabled, TIMING_STABILITY)) ==> r == noise
    ensures pitch == scale == timing == noise ==> r == noise
  {
    var pitchOn := IsEnabled(enabled, PITCH_ACCURACY);
    var scaleOn := IsEnabled(enabled, SCALE_CONFORMITY);
    var timingOn := IsEnabled(enabled, TIMING_STABILITY);
    var count := 1 + (if pitchOn then 1 else 0) + (if scaleOn then 1 else 0) + (if timingOn then 1 else 0);
    if pitchOn then
      var pitchWeight := 0.40 + strictness * 0.15;
      var otherWeight := (1.0 - pitchWeight) / (count - 1) as real;
      pitchWeight * pitch
      + (if scaleOn then otherWeight * scale else 0.0)
      + (if timingOn then otherWeight * timing else 0.0)
      + otherWeight * noise
    else
      var equalWeight := 1.0 / count as real;
      (if scaleOn then equalWeight * scale else 0.0)
      + (if timingOn then equalWeight * timing else 0.0)
      + equalWeight * noise
  }

  /** The weight each score receives; a disabled score weighs 0. */
  datatype Weights = Weights(pitch: real, scale: real, timing: real, noise: real)

  /** The sum of the four scores, each times its weight. */
  function Combine(w: Weights, pitch: real, scale: real, timing: real, noise: real): real {
    w.pitch * pitch + w.scale * scale + w.timing * timing + w.noise * noise
  }

  /** The weights the two branches of the weighting hand out, written as one record. */
  function WeightsFor(strictness: real, enabled: map<string, bool>): (w: Weights)
    ensures !IsEnabled(enabled, PITCH_ACCURACY) ==> w.pitch == 0.0
    ensures !IsEnabled(enabled, SCALE_CONFORMITY) ==> w.scale == 0.0
    ensures !IsEnabled(enabled, TIMING_STABILITY) ==> w.timing == 0.0
    ensures IsEnabled(enabled, PITCH_ACCURACY) ==> w.pitch == 0.40 + strictness * 0.15
  {
    var pitchOn := IsEnabled(enabled, PITCH_ACCURACY);
    var scaleOn := IsEnabled(enabled, SCALE_CONFORMITY);
    var timingOn := IsEnabled(enabled, TIMING_STABILITY);
    var others := (if scaleOn then 1 else 0) + (if timingOn then 1 else 0) + 1;
    if pitchOn then
      var share := (1.0 - (0.40 + strictness * 0.15)) / others as real;
      Weights(0.40 + strictness * 0.15, if scaleOn then share else 0.0, if timingOn then share else 0.0, share)
    else
      var share := 1.0 / others as real;
      Weights(0.0, if scaleOn then share else 0.0, if timingOn then share else 0.0, share)
  }

  /** k equal shares of `rest` make `rest`. */
  lemma SharesMakeWhole(rest: real, k: int)
    requires k >= 1
    ensures (rest / k as real) * k as real == rest
  {
  }

  /** In every combination of enabled flags the weights sum to 1. */
  lemma {:induction false} WeightsSumToOne(strictness: real, enabled: map<string, bool>)
    ensures var w := WeightsFor(strictness, enabled);
      w.pitch + w.scale + w.timing + w.noise == 1.0
  {
    var pitchOn := IsEnabled(enabled, PITCH_ACCURACY);
    var scaleOn := IsEnabled(enabled, SCALE_CONFORMITY);
    var timingOn := IsEnabled(enabled, TIMING_STABILITY);
    var others := (if scaleOn then 1 else 0) + (if timingOn then 1 else 0) + 1;
    var rest := if pitchOn then 1.0 - (0.40 + strictness * 0.15) else 1.0;
    SharesMakeWhole(rest, others);
  }

  /**
   * The quality is the weighted sum of the four scores; with strictness in
   * [0, 1] no weight is negative and noise always weighs something.
   */
  lemma {:induction false} WeightedQualityIsWeightedSum(pitch: real, scale: real, timing: real, noise: real,
                                                        strictness: real, enabled: map<string, bool>)
    ensures var w := WeightsFor(strictness, enabled);
      WeightedQuality(pitch, scale, timing, noise, strictness, enabled) == Combine(w, pitch, scale, timing, noise)
    ensures 0.0 <= strictness <= 1.0 ==>
      var w := WeightsFor(strictness, enabled);
      0.0 <= w.pitch && 0.0 <= w.scale && 0.0 <= w.timing && 0.0 < w.noise
  {
    var pitchOn := IsEnabled(enabled, PITCH_ACCURACY);
    var scaleOn := IsEnabled(enabled, SCALE_CONFORMITY);
    var timingOn := IsEnabled(enabled, TIMING_STABILITY);
    var others := (if scaleOn then 1 else 0) + (if timingOn then 1 else 0) + 1;
    var count := 1 + (if pitchOn then 1 else 0) + (if scaleOn then 1 else 0) + (if timingOn then 1 else 0);
    if pitchOn {
      assert count - 1 == others;
    } else {
      assert count == others;
    }
  }

  /** A convex combination of four values in [0, 1] lies in [0, 1]. */
  lemma ConvexSumWithin(w: Weights, pitch: real, scale: real, timing: real, noise: real)
    requires 0.0 <= w.pitch && 0.0 <= w.scale && 0.0 <= w.timing && 0.0 <= w.noise
    requires w.pitch + w.scale + w.timing + w.noise == 1.0
    requires 0.0 <= pitch <= 1.0 && 0.0 <= scale <= 1.0 && 0.0 <= timing <= 1.0 && 0.0 <= noise <= 1.0
    ensures 0.0 <= Combine(w, pitch, scale, timing, noise) <= 1.0
  {
    ScaledWithin(w.pitch, pitch, w.pitch * pitch);
    ScaledWithin(w.scale, scale, w.scale * scale);
    ScaledWithin(w.timing, timing, w.timing * timing);
    ScaledWithin(w.noise, noise, w.noise * noise);
  }

  /** With every score and the strictness in [0, 1], so is the weighted quality. */
  lemma {:induction false} WeightedQualityInUnitRange(pitch: real, scale: real, timing: real, noise: real,
                                                      strictness: real, enabled: map<string, bool>)
    requires 0.0 <= pitch <= 1.0 && 0.0 <= scale <= 1.0 && 0.0 <= timing <= 1.0 && 0.0 <= noise <= 1.0
    requires 0.0 <= strictness <= 1.0
    ensures 0.0 <= WeightedQuality(pitch, scale, timing, noise, strictness, enabled) <= 1.0
  {
    WeightsSumToOne(strictness, enabled);
    WeightedQualityIsWeightedSum(pitch, scale, timing, noise, strictness, enabled);
    ConvexSumWithin(WeightsFor(strictness, enabled), pitch, scale, timing, noise);
  }

  /** `int(300 + 700 * ema_quality)`: the bulb brightness. */
  function BulbBrightness(emaQuality: real): (b: int)
    ensures 0.0 <= emaQuality <= 1.0 ==> 300 <= b <= 1000
  {
    Trunc(300.0 + 700.0 * emaQuality)
  }

  /** A higher average never dims the bulb. */
  lemma BulbBrightnessMonotone(a: real, b: real)
    requires 0.0 <= a <= b
    ensures BulbBrightness(a) <= BulbBrightness(b)
  {
    assert (300.0 + 700.0 * a).Floor <= (300.0 + 700.0 * b).Floor;
  }

  // ---------------------------------------------------------------------------
  // The note histogram
  // ---------------------------------------------------------------------------

  /** `note_counts.get(pc, 0)` */
  function CountOf(counts: map<PitchClass, nat>, pc: PitchClass): nat {
    if pc in counts then counts[pc] else 0
  }

  /**
   * The sum of the counts of the pitch classes from `from` to 11 that are
   * inside `targets` (when `inside`) or outside it (when not); `everything`
   * takes all of them.
   */
  function CountsFrom(counts: map<PitchClass, nat>, from: int, targets: set<int>, select: Selector): nat
    requires 0 <= from <= 12
    decreases 12 - from
  {
    if from == 12 then 0
    else
      (if Selects(select, targets, from) then CountOf(counts, from) else 0)
      + CountsFrom(counts, from + 1, targets, select)
  }

  datatype Selector = Everything | Inside | Outside

  predicate Selects(select: Selector, targets: set<int>, pc: int) {
    match select
    case Everything => true
    case Inside => pc in targets
    case Outside => pc !in targets
  }

  /** Every pitch class is either in the target set or not, so the two partial counts make the total. */
  lemma {:induction false} InsideAndOutsideMakeTotal(counts: map<PitchClass, nat>, from: int, targets: set<int>)
    requires 0 <= from <= 12
    ensures CountsFrom(counts, from, targets, Inside) + CountsFrom(counts, from, targets, Outside)
         == CountsFrom(counts, from, targets, Everything)
    decreases 12 - from
  {
    if from < 12 {
      InsideAndOutsideMakeTotal(counts, from + 1, targets);
    }
  }

  /** Counting everything does not depend on the target set. */
  lemma {:induction false} EverythingIgnoresTargets(counts: map<PitchClass, nat>, from: int, a: set<int>, b: set<int>)
    requires 0 <= from <= 12
    ensures CountsFrom(counts, from, a, Everything) == CountsFrom(counts, from, b, Everything)
    decreases 12 - from
  {
    if from < 12 {
      EverythingIgnoresTargets(counts, from + 1, a, b);
    }
  }

  /**
   * Counting one more note of class `pc` adds one to the count of every
   * selection that takes `pc` and leaves the others as they were.
   */
  lemma {:induction false} CountOneMore(counts: map<PitchClass, nat>, pc: PitchClass, from: int, targets: set<int>,
                                        select: Selector)
    requires 0 <= from <= 12
    ensures CountsFrom(counts[pc := CountOf(counts, pc) + 1], from, targets, select)
         == CountsFrom(counts, from, targets, select) + (if from <= pc && Selects(select, targets, pc) then 1 else 0)
    decreases 12 - from
  {
    if from < 12 {
      CountOneMore(counts, pc, from + 1, targets, select);
    }
  }

  // ---------------------------------------------------------------------------
  // The scoring state and one frame of it
  // ---------------------------------------------------------------------------

  /** The value of every field of a `QualityState`. */
  datatype Quality = Quality(
    emaQuality: real,
    emaPitch: real,
    emaTiming: real,
    lastPhraseTime: real,
    noteCounts: map<PitchClass, nat>,
    noteOnsetTimesMs: seq<real>,
    lastPitchClass: Option<PitchClass>)

  /** Onset times never go backwards. */
  predicate Ordered(onsets: seq<real>) {
    forall i, j :: 0 <= i < j < |onsets| ==> onsets[i] <= onsets[j]
  }

  /** The state and the result after one frame. */
  datatype FrameOutcome = FrameOutcome(state: Quality, result: Option<QualityResult>)

  /** `score * alpha + (1 - alpha) * previous` */
  function Ema(alpha: real, score: real, previous: real): real {
    alpha * score + (1.0 - alpha) * previous
  }

  /** The flags used when the caller passes none: all three optional scores on. */
  const ALL_ENABLED: map<string, bool> := map[PITCH_ACCURACY := true, SCALE_CONFORMITY := true, TIMING_STABILITY := true]

  /**
   * The note-tracking part of a frame: a detected note is counted in the
   * histogram and, when its class differs from the last one, stamped as an
   * onset at `onsetMs` and remembered; a frame without one forgets the last
   * class.
   */
  function TrackNote(q: Quality, f: FrameFeatures, onsetMs: real): (r: Quality)
    ensures |q.noteOnsetTimesMs| <= |r.noteOnsetTimesMs| <= |q.noteOnsetTimesMs| + 1
    ensures r.noteOnsetTimesMs[..|q.noteOnsetTimesMs|] == q.noteOnsetTimesMs
    ensures r.emaQuality == q.emaQuality && r.emaPitch == q.emaPitch && r.emaTiming == q.emaTiming
    ensures r.lastPhraseTime == q.lastPhraseTime
  {
    if f.noteDetected && f.pitchClass.Some? then
      var pc := f.pitchClass.value;
      var counts := q.noteCounts[pc := CountOf(q.noteCounts, pc) + 1];
      if f.pitchClass != q.lastPitchClass then
        q.(noteCounts := counts, noteOnsetTimesMs := q.noteOnsetTimesMs + [onsetMs], lastPitchClass := f.pitchClass)
      else q.(noteCounts := counts)
    else q.(lastPitchClass := None)
  }

  /** The quality a frame reports: scaled by 1 - strictness on a wrong note unless strictness exceeds 0.7. */
  function ReportedQuality(pitchScore: real, quality: real, strictness: real): (r: real)
    ensures pitchScore != 0.0 || strictness > 0.7 ==> r == quality
    ensures 0.0 <= quality && 0.0 <= strictness <= 1.0 ==> 0.0 <= r <= quality
  {
    if pitchScore == 0.0 && strictness <= 0.7 then quality * (1.0 - strictness) else quality
  }

  /**
   * The composite-average part of a frame: a wrong note under strictness
   * above 0.7 zeroes the average and restarts the phrase; otherwise the
   * average takes the reported quality in once the phrase window has passed.
   */
  function UpdateComposite(q: Quality, pitchScore: real, reported: real, config: QualityConfig, now: real): (r: Quality)
    ensures r.(emaQuality := q.emaQuality, lastPhraseTime := q.lastPhraseTime) == q
    ensures r.lastPhraseTime == q.lastPhraseTime || r.lastPhraseTime == now
    ensures r.emaQuality != q.emaQuality ==> r.lastPhraseTime == now
  {
    if pitchScore == 0.0 && config.strictness > 0.7 then q.(emaQuality := 0.0, lastPhraseTime := now)
    else if now - q.lastPhraseTime > config.phraseWindow then
      q.(emaQuality := Ema(EmaAlpha(config.strictness), reported, q.emaQuality), lastPhraseTime := now)
    else q
  }

  /**
   * What `process_audio_frame` does to the state and what it returns, for a
   * frame with the given features; `enabled` is None when the caller passes no
   * flags; `clockSec` is the clock reading taken for the onset timestamp and
   * `now` the one taken for the phrase window.
   */
  function FrameStep(q: Quality, f: FrameFeatures, targets: set<int>, config: QualityConfig,
                     enabled: Option<map<string, bool>>,
                     timing: (seq<real>, int, real) -> TimingReading,
                     coverage: (map<PitchClass, nat>, set<int>) -> real,
                     clockSec: real, now: real): (out: FrameOutcome)
    ensures out.result.None? <==> f.energy < EnergyThreshold(config.sensitivity)
    ensures out.result.None? ==> out.state == q
    ensures out.result.Some? ==> out.result.value.pitchScore == f.pitchScore && out.result.value.noteDetected == f.noteDetected
  {
    if f.energy < EnergyThreshold(config.sensitivity) then FrameOutcome(q, None)
    else
      var tracked := TrackNote(q, f, clockSec * 1000.0);
      var t := timing(tracked.noteOnsetTimesMs, TIMING_WINDOW, TIMING_CONSISTENCY_THRESHOLD);
      var cov := coverage(tracked.noteCounts, targets);
      var quality := WeightedQuality(f.pitchScore, f.stability, t.score, f.noise, config.strictness,
                                     enabled.GetOr(ALL_ENABLED));
      var reported := ReportedQuality(f.pitchScore, quality, config.strictness);
      var averaged := UpdateComposite(tracked, f.pitchScore, reported, config, now);
      var next := averaged.(emaPitch := Ema(METRIC_ALPHA, f.pitchScore, averaged.emaPitch),
                            emaTiming := Ema(METRIC_ALPHA, t.score, averaged.emaTiming));
      FrameOutcome(next, Some(QualityResult(f.pitchScore, f.stability, t.score, f.noise, reported, cov,
                                            f.noteDetected, f.inScale, f.pitchClass, f.detectedHz,
                                            f.detectedMidi, t.notesForTiming)))
  }

  /**
   * The scoring state of one session. `process_audio_frame` updates it in
   * place once per frame.
   */
  class QualityState {
    var emaQuality: real
    var emaPitch: real
    var emaTiming: real
    var lastPhraseTime: real
    var noteCounts: map<PitchClass, nat>
    var noteOnsetTimesMs: seq<real>
    var lastPitchClass: Option<PitchClass>

    function Snapshot(): Quality
      reads this
    {
      Quality(emaQuality, emaPitch, emaTiming, lastPhraseTime, noteCounts, noteOnsetTimesMs, lastPitchClass)
    }

    /** A fresh state; `now` is the clock reading that stamps the start of the first phrase. */
    constructor(now: real)
      ensures Snapshot() == Quality(0.0, 0.0, 0.0, now, map[], [], None)
    {
      emaQuality := 0.0;
      emaPitch := 0.0;
      emaTiming := 0.0;
      lastPhraseTime := now;
      noteCounts := map[];
      noteOnsetTimesMs := [];
      lastPitchClass := None;
    }

    /** Start a new session: averages to 0, histogram and onsets emptied, no last pitch. */
    method Reset(now: real)
      modifies this
      ensures Snapshot() == Quality(0.0, 0.0, 0.0, now, map[], [], None)
    {
      emaQuality := 0.0;
      emaPitch := 0.0;
      emaTiming := 0.0;
      lastPhraseTime := now;
      noteCounts := map[];
      noteOnsetTimesMs := [];
      lastPitchClass := None;
    }

    /** `total_notes`: every note counted in the histogram. */
    function TotalNotes(): nat
      reads this
    {
      CountsFrom(noteCounts, 0, {}, Everything)
    }

    /** `notes_in_scale(targets)` */
    function NotesInScale(targets: set<int>): nat
      reads this
    {
      CountsFrom(noteCounts, 0, targets, Inside)
    }

    /** `notes_out_of_scale(targets)` */
    function NotesOutOfScale(targets: set<int>): nat
      reads this
    {
      CountsFrom(noteCounts, 0, targets, Outside)
    }

    /**
     * `process_audio_frame`: a silent frame returns None and changes nothing;
     * any other frame updates the state and returns the frame's scores, as
     * `FrameStep` describes.
     */
    method ProcessAudioFrame(f: FrameFeatures, targets: set<int>, config: QualityConfig,
                             enabled: Option<map<string, bool>>,
                             timing: (seq<real>, int, real) -> TimingReading,
                             coverage: (map<PitchClass, nat>, set<int>) -> real,
                             clockSec: real, now: real) returns (r: Option<QualityResult>)
      modifies this
      ensures FrameOutcome(Snapshot(), r)
           == FrameStep(old(Snapshot()), f, targets, config, enabled, timing, coverage, clockSec, now)
    {
      if f.energy < EnergyThreshold(config.sensitivity) {
        return None;
      }
      TrackNoteInPlace(f, clockSec * 1000.0);
      var t := timing(noteOnsetTimesMs, TIMING_WINDOW, TIMING_CONSISTENCY_THRESHOLD);
      var cov := coverage(noteCounts, targets);
      var flags := enabled.GetOr(ALL_ENABLED);
      var quality := WeightedQuality(f.pitchScore, f.stability, t.score, f.noise, config.strictness, flags);
      quality := UpdateCompositeInPlace(f.pitchScore, quality, config, now);
      emaPitch := METRIC_ALPHA * f.pitchScore + (1.0 - METRIC_ALPHA) * emaPitch;
      emaTiming := METRIC_ALPHA * t.score + (1.0 - METRIC_ALPHA) * emaTiming;
      r := Some(QualityResult(f.pitchScore, f.stability, t.score, f.noise, quality, cov,
                              f.noteDetected, f.inScale, f.pitchClass, f.detectedHz,
                              f.detectedMidi, t.notesForTiming));
    }

    /** The note-tracking lines of `process_audio_frame`. */
    method TrackNoteInPlace(f: FrameFeatures, currentTimeMs: real)
      modifies this
      ensures Snapshot() == TrackNote(old(Snapshot()), f, currentTimeMs)
    {
      if f.noteDetected && f.pitchClass.Some? {
        var pc := f.pitchClass.value;
        noteCounts := noteCounts[pc := CountOf(noteCounts, pc) + 1];
        if f.pitchClass != lastPitchClass {
          noteOnsetTimesMs := noteOnsetTimesMs + [currentTimeMs];
          lastPitchClass := f.pitchClass;
        }
      } else {
        if lastPitchClass.Some? {
          lastPitchClass := None;
        }
      }
    }

    /**
     * The penalty and composite-average lines of `process_audio_frame`;
     * returns the quality the frame reports.
     */
    method UpdateCompositeInPlace(pitchScore: real, quality: real, config: QualityConfig, now: real)
      returns (reported: real)
      modifies this
      ensures reported == ReportedQuality(pitchScore, quality, config.strictness)
      ensures Snapshot() == UpdateComposite(old(Snapshot()), pitchScore, reported, config, now)
    {
      reported := quality;
      var alpha := EmaAlpha(config.strictness);
      if pitchScore == 0.0 {
        if config.strictness > 0.7 {
          emaQuality := 0.0;
          lastPhraseTime := now;
        } else {
          reported := reported * (1.0 - config.strictness);
          if now - lastPhraseTime > config.phraseWindow {
            emaQuality := alpha * reported + (1.0 - alpha) * emaQuality;
            lastPhraseTime := now;
          }
        }
      } else {
        if now - lastPhraseTime > config.phraseWindow {
          emaQuality := alpha * reported + (1.0 - alpha) * emaQuality;
          lastPhraseTime := now;
        }
      }
    }
  }

  /** Notes in the scale and notes outside it add up to all notes played, for every target set. */
  lemma {:induction false} NotesInAndOutMakeTotal(state: QualityState, targets: set<int>)
    ensures state.NotesInScale(targets) + state.NotesOutOfScale(targets) == state.TotalNotes()
  {
    InsideAndOutsideMakeTotal(state.noteCounts, 0, targets);
    EverythingIgnoresTargets(state.noteCounts, 0, targets, {});
  }

  // ---------------------------------------------------------------------------
  // What one frame does, stated one rule at a time
  // ---------------------------------------------------------------------------

  /** A frame quieter than the threshold returns None and leaves every field as it was. */
  lemma SilentFrameChangesNothing(q: Quality, f: FrameFeatures, targets: set<int>, config: QualityConfig,
      enabled: Option<map<string, bool>>,
      timing: (seq<real>, int, real) -> TimingReading,
      coverage: (map<PitchClass, nat>, set<int>) -> real,
      clockSec: real, now: real)
    requires f.energy < EnergyThreshold(config.sensitivity)
    ensures FrameStep(q, f, targets, config, enabled, timing, coverage, clockSec, now) == FrameOutcome(q, None)
  {
  }

  /**
   * A loud enough frame always yields a result; its histogram, onsets and
   * last pitch class are those the note tracking leaves.
   */
  lemma LoudFrameTracksNote(q: Quality, f: FrameFeatures, targets: set<int>, config: QualityConfig,
      enabled: Option<map<string, bool>>,
      timing: (seq<real>, int, real) -> TimingReading,
      coverage: (map<PitchClass, nat>, set<int>) -> real,
      clockSec: real, now: real)
    requires f.energy >= EnergyThreshold(config.sensitivity)
    ensures var out := FrameStep(q, f, targets, config, enabled, timing, coverage, clockSec, now);
      var tracked := TrackNote(q, f, clockSec * 1000.0);
      out.result.Some? &&
      out.state.noteCounts == tracked.noteCounts &&
      out.state.noteOnsetTimesMs == tracked.noteOnsetTimesMs &&
      out.state.lastPitchClass == tracked.lastPitchClass
  {
  }

  /**
   * A detected note of class pc adds exactly one to that class; any other
   * frame leaves the histogram alone.
   */
  lemma HistogramRule(q: Quality, f: FrameFeatures, onsetMs: real)
    ensures f.noteDetected && f.pitchClass.Some? ==>
      TrackNote(q, f, onsetMs).noteCounts == q.noteCounts[f.pitchClass.value := CountOf(q.noteCounts, f.pitchClass.value) + 1]
    ensures !(f.noteDetected && f.pitchClass.Some?) ==> TrackNote(q, f, onsetMs).noteCounts == q.noteCounts
  {
  }

  /**
   * One more note of class pc adds one to the total and one to the in-scale
   * count exactly when pc is in the scale; in-scale and out-of-scale counts
   * always add up to the total.
   */
  lemma {:induction false} OneMoreNote(counts: map<PitchClass, nat>, pc: PitchClass, targets: set<int>)
    ensures var more := counts[pc := CountOf(counts, pc) + 1];
      CountsFrom(more, 0, targets, Everything) == CountsFrom(counts, 0, targets, Everything) + 1 &&
      CountsFrom(more, 0, targets, Inside) == CountsFrom(counts, 0, targets, Inside) + (if pc in targets then 1 else 0) &&
      CountsFrom(more, 0, targets, Outside) == CountsFrom(counts, 0, targets, Outside) + (if pc in targets then 0 else 1)
  {
    CountOneMore(counts, pc, 0, targets, Everything);
    CountOneMore(counts, pc, 0, targets, Inside);
    CountOneMore(counts, pc, 0, targets, Outside);
  }

  /**
   * The onset rule: an onset stamped `onsetMs` is appended exactly when a
   * note is detected whose class differs from the last one; otherwise the
   * onsets stay. A frame without a detected note forgets the last class; a
   * detected note becomes the last class.
   */
  lemma OnsetRule(q: Quality, f: FrameFeatures, onsetMs: real)
    ensures var next := TrackNote(q, f, onsetMs);
      (f.noteDetected && f.pitchClass.Some? && f.pitchClass != q.lastPitchClass ==>
        next.noteOnsetTimesMs == q.noteOnsetTimesMs + [onsetMs]) &&
      (!(f.noteDetected && f.pitchClass.Some? && f.pitchClass != q.lastPitchClass) ==>
        next.noteOnsetTimesMs == q.noteOnsetTimesMs) &&
      (f.noteDetected && f.pitchClass.Some? ==> next.lastPitchClass == f.pitchClass) &&
      (!(f.noteDetected && f.pitchClass.Some?) ==> next.lastPitchClass == None)
  {
  }

  /**
   * A note held over several frames is one onset, but the same note played
   * again after a frame without a detected note is a second one: the quiet
   * frame re-arms the onset.
   */
  lemma {:induction false} SameNoteAfterSilenceIsNewOnset(q: Quality, quiet: FrameFeatures, note: FrameFeatures,
                                                          ms1: real, ms2: real)
    requires !quiet.noteDetected
    requires note.noteDetected && note.pitchClass.Some? && q.lastPitchClass == note.pitchClass
    ensures TrackNote(q, note, ms1).noteOnsetTimesMs == q.noteOnsetTimesMs
    ensures TrackNote(TrackNote(q, quiet, ms1), note, ms2).noteOnsetTimesMs == q.noteOnsetTimesMs + [ms2]
  {
    OnsetRule(q, note, ms1);
    OnsetRule(q, quiet, ms1);
    OnsetRule(TrackNote(q, quiet, ms1), note, ms2);
  }

  /**
   * A loud frame's composite average and phrase start are those of the
   * composite update, and the per-metric averages take the frame's pitch and
   * timing scores in with factor 0.25.
   */
  lemma LoudFrameAverages(q: Quality, f: FrameFeatures, targets: set<int>, config: QualityConfig,
      enabled: Option<map<string, bool>>,
      timing: (seq<real>, int, real) -> TimingReading,
      coverage: (map<PitchClass, nat>, set<int>) -> real,
      clockSec: real, now: real)
    requires f.energy >= EnergyThreshold(config.sensitivity)
    ensures var out := FrameStep(q, f, targets, config, enabled, timing, coverage, clockSec, now);
      var r := out.result.value;
      var tracked := TrackNote(q, f, clockSec * 1000.0);
      var quality := WeightedQuality(f.pitchScore, f.stability, r.timingScore, f.noise, config.strictness,
                                     enabled.GetOr(ALL_ENABLED));
      var composite := UpdateComposite(tracked, f.pitchScore, r.qualityScore, config, now);
      out.result.Some? &&
      r.qualityScore == ReportedQuality(f.pitchScore, quality, config.strictness) &&
      out.state.emaQuality == composite.emaQuality &&
      out.state.lastPhraseTime == composite.lastPhraseTime &&
      out.state.emaPitch == Ema(METRIC_ALPHA, f.pitchScore, q.emaPitch) &&
      out.state.emaTiming == Ema(METRIC_ALPHA, r.timingScore, q.emaTiming)
  {
  }

  /**
   * A wrong note (pitch score 0) under strictness above 0.7 zeroes the
   * composite average and restarts the phrase at `now`, whatever came
   * before; the reported quality is then not scaled.
   */
  lemma StrictWrongNoteResets(q: Quality, pitchScore: real, quality: real, config: QualityConfig, now: real)
    requires pitchScore == 0.0 && config.strictness > 0.7
    ensures ReportedQuality(pitchScore, quality, config.strictness) == quality
    ensures var next := UpdateComposite(q, pitchScore, quality, config, now);
      next.emaQuality == 0.0 && next.lastPhraseTime == now
  {
  }

  /**
   * Otherwise the reported quality is scaled by 1 - strictness on a wrong
   * note, and the composite average takes it in, restarting the phrase at
   * `now`, only once strictly more than the phrase window has passed since
   * the phrase began; within the window neither changes.
   */
  lemma PhraseDebouncedAverage(q: Quality, pitchScore: real, quality: real, config: QualityConfig, now: real)
    requires !(pitchScore == 0.0 && config.strictness > 0.7)
    ensures var reported := ReportedQuality(pitchScore, quality, config.strictness);
      reported == (if pitchScore == 0.0 then quality * (1.0 - config.strictness) else quality) &&
      var next := UpdateComposite(q, pitchScore, reported, config, now);
      (now - q.lastPhraseTime > config.phraseWindow ==>
        next.emaQuality == Ema(EmaAlpha(config.strictness), reported, q.emaQuality) && next.lastPhraseTime == now) &&
      (now - q.lastPhraseTime <= config.phraseWindow ==> next == q)
  {
  }

  /** `ax`, the product `a * x`, lies between 0 and `a` for a non-negative `a` and `x` in [0, 1]. */
  lemma ScaledWithin(a: real, x: real, ax: real)
    requires 0.0 <= a && 0.0 <= x <= 1.0 && ax == a * x
    ensures 0.0 <= ax <= a
  {
    assert a * (1.0 - x) >= 0.0;
  }

  /** A smoothing step between two values in [0, 1] stays in [0, 1]. */
  lemma EmaInUnitRange(alpha: real, score: real, previous: real)
    requires 0.0 <= alpha <= 1.0 && 0.0 <= score <= 1.0 && 0.0 <= previous <= 1.0
    ensures 0.0 <= Ema(alpha, score, previous) <= 1.0
  {
    ScaledWithin(alpha, score, alpha * score);
    ScaledWithin(1.0 - alpha, previous, (1.0 - alpha) * previous);
  }

  /** The three averages lie in [0, 1]. */
  predicate AveragesInUnitRange(q: Quality) {
    0.0 <= q.emaQuality <= 1.0 && 0.0 <= q.emaPitch <= 1.0 && 0.0 <= q.emaTiming <= 1.0
  }

  /** Note tracking keeps the onsets in order when the new stamp is not older than the last. */
  lemma TrackNoteKeepsOrder(q: Quality, f: FrameFeatures, onsetMs: real)
    requires Ordered(q.noteOnsetTimesMs)
    requires |q.noteOnsetTimesMs| > 0 ==> q.noteOnsetTimesMs[|q.noteOnsetTimesMs| - 1] <= onsetMs
    ensures Ordered(TrackNote(q, f, onsetMs).noteOnsetTimesMs)
  {
  }

  /** With the quality and the strictness in [0, 1], the reported quality and the new composite average stay in [0, 1]. */
  lemma {:induction false} CompositeInUnitRange(q: Quality, pitchScore: real, quality: real, config: QualityConfig, now: real)
    requires 0.0 <= q.emaQuality <= 1.0 && 0.0 <= quality <= 1.0 && 0.0 <= config.strictness <= 1.0
    ensures var reported := ReportedQuality(pitchScore, quality, config.strictness);
      0.0 <= reported <= 1.0 &&
      0.0 <= UpdateComposite(q, pitchScore, reported, config, now).emaQuality <= 1.0
  {
    var reported := ReportedQuality(pitchScore, quality, config.strictness);
    ScaledWithin(quality, 1.0 - config.strictness, quality * (1.0 - config.strictness));
    EmaInUnitRange(EmaAlpha(config.strictness), reported, q.emaQuality);
  }

  /**
   * When the extractor's and the timing analyzer's scores lie in [0, 1] and
   * the strictness does too, the three averages stay in [0, 1] and the
   * onsets stay in order (given a clock that does not run back behind the
   * last onset).
   */
  lemma {:induction false} FrameKeepsInvariants(q: Quality, f: FrameFeatures, targets: set<int>, config: QualityConfig,
      enabled: Option<map<string, bool>>,
      timing: (seq<real>, int, real) -> TimingReading,
      coverage: (map<PitchClass, nat>, set<int>) -> real,
      clockSec: real, now: real)
    requires AveragesInUnitRange(q) && Ordered(q.noteOnsetTimesMs)
    requires |q.noteOnsetTimesMs| > 0 ==> q.noteOnsetTimesMs[|q.noteOnsetTimesMs| - 1] <= clockSec * 1000.0
    requires 0.0 <= f.pitchScore <= 1.0 && 0.0 <= f.stability <= 1.0 && 0.0 <= f.noise <= 1.0
    requires forall onsets :: 0.0 <= timing(onsets, TIMING_WINDOW, TIMING_CONSISTENCY_THRESHOLD).score <= 1.0
    requires 0.0 <= config.strictness <= 1.0
    ensures var next := FrameStep(q, f, targets, config, enabled, timing, coverage, clockSec, now).state;
      AveragesInUnitRange(next) && Ordered(next.noteOnsetTimesMs)
  {
    if f.energy >= EnergyThreshold(config.sensitivity) {
      LoudFrameTracksNote(q, f, targets, config, enabled, timing, coverage, clockSec, now);
      LoudFrameAverages(q, f, targets, config, enabled, timing, coverage, clockSec, now);
      TrackNoteKeepsOrder(q, f, clockSec * 1000.0);
      var tracked := TrackNote(q, f, clockSec * 1000.0);
      var t := timing(tracked.noteOnsetTimesMs, TIMING_WINDOW, TIMING_CONSISTENCY_THRESHOLD);
      var flags := enabled.GetOr(ALL_ENABLED);
      WeightedQualityInUnitRange(f.pitchScore, f.stability, t.score, f.noise, config.strictness, flags);
      var quality := WeightedQuality(f.pitchScore, f.stability, t.score, f.noise, config.strictness, flags);
      CompositeInUnitRange(tracked, f.pitchScore, quality, config, now);
      EmaInUnitRange(METRIC_ALPHA, f.pitchScore, q.emaPitch);
      EmaInUnitRange(METRIC_ALPHA, t.score, q.emaTiming);
    }
  }

  // ---------------------------------------------------------------------------
  // The bulb throttle
  // ---------------------------------------------------------------------------

  /** What was last sent to the bulb, and the two guards on sending again. */
  class BulbState {
    var lastSentHue: Option<int>
    var lastSendTime: real
    var updateInterval: real
    var hueEpsilon: int

    /** Nothing sent yet; at most one send per 0.30 s, and only for a hue change of 5 or more. */
    constructor()
      ensures lastSentHue == None && lastSendTime == 0.0 && updateInterval == 0.30 && hueEpsilon == 5
    {
      lastSentHue := None;
      lastSendTime := 0.0;
      updateInterval := 0.30;
      hueEpsilon := 5;
    }

    /**
     * `should_update(newHue)` with the clock reading `now`: the hue moved by at
     * least the epsilon (or nothing was sent yet) and at least the interval
     * has passed since the last send.
     */
    function ShouldUpdate(newHue: int, now: real): (r: bool)
      reads this
      ensures r ==> now - lastSendTime >= updateInterval
      ensures r && lastSentHue.Some? ==> newHue - lastSentHue.value >= hueEpsilon || lastSentHue.value - newHue >= hueEpsilon
      ensures lastSentHue.None? && now - lastSendTime >= updateInterval ==> r
    {
      Throttle(lastSentHue, lastSendTime, updateInterval, hueEpsilon, newHue, now)
    }

    /** `mark_sent(hue)` at clock reading `now`: records exactly that hue and that time. */
    method MarkSent(hue: int, now: real)
      modifies this
      ensures lastSentHue == Some(hue) && lastSendTime == now
      ensures updateInterval == old(updateInterval) && hueEpsilon == old(hueEpsilon)
    {
      lastSentHue := Some(hue);
      lastSendTime := now;
    }
  }

  /** The two guards of `should_update`, on the throttle's recorded values. */
  predicate Throttle(lastSentHue: Option<int>, lastSendTime: real, updateInterval: real, hueEpsilon: int,
                     newHue: int, now: real)
  {
    var hueChanged := lastSentHue.None? || Abs(newHue - lastSentHue.value) >= hueEpsilon;
    var timeElapsed := now - lastSendTime >= updateInterval;
    hueChanged && timeElapsed
  }

  function Abs(x: int): nat {
    if x < 0 then -x else x
  }

  /**
   * Once a hue has been sent at time t, nothing more is sent before t plus the
   * interval, and a hue within the epsilon of the sent one is never sent;
   * a far enough hue after the interval is.
   */
  lemma ThrottleAfterSend(b: BulbState, hue: int, sentAt: real, newHue: int, now: real)
    requires b.lastSentHue == Some(hue) && b.lastSendTime == sentAt
    ensures now - sentAt < b.updateInterval ==> !b.ShouldUpdate(newHue, now)
    ensures Abs(newHue - hue) < b.hueEpsilon ==> !b.ShouldUpdate(newHue, now)
    ensures Abs(newHue - hue) >= b.hueEpsilon && now - sentAt >= b.updateInterval ==> b.ShouldUpdate(newHue, now)
  {
  }
}
