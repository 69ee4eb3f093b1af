/**
 * The per-frame feature scores computed after pitch detection. The signal
 * processing itself (the spectral peak picker, the Hz-to-MIDI conversion,
 * the standard deviation and variance, `exp`) is outside the model: its
 * outputs arrive here as parameters.
 */
module AudioFeatures {
  import opened PyNum

  /** The debug record `pitch_correctness` returns beside its score. */
  datatype PitchDebug = PitchDebug(detectedHz: real, detectedMidi: real, pitchClass: int, inScale: bool)

  datatype PitchReading = PitchReading(score: real, debug: PitchDebug)

  /** `int(round(midi)) % 12`: Python's `%` with a positive modulus never goes negative. */
  function PitchClassOf(midi: real): (pc: int)
    ensures 0 <= pc < 12
    ensures (RoundHalfEven(midi) - pc) % 12 == 0
  {
    RoundHalfEven(midi) % 12
  }

  function Abs(x: real): (r: real)
    ensures r >= 0.0 && (r == x || r == -x)
  {
    if x < 0.0 then -x else x
  }

  /**
   * `pitch_correctness` from the detected peak frequency `hz`; `hzToMidi` is
   * the converter the source calls. No pitch means score 0 and a default debug
   * record; a pitch class outside the target set means score 0 whatever the
   * intonation; otherwise the score is one minus the distance to the nearest
   * semitone, clipped to [0, 1].
   */
  function PitchCorrectness(hz: real, targets: set<int>, hzToMidi: real -> real): (r: PitchReading)
    ensures hz <= 0.0 ==> r == PitchReading(0.0, PitchDebug(hz, 0.0, 0, false))
    ensures hz > 0.0 ==> r.debug == PitchDebug(hz, hzToMidi(hz), PitchClassOf(hzToMidi(hz)), PitchClassOf(hzToMidi(hz)) in targets)
    ensures 0 <= r.debug.pitchClass < 12
    ensures !r.debug.inScale ==> r.score == 0.0
    ensures 0.0 <= r.score <= 1.0
  {
    if hz <= 0.0 then PitchReading(0.0, PitchDebug(hz, 0.0, 0, false))
    else
      var midi := hzToMidi(hz);
      var pc := PitchClassOf(midi);
      var inScale := pc in targets;
      var debug := PitchDebug(hz, midi, pc, inScale);
      if !inScale then PitchReading(0.0, debug)
      else
        var intonationError := Abs(midi - RoundHalfEven(midi) as real);
        PitchReading(Clip(1.0 - intonationError, 0.0, 1.0), debug)
  }

  /**
   * An in-scale note never scores below 0.5, since no pitch is more than half
   * a semitone from the nearest one, and it scores exactly 1 when, and only
   * when, it sits on a semitone.
   */
  lemma InScaleScoreBounds(hz: real, targets: set<int>, hzToMidi: real -> real)
    requires PitchCorrectness(hz, targets, hzToMidi).debug.inScale
    ensures var r := PitchCorrectness(hz, targets, hzToMidi);
      0.5 <= r.score <= 1.0 &&
      (r.score == 1.0 <==> hzToMidi(hz) == hzToMidi(hz).Floor as real)
  {
    var midi := hzToMidi(hz);
    var k := RoundHalfEven(midi);
    if PitchCorrectness(hz, targets, hzToMidi).score == 1.0 {
      assert midi == k as real;
      assert midi.Floor == k;
    }
  }

  /**
   * `pitch_stability`: 0.5 when fewer than 5 spectral bins reach 70% of the
   * peak magnitude; otherwise `exp(-std)` of those bins, given as `expNegStd`.
   */
  function PitchStability(stableBins: nat, expNegStd: real): (r: real)
    ensures stableBins < 5 ==> r == 0.5
    ensures stableBins >= 5 ==> r == expNegStd
    ensures 0.0 < expNegStd <= 1.0 ==> 0.0 < r <= 1.0
  {
    if stableBins < 5 then 0.5 else expNegStd
  }

  /**
   * `timing_cleanliness`: 0.6 with fewer than 2 detected onsets; otherwise
   * `exp(-var)` of the gaps between onsets, given as `expNegVar`.
   */
  function TimingCleanliness(onsets: nat, expNegVar: real): (r: real)
    ensures onsets < 2 ==> r == 0.6
    ensures onsets >= 2 ==> r == expNegVar
    ensures 0.0 < expNegVar <= 1.0 ==> 0.0 < r <= 1.0
  {
    if onsets < 2 then 0.6 else expNegVar
  }

  /**
   * `noise_control` from the mean square `total` and the variance `noise` of
   * the buffer: one minus their ratio (with 1e-9 added to the denominator),
   * clipped to [0, 1].
   */
  function NoiseControl(total: real, noise: real): (r: real)
    requires total >= 0.0
    ensures 0.0 <= r <= 1.0
    ensures noise <= 0.0 ==> r == 1.0
    ensures noise >= total + 0.000000001 ==> r == 0.0
  {
    var denom := total + 0.000000001;
    var ratio := noise / denom;
    assert noise >= denom ==> ratio >= 1.0;
    assert noise <= 0.0 ==> ratio <= 0.0;
    Clip(1.0 - ratio, 0.0, 1.0)
  }
}
