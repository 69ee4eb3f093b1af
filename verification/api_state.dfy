/**
 * The API server's shared state: the audio constants, the debug record shown
 * to the UI, the UI-visible session state and the audio-processing state.
 *
 * The stream, the lock and the worker thread are opaque handles here; what is
 * modelled is which of them are held, not what they do.
 */
module ApiState {
  import opened Wrappers
  import opened PyNum
  import opened AudioMetrics
  import SessionLogging
  import PortableMain

  /** The `AUDIO_CONSTANTS` dictionary. */
  datatype AudioConstants = AudioConstants(
    sampleRate: int,
    blockSize: int,
    analysisWindowSec: real,
    tuyaUpdateInterval: real,
    hueEpsilon: int,
    phraseWindow: real)

  const AUDIO_CONSTANTS := AudioConstants(44100, 128, 0.30, 0.30, 5, 0.8)

  /** `int(SAMPLE_RATE * ANALYSIS_WINDOW_SEC)`: the capture buffer's capacity. */
  function BufferSize(c: AudioConstants): int {
    Trunc(c.sampleRate as real * c.analysisWindowSec)
  }

  /**
   * The API's constants agree with the rest of the system: one analysis
   * window is 13230 samples, as in the portable app; the phrase window and
   * sample rate are the scorer's defaults. (A fresh `BulbState`'s throttle
   * constants are these too: see the `AudioState` constructor.)
   */
  lemma AudioConstantsAgree()
    ensures BufferSize(AUDIO_CONSTANTS) == 13230 == PortableMain.BUFFER_SIZE
    ensures AUDIO_CONSTANTS.sampleRate == PortableMain.SAMPLE_RATE == DEFAULT_CONFIG.sampleRate
    ensures AUDIO_CONSTANTS.blockSize == PortableMain.BLOCK_SIZE
    ensures AUDIO_CONSTANTS.phraseWindow == PortableMain.PHRASE_WINDOW == DEFAULT_CONFIG.phraseWindow
  {
    assert AUDIO_CONSTANTS.sampleRate as real * AUDIO_CONSTANTS.analysisWindowSec == 13230.0;
    PortableMain.BufferHoldsOneWindow();
  }

  const BUFFER_CAPACITY: nat := 13230

  /** A value of a JSON object, as the API sends it. */
  datatype Json = JNull | JBool(b: bool) | JInt(i: int) | JFloat(r: real) | JStr(s: string)

  /** The debug record of the last frame. */
  datatype DebugInfo = DebugInfo(
    detectedHz: real,
    detectedMidi: real,
    pitchClass: Option<int>,
    inScale: bool,
    rawPitch: real,
    rawTiming: real,
    scaleCoverage: real,
    notesPlayedCount: int,
    uniqueNotesUsed: int,
    scaleTotalNotes: int,
    notesForTimingAnalysis: int,
    correctNotes: int,
    wrongNotes: int)
  {
    /** `to_dict`: one JSON entry per field, under the field's name. */
    function ToDict(): map<string, Json> {
      map[
        "detected_hz" := JFloat(detectedHz),
        "detected_midi" := JFloat(detectedMidi),
        "pitch_class" := (if pitchClass.Some? then JInt(pitchClass.value) else JNull),
        "in_scale" := JBool(inScale),
        "raw_pitch" := JFloat(rawPitch),
        "raw_timing" := JFloat(rawTiming),
        "scale_coverage" := JFloat(scaleCoverage),
        "notes_played_count" := JInt(notesPlayedCount),
        "unique_notes_used" := JInt(uniqueNotesUsed),
        "scale_total_notes" := JInt(scaleTotalNotes),
        "notes_for_timing_analysis" := JInt(notesForTimingAnalysis),
        "correct_notes" := JInt(correctNotes),
        "wrong_notes" := JInt(wrongNotes)
      ]
    }
  }

  const DEBUG_KEYS: set<string> := {
    "detected_hz", "detected_midi", "pitch_class", "in_scale", "raw_pitch", "raw_timing", "scale_coverage",
    "notes_played_count", "unique_notes_used", "scale_total_notes", "notes_for_timing_analysis",
    "correct_notes", "wrong_notes"
  }

  /** The dict holds exactly the thirteen fields. */
  lemma DictHasEveryField(d: DebugInfo)
    ensures d.ToDict().Keys == DEBUG_KEYS
  {
  }

  /** The dict carries every field's current value: reading it back gives the record. */
  lemma DictRoundTrip(d: DebugInfo)
    ensures FromDict(d.ToDict()) == Some(d)
  {
    FloatsReadBack(d);
    CountsReadBack(d);
  }

  lemma FloatsReadBack(d: DebugInfo)
    ensures var m := d.ToDict();
            FloatAt(m, "detected_hz") == Some(d.detectedHz) && FloatAt(m, "detected_midi") == Some(d.detectedMidi)
            && FloatAt(m, "raw_pitch") == Some(d.rawPitch) && FloatAt(m, "raw_timing") == Some(d.rawTiming)
            && FloatAt(m, "scale_coverage") == Some(d.scaleCoverage)
  {
  }

  lemma CountsReadBack(d: DebugInfo)
    ensures var m := d.ToDict();
            IntAt(m, "notes_played_count") == Some(d.notesPlayedCount)
            && IntAt(m, "unique_notes_used") == Some(d.uniqueNotesUsed)
            && IntAt(m, "scale_total_notes") == Some(d.scaleTotalNotes)
            && IntAt(m, "notes_for_timing_analysis") == Some(d.notesForTimingAnalysis)
            && IntAt(m, "correct_notes") == Some(d.correctNotes) && IntAt(m, "wrong_notes") == Some(d.wrongNotes)
  {
  }

  /** The field defaults of `DebugInfo()`. */
  const DEFAULT_DEBUG_INFO := DebugInfo(0.0, 0.0, None, false, 0.0, 0.0, 0.0, 0, 0, 0, 0, 0, 0)

  function FloatAt(m: map<string, Json>, k: string): Option<real> {
    if k in m && m[k].JFloat? then Some(m[k].r) else None
  }

  function IntAt(m: map<string, Json>, k: string): Option<int> {
    if k in m && m[k].JInt? then Some(m[k].i) else None
  }

  /** Reading a debug record back from its JSON object; None when a field is missing or of the wrong kind. */
  function FromDict(m: map<string, Json>): Option<DebugInfo> {
    var hz := FloatAt(m, "detected_hz");
    var midi := FloatAt(m, "detected_midi");
    var pitch := FloatAt(m, "raw_pitch");
    var timing := FloatAt(m, "raw_timing");
    var coverage := FloatAt(m, "scale_coverage");
    var played := IntAt(m, "notes_played_count");
    var unique := IntAt(m, "unique_notes_used");
    var total := IntAt(m, "scale_total_notes");
    var forTiming := IntAt(m, "notes_for_timing_analysis");
    var correct := IntAt(m, "correct_notes");
    var wrong := IntAt(m, "wrong_notes");
    if "pitch_class" in m && (m["pitch_class"].JNull? || m["pitch_class"].JInt?)
       && "in_scale" in m && m["in_scale"].JBool?
       && hz.Some? && midi.Some? && pitch.Some? && timing.Some? && coverage.Some?
       && played.Some? && unique.Some? && total.Some? && forTiming.Some? && correct.Some? && wrong.Some?
    then
      Some(DebugInfo(hz.value, midi.value,
                     if m["pitch_class"].JInt? then Some(m["pitch_class"].i) else None,
                     m["in_scale"].b, pitch.value, timing.value, coverage.value,
                     played.value, unique.value, total.value, forTiming.value, correct.value, wrong.value))
    else None
  }

  /**
   * The configuration stored by the config endpoint, `AudioConfig.model_dump()`.
   * `scaleType` is None where a configuration loaded from elsewhere lacks the key.
   */
  datatype SessionConfig = SessionConfig(
    inputDevice: int,
    outputDevice: int,
    guitarChannel: int,
    channels: int,
    scaleName: string,
    scaleType: Option<string>,
    ambientLighting: bool,
    strictness: real,
    sensitivity: real)

  const DEFAULT_SCALE_TYPE: string := "diatonic"
  const DEFAULT_AMBIENT_LIGHTING: bool := true
  const DEFAULT_STRICTNESS: real := 0.5
  const DEFAULT_SENSITIVITY: real := 0.5

  /**
   * `AudioConfig(...).model_dump()`: the optional request fields (None when
   * the client leaves them out) take their declared defaults, so the stored
   * configuration always carries a scale type, a lighting flag, a
   * strictness and a sensitivity; every required field is kept as given.
   */
  function ModelDump(inputDevice: int, outputDevice: int, guitarChannel: int, channels: int, scaleName: string,
                     scaleType: Option<string>, ambientLighting: Option<bool>, strictness: Option<real>,
                     sensitivity: Option<real>): (c: SessionConfig)
    ensures c.scaleType.Some?
    ensures scaleType.None? ==> c.scaleType == Some(DEFAULT_SCALE_TYPE)
    ensures scaleType.Some? ==> c.scaleType == scaleType
    ensures ambientLighting.None? ==> c.ambientLighting == DEFAULT_AMBIENT_LIGHTING
    ensures ambientLighting.Some? ==> c.ambientLighting == ambientLighting.value
    ensures strictness.None? ==> c.strictness == DEFAULT_STRICTNESS
    ensures strictness.Some? ==> c.strictness == strictness.value
    ensures sensitivity.None? ==> c.sensitivity == DEFAULT_SENSITIVITY
    ensures sensitivity.Some? ==> c.sensitivity == sensitivity.value
    ensures c.inputDevice == inputDevice && c.outputDevice == outputDevice
    ensures c.scaleName == scaleName && c.channels == channels && c.guitarChannel == guitarChannel
  {
    SessionConfig(inputDevice, outputDevice, guitarChannel, channels, scaleName,
                  Some(scaleType.GetOr(DEFAULT_SCALE_TYPE)), ambientLighting.GetOr(DEFAULT_AMBIENT_LIGHTING),
                  strictness.GetOr(DEFAULT_STRICTNESS), sensitivity.GetOr(DEFAULT_SENSITIVITY))
  }

  /** The state the UI polls. */
  class SessionState {
    var isRunning: bool
    var config: Option<SessionConfig>
    var currentNote: string
    var pitchAccuracy: real
    var scaleConformity: real
    var timingStability: real
    var debugInfo: DebugInfo

    /** The dataclass defaults: stopped, no configuration, no note, zero metrics. */
    constructor()
      ensures !isRunning && config == None && currentNote == "-"
      ensures pitchAccuracy == 0.0 && scaleConformity == 0.0 && timingStability == 0.0
      ensures debugInfo == DEFAULT_DEBUG_INFO
    {
      isRunning := false;
      config := None;
      currentNote := "-";
      pitchAccuracy := 0.0;
      scaleConformity := 0.0;
      timingStability := 0.0;
      debugInfo := DEFAULT_DEBUG_INFO;
    }

    /** `reset_metrics`: the display fields back to their defaults; running flag and configuration kept. */
    method ResetMetrics()
      modifies this
      ensures currentNote == "-" && pitchAccuracy == 0.0 && scaleConformity == 0.0 && timingStability == 0.0
      ensures debugInfo == DEFAULT_DEBUG_INFO
      ensures isRunning == old(isRunning) && config == old(config)
    {
      currentNote := "-";
      pitchAccuracy := 0.0;
      scaleConformity := 0.0;
      timingStability := 0.0;
      debugInfo := DEFAULT_DEBUG_INFO;
    }
  }

  /** A held resource: the audio stream, the buffer lock or the worker thread. */
  datatype Handle = Handle(id: nat)

  const DEFAULT_ENABLED_METRICS: map<string, bool> :=
    map[PITCH_ACCURACY := true, SCALE_CONFORMITY := true, TIMING_STABILITY := true]

  /**
   * The default metric toggles switch every metric on, so they weigh the
   * scores exactly as leaving the toggles out does.
   */
  lemma DefaultMetricsAllEnabled()
    ensures DEFAULT_ENABLED_METRICS == ALL_ENABLED
    ensures IsEnabled(DEFAULT_ENABLED_METRICS, PITCH_ACCURACY) && IsEnabled(DEFAULT_ENABLED_METRICS, SCALE_CONFORMITY)
         && IsEnabled(DEFAULT_ENABLED_METRICS, TIMING_STABILITY)
  {
  }

  /** The state of the audio side of a session. */
  class AudioState {
    var stream: Option<Handle>
    var buffer: Option<seq<real>>
    var bufferLock: Option<Handle>
    var processingTask: Option<Handle>
    var sessionId: Option<string>
    var sessionLogger: SessionLogging.SessionLogger?
    const quality: QualityState
    var bulb: BulbState
    var strictness: real
    var sensitivity: real
    var ambientLighting: bool
    var enabledMetrics: map<string, bool>

    predicate Valid()
      reads this
    {
      buffer.Some? ==> |buffer.value| <= BUFFER_CAPACITY
    }

    /** The dataclass defaults; `now` is the clock reading a fresh `QualityState` takes. */
    constructor(now: real)
      ensures stream == None && buffer == None && bufferLock == None && processingTask == None
      ensures sessionId == None && sessionLogger == null
      ensures fresh(quality) && quality.Snapshot() == Quality(0.0, 0.0, 0.0, now, map[], [], None)
      ensures fresh(bulb) && bulb.lastSentHue == None && bulb.lastSendTime == 0.0
      ensures bulb.updateInterval == AUDIO_CONSTANTS.tuyaUpdateInterval && bulb.hueEpsilon == AUDIO_CONSTANTS.hueEpsilon
      ensures strictness == 0.5 && sensitivity == 0.5 && ambientLighting
      ensures enabledMetrics == DEFAULT_ENABLED_METRICS
      ensures Valid()
    {
      stream := None;
      buffer := None;
      bufferLock := None;
      processingTask := None;
      sessionId := None;
      sessionLogger := null;
      quality := new QualityState(now);
      bulb := new BulbState();
      strictness := 0.5;
      sensitivity := 0.5;
      ambientLighting := true;
      enabledMetrics := DEFAULT_ENABLED_METRICS;
    }

    /** `reset`: the scoring state restarted at `now` and a new bulb throttle that has sent nothing. */
    method Reset(now: real)
      modifies this, quality
      ensures quality.Snapshot() == Quality(0.0, 0.0, 0.0, now, map[], [], None)
      ensures fresh(bulb) && bulb.lastSentHue == None && bulb.lastSendTime == 0.0
      ensures bulb.updateInterval == AUDIO_CONSTANTS.tuyaUpdateInterval && bulb.hueEpsilon == AUDIO_CONSTANTS.hueEpsilon
      ensures stream == old(stream) && buffer == old(buffer) && bufferLock == old(bufferLock)
      ensures processingTask == old(processingTask) && sessionId == old(sessionId)
      ensures sessionLogger == old(sessionLogger)
      ensures strictness == old(strictness) && sensitivity == old(sensitivity)
      ensures ambientLighting == old(ambientLighting) && enabledMetrics == old(enabledMetrics)
    {
      quality.Reset(now);
      bulb := new BulbState();
    }

    /**
     * `cleanup`: the stream, the worker, the buffer, the lock and the session
     * id are released; the scoring state, the throttle, the logger and the
     * settings stay. Errors while stopping the stream are ignored.
     */
    method Cleanup()
      modifies this
      ensures stream == None && processingTask == None && buffer == None && bufferLock == None
      ensures sessionId == None
      ensures bulb == old(bulb) && sessionLogger == old(sessionLogger)
      ensures strictness == old(strictness) && sensitivity == old(sensitivity)
      ensures ambientLighting == old(ambientLighting) && enabledMetrics == old(enabledMetrics)
    {
      if stream.Some? {
        stream := None;
      }
      if processingTask.Some? {
        processingTask := None;
      }
      buffer := None;
      bufferLock := None;
      sessionId := None;
    }
  }
}
