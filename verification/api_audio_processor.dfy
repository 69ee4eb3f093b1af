/**
 * The API server's audio path: the stream callback that fills the capture
 * buffer, the scale lookup, the set-up of the processing task and one pass of
 * its loop, which scores the buffer, updates the state the UI polls, logs the
 * sample and drives the bulb.
 *
 * The sleep between passes, the lock, the bulb's network calls and the
 * console output are outside the model; clock readings, the feature
 * extractor and the analyzers are parameters. A bulb send never reports a
 * failure, so the throttle records every command it lets through.
 */
module ApiAudioProcessor {
  import opened Wrappers
  import opened AudioMetrics
  import opened ApiState
  import PortableMain
  import opened SessionLogging
  import Scales

  // ---------------------------------------------------------------------------
  // The stream callback
  // ---------------------------------------------------------------------------

  /** What `audio_callback` reads of its input: a guitar channel it can index. */
  predicate CallbackReadable(config: SessionConfig, block: PortableMain.InputBlock) {
    0 <= config.guitarChannel && PortableMain.Readable(block, config.channels, config.guitarChannel as nat)
  }

  /**
   * `audio_callback`: with no configuration nothing happens; otherwise the
   * block's guitar signal (the whole block when mono, else the configured
   * channel) is appended to the buffer, which keeps its newest samples.
   * Only the buffer changes.
   */
  method AudioCallback(block: PortableMain.InputBlock, config: Option<SessionConfig>, audio: AudioState)
    requires config.Some? ==> CallbackReadable(config.value, block) && audio.buffer.Some?
    modifies audio`buffer
    ensures config.None? ==> audio.buffer == old(audio.buffer)
    ensures config.Some? ==>
      audio.buffer == Some(PortableMain.DequeExtend(old(audio.buffer.value),
                                       PortableMain.GuitarSignal(block, config.value.channels, config.value.guitarChannel as nat),
                                       BUFFER_CAPACITY))
  {
    if config.None? {
      return;
    }
    var guitar := PortableMain.GuitarSignal(block, config.value.channels, config.value.guitarChannel as nat);
    audio.buffer := Some(PortableMain.DequeExtend(audio.buffer.value, guitar, BUFFER_CAPACITY));
  }

  /** The buffer never holds more than one analysis window, whatever arrives. */
  lemma CallbackKeepsBufferBounded(buf: seq<real>, guitar: seq<real>)
    ensures |PortableMain.DequeExtend(buf, guitar, BUFFER_CAPACITY)| <= BUFFER_CAPACITY
    ensures |buf| + |guitar| <= BUFFER_CAPACITY ==> PortableMain.DequeExtend(buf, guitar, BUFFER_CAPACITY) == buf + guitar
  {
  }

  // ---------------------------------------------------------------------------
  // The scale lookup
  // ---------------------------------------------------------------------------

  /** The table `get_target_pitch_classes` reads: diatonic only for the type "natural". */
  function TableAsWritten(scaleType: string, isMajor: bool): Scales.ScaleTable {
    if scaleType == "natural" then (if isMajor then Scales.MAJOR_DIATONIC else Scales.MINOR_DIATONIC)
    else (if isMajor then Scales.MAJOR_PENTATONIC else Scales.MINOR_PENTATONIC)
  }

  /**
   * `get_target_pitch_classes(scale_name, scale_type)` as written: the name
   * is looked up unchanged; None where the lookup raises KeyError.
   */
  function TargetPitchClassesAsWritten(scaleName: string, scaleType: string): (r: Option<set<int>>)
    ensures r.Some? ==> |r.value| == (if scaleType == "natural" then 7 else 5)
    ensures r.None? <==> scaleName !in TableAsWritten(scaleType, PyText.Contains(scaleName, "Major"))
  {
    Scales.ScaleTablesWellFormed();
    var table := TableAsWritten(scaleType, PyText.Contains(scaleName, "Major"));
    if scaleName in table then Some(table[scaleName]) else None
  }

  /**
   * The configuration the config endpoint stores when the client sends no
   * scale type carries "diatonic", and the lookup as written scores any
   * scale of the tables under it against the five-note pentatonic set, not
   * the seven-note scale the type names.
   */
  lemma {:induction false} DefaultTypeScoresPentatonic(inputDevice: int, outputDevice: int, guitarChannel: int,
                                                      channels: int, name: string)
    requires name in Scales.MAJOR_DIATONIC
    ensures var c := ModelDump(inputDevice, outputDevice, guitarChannel, channels, name, None, None, None, None);
      ScaleTypeOf(c) == DEFAULT_SCALE_TYPE &&
      TargetPitchClassesAsWritten(c.scaleName, ScaleTypeOf(c)) == Some(Scales.MAJOR_PENTATONIC[name]) &&
      |Scales.MAJOR_PENTATONIC[name]| == 5 && Scales.MAJOR_PENTATONIC[name] != Scales.MAJOR_DIATONIC[name]
  {
    Scales.ScaleTablesWellFormed();
    Scales.QualityInName();
  }

  /** The scale types that name the seven-note scale. */
  predicate DiatonicType(scaleType: string) {
    scaleType == "natural" || scaleType == DEFAULT_SCALE_TYPE
  }

  /** The table the corrected lookup reads: diatonic for "natural" and "diatonic", pentatonic otherwise. */
  function TableFor(scaleType: string, isMajor: bool): Scales.ScaleTable {
    if DiatonicType(scaleType) then (if isMajor then Scales.MAJOR_DIATONIC else Scales.MINOR_DIATONIC)
    else (if isMajor then Scales.MAJOR_PENTATONIC else Scales.MINOR_PENTATONIC)
  }

  /** The scale lookup with both spellings of the diatonic type honoured. */
  function TargetPitchClasses(scaleName: string, scaleType: string): (r: Option<set<int>>)
    ensures r.Some? ==> |r.value| == (if DiatonicType(scaleType) then 7 else 5)
    ensures r.Some? ==> forall pc :: pc in r.value ==> 0 <= pc < 12
    ensures r.None? <==> scaleName !in TableFor(scaleType, PyText.Contains(scaleName, "Major"))
  {
    Scales.ScaleTablesWellFormed();
    var table := TableFor(scaleType, PyText.Contains(scaleName, "Major"));
    if scaleName in table then Some(table[scaleName]) else None
  }

  /**
   * The corrected lookup gives every scale of the tables its diatonic set
   * under either diatonic spelling and its pentatonic set under any other
   * type, and differs from the lookup as written only for "diatonic".
   */
  lemma {:induction false} TargetPitchClassesOfScale(name: string, scaleType: string)
    ensures name in Scales.MAJOR_DIATONIC ==>
      TargetPitchClasses(name, scaleType)
        == Some(if DiatonicType(scaleType) then Scales.MAJOR_DIATONIC[name] else Scales.MAJOR_PENTATONIC[name])
    ensures name in Scales.MINOR_DIATONIC ==>
      TargetPitchClasses(name, scaleType)
        == Some(if DiatonicType(scaleType) then Scales.MINOR_DIATONIC[name] else Scales.MINOR_PENTATONIC[name])
    ensures scaleType != DEFAULT_SCALE_TYPE ==>
      TargetPitchClasses(name, scaleType) == TargetPitchClassesAsWritten(name, scaleType)
  {
    Scales.ScaleTablesWellFormed();
    Scales.QualityInName();
  }

  /** `config.get("scale_type", "natural")` */
  function ScaleTypeOf(config: SessionConfig): (t: string)
    ensures config.scaleType.None? ==> t == "natural"
    ensures config.scaleType.Some? ==> t == config.scaleType.value
  {
    config.scaleType.GetOr("natural")
  }

  // ---------------------------------------------------------------------------
  // One pass of the processing loop
  // ---------------------------------------------------------------------------

  /**
   * The cumulative pitch accuracy: the share of counted notes that were in
   * the scale, or 0.0 before any note.
   */
  function Accuracy(correct: nat, wrong: nat): (a: real)
    ensures 0.0 <= a <= 1.0
    ensures correct + wrong == 0 ==> a == 0.0
    ensures correct + wrong > 0 ==> a * (correct + wrong) as real == correct as real
  {
    if correct + wrong > 0 then correct as real / (correct + wrong) as real else 0.0
  }

  /** All notes in the scale give full accuracy; none in the scale give none. */
  lemma AccuracyExtremes(correct: nat, wrong: nat)
    ensures correct > 0 && wrong == 0 ==> Accuracy(correct, wrong) == 1.0
    ensures correct == 0 ==> Accuracy(correct, wrong) == 0.0
    ensures correct > 0 ==> Accuracy(correct, wrong) > 0.0
  {
  }

  /** How many of the pitch classes from `from` to 11 have been played at least once. */
  function UsedClassesFrom(counts: map<PitchClass, nat>, from: int): nat
    requires 0 <= from <= 12
    decreases 12 - from
  {
    if from == 12 then 0
    else (if CountOf(counts, from) > 0 then 1 else 0) + UsedClassesFrom(counts, from + 1)
  }

  /** No more classes are used than there are classes, or than notes were played. */
  lemma {:induction false} UsedClassesBounded(counts: map<PitchClass, nat>, from: int)
    requires 0 <= from <= 12
    ensures UsedClassesFrom(counts, from) <= 12 - from
    ensures UsedClassesFrom(counts, from) <= CountsFrom(counts, from, {}, Everything)
    decreases 12 - from
  {
    if from < 12 {
      UsedClassesBounded(counts, from + 1);
    }
  }

  function InScale(q: Quality, targets: set<int>): nat {
    CountsFrom(q.noteCounts, 0, targets, Inside)
  }

  function OutOfScale(q: Quality, targets: set<int>): nat {
    CountsFrom(q.noteCounts, 0, targets, Outside)
  }

  function Played(q: Quality): nat {
    CountsFrom(q.noteCounts, 0, {}, Everything)
  }

  /**
   * The debug record a frame's result and the scoring state give: the
   * result's readings, and the note tallies of the state, the correct and
   * wrong ones making up all notes played.
   */
  function DebugFor(result: QualityResult, q: Quality, targets: set<int>): (d: DebugInfo)
    ensures d.correctNotes + d.wrongNotes == d.notesPlayedCount == Played(q)
    ensures d.correctNotes == InScale(q, targets) && d.wrongNotes == OutOfScale(q, targets)
    ensures 0 <= d.uniqueNotesUsed <= 12 && d.uniqueNotesUsed <= d.notesPlayedCount
    ensures d.scaleTotalNotes == |targets|
    ensures d.inScale == result.inScale && d.pitchClass == result.pitchClass
    ensures d.rawPitch == result.pitchScore && d.rawTiming == result.timingScore
    ensures d.scaleCoverage == result.scaleCoverage && d.notesForTimingAnalysis == result.notesForTiming
  {
    InsideAndOutsideMakeTotal(q.noteCounts, 0, targets);
    EverythingIgnoresTargets(q.noteCounts, 0, targets, {});
    UsedClassesBounded(q.noteCounts, 0);
    DebugInfo(result.detectedHz, result.detectedMidi, result.pitchClass, result.inScale,
              result.pitchScore, result.timingScore, result.scaleCoverage,
              Played(q), UsedClassesFrom(q.noteCounts, 0), |targets|, result.notesForTiming,
              InScale(q, targets), OutOfScale(q, targets))
  }

  /** The label of the last note. */
  function NoteLabel(inScale: bool): (s: string)
    ensures inScale <==> s == "In Scale"
    ensures !inScale <==> s == "Wrong Note"
  {
    if inScale then "In Scale" else "Wrong Note"
  }

  /** The sample `log_metric` receives for a result. */
  function SampleFor(result: QualityResult, accuracy: real, emaTiming: real): MetricSample {
    MetricSample(accuracy, result.scaleCoverage, emaTiming,
                 Some(NoteInfo(result.noteDetected, result.inScale, result.pitchClass)))
  }

  /** `if audio_state.session_logger and audio_state.session_id` */
  predicate Logging(logger: SessionLogger?, sessionId: Option<string>) {
    logger != null && sessionId.Some? && sessionId.value != ""
  }

  /**
   * The prelude of `process_audio`: the target set of the configured scale
   * (under the corrected lookup), the scorer's configuration from the
   * session's settings, and a reset of the scoring state and the throttle.
   * A scale missing from the tables ends the processing coroutine before anything changes.
   */
  method StartProcessing(session: SessionState, audio: AudioState, now: real)
    returns (targets: Option<set<int>>, qconfig: QualityConfig)
    requires session.config.Some?
    requires audio.Valid()
    modifies audio, audio.quality
    ensures targets == TargetPitchClasses(old(session.config.value.scaleName), ScaleTypeOf(old(session.config.value)))
    ensures targets.None? ==> audio.quality.Snapshot() == old(audio.quality.Snapshot()) && audio.bulb == old(audio.bulb)
    ensures targets.Some? ==>
      qconfig == QualityConfig(audio.strictness, audio.sensitivity, AUDIO_CONSTANTS.sampleRate, AUDIO_CONSTANTS.phraseWindow)
      && audio.quality.Snapshot() == Quality(0.0, 0.0, 0.0, now, map[], [], None)
      && fresh(audio.bulb) && audio.bulb.lastSentHue == None && audio.bulb.lastSendTime == 0.0
    ensures audio.buffer == old(audio.buffer) && audio.sessionId == old(audio.sessionId)
    ensures audio.sessionLogger == old(audio.sessionLogger) && audio.ambientLighting == old(audio.ambientLighting)
    ensures audio.strictness == old(audio.strictness) && audio.sensitivity == old(audio.sensitivity)
    ensures audio.Valid()
  {
    var config := session.config.value;
    targets := TargetPitchClasses(config.scaleName, ScaleTypeOf(config));
    qconfig := QualityConfig(audio.strictness, audio.sensitivity, AUDIO_CONSTANTS.sampleRate, AUDIO_CONSTANTS.phraseWindow);
    if targets.None? {
      return;
    }
    audio.Reset(now);
  }

  /**
   * The display lines of a scored pass: the note label, the cumulative
   * accuracy, the coverage, the timing average and the debug record, all
   * read from the scoring state after the frame.
   */
  method ShowResult(session: SessionState, q: Quality, result: QualityResult, targets: set<int>)
    modifies session`currentNote, session`pitchAccuracy, session`scaleConformity, session`timingStability, session`debugInfo
    ensures session.currentNote == NoteLabel(result.inScale)
    ensures session.pitchAccuracy == Accuracy(InScale(q, targets), OutOfScale(q, targets))
    ensures session.scaleConformity == result.scaleCoverage
    ensures session.timingStability == q.emaTiming
    ensures session.debugInfo == DebugFor(result, q, targets)
  {
    var numUniqueNotes := UsedClassesFrom(q.noteCounts, 0);
    var correctNotes := InScale(q, targets);
    var wrongNotes := OutOfScale(q, targets);
    var pitchAccuracyPct := Accuracy(correctNotes, wrongNotes);
    var debugInfo := DebugInfo(result.detectedHz, result.detectedMidi, result.pitchClass, result.inScale,
                               result.pitchScore, result.timingScore, result.scaleCoverage,
                               Played(q), numUniqueNotes, |targets|, result.notesForTiming,
                               correctNotes, wrongNotes);
    DebugInline(q, result, targets);
    session.currentNote := if result.inScale then "In Scale" else "Wrong Note";
    session.pitchAccuracy := pitchAccuracyPct;
    session.scaleConformity := result.scaleCoverage;
    session.timingStability := q.emaTiming;
    session.debugInfo := debugInfo;
  }

  /** The debug record `ShowResult` builds inline is `DebugFor`. */
  lemma DebugInline(q: Quality, result: QualityResult, targets: set<int>)
    ensures DebugFor(result, q, targets)
         == DebugInfo(result.detectedHz, result.detectedMidi, result.pitchClass, result.inScale,
                      result.pitchScore, result.timingScore, result.scaleCoverage,
                      Played(q), UsedClassesFrom(q.noteCounts, 0), |targets|, result.notesForTiming,
                      InScale(q, targets), OutOfScale(q, targets))
  {
  }

  /** The effect of logging `sample` for `sessionId` on the logger's entries. */
  function LoggedData(data: map<string, SessionRecord>, sessionId: string, sample: MetricSample)
    : (after: map<string, SessionRecord>)
    ensures sessionId !in data ==> after == data
    ensures sessionId in data ==> after.Keys == data.Keys && after[sessionId].metricCount == data[sessionId].metricCount + 1
    ensures forall id :: id in data && id != sessionId ==> id in after && after[id] == data[id]
  {
    if sessionId in data then data[sessionId := Logged(data[sessionId], sample)] else data
  }

  /**
   * The bulb lines of a scored pass: with lighting on, the colour of the
   * composite average is sent when the throttle allows it, and the throttle
   * then records the hue and the time `sentAt` read after the send. The send
   * never reports a failure (`set_bulb_color` catches and prints every
   * exception), so every attempted command is recorded.
   */
  method DriveBulb(bulb: BulbState, ambientLighting: bool, emaQuality: real, bulbNow: real, sentAt: real)
    returns (attempted: Option<PortableMain.BulbCommand>)
    modifies bulb
    ensures attempted.Some? <==>
      ambientLighting &&
      Throttle(old(bulb.lastSentHue), old(bulb.lastSendTime), bulb.updateInterval, bulb.hueEpsilon,
               ScoreToHue(emaQuality), bulbNow)
    ensures attempted.Some? ==> attempted.value == PortableMain.BulbCommand(ScoreToHue(emaQuality), BulbBrightness(emaQuality))
    ensures attempted.Some? ==>
      bulb.lastSentHue == Some(attempted.value.hue) && bulb.lastSendTime == sentAt
    ensures attempted.None? ==>
      bulb.lastSentHue == old(bulb.lastSentHue) && bulb.lastSendTime == old(bulb.lastSendTime)
    ensures bulb.updateInterval == old(bulb.updateInterval) && bulb.hueEpsilon == old(bulb.hueEpsilon)
    ensures BulbDriven(bulb, old(bulb.lastSentHue), old(bulb.lastSendTime), ambientLighting, emaQuality,
                       bulbNow, sentAt, attempted)
  {
    attempted := None;
    if ambientLighting {
      var hue := ScoreToHue(emaQuality);
      if bulb.ShouldUpdate(hue, bulbNow) {
        var brightness := BulbBrightness(emaQuality);
        attempted := Some(PortableMain.BulbCommand(hue, brightness));
        bulb.MarkSent(hue, sentAt);
      }
    }
  }

  /** The display fields after a scored frame, as `ShowResult` leaves them. */
  predicate Shown(session: SessionState, q: Quality, result: QualityResult, targets: set<int>)
    reads session
  {
    session.currentNote == NoteLabel(result.inScale)
    && session.pitchAccuracy == Accuracy(InScale(q, targets), OutOfScale(q, targets))
    && session.scaleConformity == result.scaleCoverage
    && session.timingStability == q.emaTiming
    && session.debugInfo == DebugFor(result, q, targets)
  }

  /** The bulb after `DriveBulb`, given its hue and send time before. */
  predicate BulbDriven(bulb: BulbState, hue0: Option<int>, time0: real, ambientLighting: bool, emaQuality: real,
                       bulbNow: real, sentAt: real, attempted: Option<PortableMain.BulbCommand>)
    reads bulb
  {
    (attempted.Some? <==>
      ambientLighting && Throttle(hue0, time0, bulb.updateInterval, bulb.hueEpsilon, ScoreToHue(emaQuality), bulbNow))
    && (attempted.Some? ==> attempted.value == PortableMain.BulbCommand(ScoreToHue(emaQuality), BulbBrightness(emaQuality)))
    && (if attempted.Some?
        then bulb.lastSentHue == Some(attempted.value.hue) && bulb.lastSendTime == sentAt
        else bulb.lastSentHue == hue0 && bulb.lastSendTime == time0)
  }

  /** The logging step of `process_audio`: one metric row when a logger and a session id are present. */
  method LogResult(logger: SessionLogger?, sessionId: Option<string>, result: QualityResult,
                   accuracy: real, emaTiming: real)
    modifies logger
    ensures logger != null ==>
      logger.sessionData
        == if Logging(logger, sessionId)
           then LoggedData(old(logger.sessionData), sessionId.value, SampleFor(result, accuracy, emaTiming))
           else old(logger.sessionData)
  {
    if logger != null && sessionId.Some? && sessionId.value != "" {
      logger.LogMetric(sessionId.value, accuracy, result.scaleCoverage, emaTiming,
                       Some(NoteInfo(result.noteDetected, result.inScale, result.pitchClass)));
    }
  }

  /**
   * One pass of the `process_audio` loop (after its sleep). Until the buffer
   * holds a full window nothing happens. Otherwise the buffer is scored; a
   * silent frame only clears the note label. A scored frame updates the
   * display (`ShowResult`), logs the sample when a logger and a session id
   * are present, and drives the bulb (`DriveBulb`).
   */
  method ProcessAudioIteration(session: SessionState, audio: AudioState, targets: set<int>, qconfig: QualityConfig,
                               extract: seq<real> -> FrameFeatures,
                               timing: (seq<real>, int, real) -> TimingReading,
                               coverage: (map<PitchClass, nat>, set<int>) -> real,
                               clockSec: real, now: real, bulbNow: real, sentAt: real)
    returns (r: Option<QualityResult>, attempted: Option<PortableMain.BulbCommand>)
    requires audio.Valid() && audio.buffer.Some?
    modifies session`currentNote, session`pitchAccuracy, session`scaleConformity, session`timingStability, session`debugInfo
    modifies audio.quality, audio.bulb, audio.sessionLogger
    ensures audio.Valid()
    // Warming up: nothing changes.
    ensures |audio.buffer.value| < BufferSize(AUDIO_CONSTANTS) ==>
      r == None && audio.quality.Snapshot() == old(audio.quality.Snapshot())
      && session.currentNote == old(session.currentNote)
    // A full window is scored.
    ensures |audio.buffer.value| >= BufferSize(AUDIO_CONSTANTS) ==>
      FrameOutcome(audio.quality.Snapshot(), r)
        == FrameStep(old(audio.quality.Snapshot()), extract(audio.buffer.value), targets, qconfig, None,
                     timing, coverage, clockSec, now)
    // What the UI sees.
    ensures |audio.buffer.value| >= BufferSize(AUDIO_CONSTANTS) && r.None? ==> session.currentNote == "-"
    ensures r.None? ==>
      session.pitchAccuracy == old(session.pitchAccuracy) && session.scaleConformity == old(session.scaleConformity)
      && session.timingStability == old(session.timingStability) && session.debugInfo == old(session.debugInfo)
    ensures r.Some? ==> Shown(session, audio.quality.Snapshot(), r.value, targets)
    // The log.
    ensures audio.sessionLogger != null ==>
      audio.sessionLogger.sessionData
        == if r.Some? && Logging(audio.sessionLogger, audio.sessionId)
           then LoggedData(old(audio.sessionLogger.sessionData), audio.sessionId.value,
                           SampleFor(r.value, session.pitchAccuracy, session.timingStability))
           else old(audio.sessionLogger.sessionData)
    // The bulb.
    ensures r.None? ==>
      attempted == None && audio.bulb.lastSentHue == old(audio.bulb.lastSentHue)
      && audio.bulb.lastSendTime == old(audio.bulb.lastSendTime)
    ensures r.Some? ==>
      BulbDriven(audio.bulb, old(audio.bulb.lastSentHue), old(audio.bulb.lastSendTime), audio.ambientLighting,
                 audio.quality.emaQuality, bulbNow, sentAt, attempted)
    ensures audio.bulb.updateInterval == old(audio.bulb.updateInterval) && audio.bulb.hueEpsilon == old(audio.bulb.hueEpsilon)
  {
    attempted := None;
    var buf := audio.buffer.value;
    if |buf| < BufferSize(AUDIO_CONSTANTS) {
      return None, None;
    }
    r := audio.quality.ProcessAudioFrame(extract(buf), targets, qconfig, None, timing, coverage, clockSec, now);
    if r.None? {
      session.currentNote := "-";
      return;
    }
    attempted := ReportResult(session, audio, r.value, targets, bulbNow, sentAt);
  }

  /** What `process_audio` does with a scored frame: the display fields, the log row and the bulb. */
  method ReportResult(session: SessionState, audio: AudioState, result: QualityResult, targets: set<int>,
                      bulbNow: real, sentAt: real)
    returns (attempted: Option<PortableMain.BulbCommand>)
    modifies session`currentNote, session`pitchAccuracy, session`scaleConformity, session`timingStability, session`debugInfo
    modifies audio.bulb, audio.sessionLogger
    ensures Shown(session, audio.quality.Snapshot(), result, targets)
    ensures audio.sessionLogger != null ==>
      audio.sessionLogger.sessionData
        == if Logging(audio.sessionLogger, audio.sessionId)
           then LoggedData(old(audio.sessionLogger.sessionData), audio.sessionId.value,
                           SampleFor(result, session.pitchAccuracy, session.timingStability))
           else old(audio.sessionLogger.sessionData)
    ensures BulbDriven(audio.bulb, old(audio.bulb.lastSentHue), old(audio.bulb.lastSendTime), audio.ambientLighting,
                       audio.quality.emaQuality, bulbNow, sentAt, attempted)
    ensures audio.bulb.updateInterval == old(audio.bulb.updateInterval) && audio.bulb.hueEpsilon == old(audio.bulb.hueEpsilon)
  {
    ShowResult(session, audio.quality.Snapshot(), result, targets);
    LogResult(audio.sessionLogger, audio.sessionId, result, session.pitchAccuracy, session.timingStability);
    attempted := DriveBulb(audio.bulb, audio.ambientLighting, audio.quality.emaQuality, bulbNow, sentAt);
  }
}
