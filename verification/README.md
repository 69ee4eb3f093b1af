# FretCoach core, modelled in Dafny

FretCoach listens to a guitar through an audio interface and gives the player
feedback on three areas while they play: pitch accuracy, scale conformity and
timing stability. It reports through a terminal front end, a desktop app
backed by an HTTP API, and a smart bulb whose colour follows the player's
running quality score. Around that scoring engine sit a session logger, a
live language-model coach, a web chat coach that offers and saves practice
plans, and an offline evaluation suite.

This project models the deterministic heart of that system and proves what
it promises:

- **Scoring engine** (`audio_metrics.dfy`, `audio_features.dfy`). `QualityState`
  is a class updated once per audio frame. The model covers:
  - the silence gate;
  - the per-pitch-class histogram;
  - the onset rule (a new onset only when the pitch class changes, with silence re-arming it);
  - the strictness-dependent wrong-note reset;
  - the phrase-debounced composite average and the per-metric averages;
  - the convex weighting of the four scores;
  - `BulbState`, the two-guard throttle on bulb updates.

  Each frame method is proved against `FrameStep`, a function over a snapshot
  of the state.
- **Capture buffer and frame loops** (`portable_main.dfy`, `api_audio_processor.dfy`,
  `api_state.dfy`):
  - a bounded buffer with `deque(maxlen=…)` semantics;
  - mono or stereo channel selection;
  - the warm-up gate;
  - the rule that every bulb command the throttle lets through is recorded
    as sent, since the send swallows its own failures;
  - the field effects of the API server's session and audio state resets.
- **Scale tables** (`scales.dfy`): the four tables, their union, the lookup
  and the interactive menu's index-to-scale mapping.
- **Session logger** (`session_logger.dfy`): the `-- name:` SQL file parser
  (a loop proved against a fold), the per-session metric accumulator and the
  end-of-session averages.
- **Pure rules**:
  - language-model cost accounting (`llm_utils.dfy`);
  - coach labels and time text (`live_coach.dfy`);
  - the weakest-area rule (`metric_areas.dfy`);
  - the chat coach's plans, confirmation, intent routing and per-thread
    pending-plan store (`chat.dfy`);
  - the evaluation metrics (`custom_metrics.dfy`, `plan_quality.dfy`,
    `response_completeness.dfy`);
  - the evaluation datasets (`create_datasets.dfy`);
  - the Electron shell's `.env` loader (`env_loader.dfy`).

Python's own semantics that the code leans on are written out once:

- `round` with ties to even, `round(x, n)`, `int()` truncation and `numpy.clip`
  (`py_num.dfy`);
- `str.strip`, `lower`, `in`, `replace`, `split`, `join` and number formatting,
  plus JavaScript's `trim` (`py_text.dfy`).

Numbers are exact reals: nothing here models floating-point rounding.

Clock readings, random identifiers, database rows, language-model replies,
the JSON decoder, the tokenizer and the outcome of a database insert are all
parameters, so every operation is a total function of its inputs.

As the docstring at backend/core/audio_metrics.py:116 says, the scale slot
of the weighted quality carries the pitch-stability score (line 227, passed
at line 247), while `scale_coverage` (line 234) is only reported beside it.

## Model

| member | source | states |
|---|---|---|
| AudioMetrics.ScoreToHue | backend/core/audio_metrics.py:88-90 | the hue lies in 0..120, is 0 for a score at or below 0 and 120 for a score at or above 1 |
| AudioMetrics.ScoreToHueMonotone | backend/core/audio_metrics.py:88-90 | a higher score never gives a lower (redder) hue |
| AudioMetrics.EnergyThreshold | backend/core/audio_metrics.py:93-95 | for sensitivity in [0, 1] the silence threshold lies between 1e-7 and 1.1e-6 |
| AudioMetrics.EmaAlpha | backend/core/audio_metrics.py:98-100 | for strictness in [0, 1] the composite smoothing factor lies in [0.10, 0.40] |
| AudioMetrics.WeightsFor | backend/core/audio_metrics.py:125-157 | a disabled score weighs 0, and an enabled pitch score weighs 0.40 + 0.15 * strictness |
| AudioMetrics.WeightsSumToOne | backend/core/audio_metrics.py:125-157 | in every combination of enabled flags the four weights sum to 1 |
| AudioMetrics.WeightedQualityIsWeightedSum | backend/core/audio_metrics.py:103-158 | the weighted quality is the sum of each score times its weight; with strictness in [0, 1] no weight is negative and noise always weighs more than 0 |
| AudioMetrics.WeightedQualityInUnitRange | backend/core/audio_metrics.py:103-158 | with all four scores and the strictness in [0, 1], the weighted quality is in [0, 1] |
| AudioMetrics.WeightedQuality | backend/core/audio_metrics.py:103-158 | with pitch, scale and timing all disabled the quality is the noise score alone, and when the four scores are equal the quality is that common score whatever the weights |
| AudioMetrics.BulbBrightness | backend/core/audio_metrics.py:322-324 | for an average in [0, 1] the brightness lies in 300..1000 |
| AudioMetrics.BulbBrightnessMonotone | backend/core/audio_metrics.py:322-324 | a higher average never dims the bulb |
| AudioMetrics.InsideAndOutsideMakeTotal | backend/core/audio_metrics.py:51-68 | over any range of pitch classes, the counts inside and outside a target set add up to the count of all of them |
| AudioMetrics.EverythingIgnoresTargets | backend/core/audio_metrics.py:51-54 | the total note count does not depend on the target set |
| AudioMetrics.CountOneMore | backend/core/audio_metrics.py:56-68 | one more note of class pc raises every count that takes pc by exactly one and leaves the others unchanged |
| AudioMetrics.QualityState.constructor | backend/core/audio_metrics.py:30-39 | a fresh state has averages 0, the phrase start at the clock reading, an empty histogram, no onsets and no last pitch class |
| AudioMetrics.QualityState.Reset | backend/core/audio_metrics.py:41-49 | reset sets the averages to 0, restarts the phrase at the clock reading, clears the histogram and onsets, and forgets the last pitch class |
| AudioMetrics.QualityState.ProcessAudioFrame | backend/core/audio_metrics.py:161-295 | the new state and the result are exactly those of the frame-step function, for any clock reading (a clock that steps back is accepted, as `time.time()` can) |
| AudioMetrics.QualityState.TrackNoteInPlace | backend/core/audio_metrics.py:188-224 | the in-place histogram, onset and last-class updates equal the note-tracking function |
| AudioMetrics.QualityState.UpdateCompositeInPlace | backend/core/audio_metrics.py:254-274 | the reported quality and the new composite average and phrase start equal the penalty and debounce functions |
| AudioMetrics.TrackNote | backend/core/audio_metrics.py:188-224 | tracking a note adds at most one onset stamp and keeps every earlier stamp in place; the three smoothed scores and the phrase time are untouched |
| AudioMetrics.ReportedQuality | backend/core/audio_metrics.py:254-274 | a correct note, or a wrong one under strictness above 0.7, reports the weighted quality unchanged; otherwise, for a non-negative quality and strictness in [0, 1], the partial credit lies between 0 and the quality |
| AudioMetrics.UpdateComposite | backend/core/audio_metrics.py:254-274 | only the composite average and the phrase time can change; the phrase time either stays or becomes the current clock reading, and whenever the average changes the phrase restarts at that reading |
| AudioMetrics.FrameStep | backend/core/audio_metrics.py:161-295 | a frame yields no result exactly when its energy is below the sensitivity threshold, and then the state is unchanged; a result carries the frame's own pitch score and note flag |
| AudioMetrics.NotesInAndOutMakeTotal | backend/core/audio_metrics.py:51-68 | notes_in_scale(T) + notes_out_of_scale(T) == total_notes for every target set T |
| AudioMetrics.SilentFrameChangesNothing | backend/core/audio_metrics.py:180-183 | a frame whose energy is below the threshold returns None and leaves every field of the state as it was |
| AudioMetrics.LoudFrameTracksNote | backend/core/audio_metrics.py:180-224 | a frame at or above the threshold always yields a result, and its histogram, onsets and last class are those of note tracking |
| AudioMetrics.HistogramRule | backend/core/audio_metrics.py:200-201 | a detected note with a pitch class adds exactly 1 to that class's count; any other frame leaves the histogram unchanged |
| AudioMetrics.OneMoreNote | backend/core/audio_metrics.py:51-68 | one more note of class pc adds 1 to the total, and adds 1 to the in-scale count exactly when pc is in the scale; in-scale plus out-of-scale counts stay equal to the total |
| AudioMetrics.OnsetRule | backend/core/audio_metrics.py:198-224 | an onset is appended exactly when a note is detected whose class differs from the last one; a frame without a note forgets the last class, and a detected note becomes the last class |
| AudioMetrics.SameNoteAfterSilenceIsNewOnset | backend/core/audio_metrics.py:203-224 | a note held over two frames is one onset, but the same class after a quiet frame is stamped again |
| AudioMetrics.LoudFrameAverages | backend/core/audio_metrics.py:254-280 | a loud frame's composite average follows the composite update, and the pitch and timing averages take the frame's scores in with factor 0.25 |
| AudioMetrics.StrictWrongNoteResets | backend/core/audio_metrics.py:258-263 | a wrong note under strictness above 0.7 zeroes the composite average and restarts the phrase at now, whatever came before |
| AudioMetrics.PhraseDebouncedAverage | backend/core/audio_metrics.py:264-274 | otherwise a wrong note's quality is scaled by 1 - strictness, and the average takes it in with factor 0.10 + 0.30 * strictness only when strictly more than the phrase window has passed; within the window nothing changes |
| AudioMetrics.TrackNoteKeepsOrder | backend/core/audio_metrics.py:208-213 | note tracking keeps the onset list in non-decreasing order when the new stamp is not older than the last |
| AudioMetrics.CompositeInUnitRange | backend/core/audio_metrics.py:254-274 | with quality and strictness in [0, 1], the reported quality and the new composite average stay in [0, 1] |
| AudioMetrics.FrameKeepsInvariants | backend/core/audio_metrics.py:161-295 | with extractor and timing scores in [0, 1] and a clock not behind the last onset, a frame keeps the three averages in [0, 1] and the onsets in order |
| AudioMetrics.BulbState.constructor | backend/core/audio_metrics.py:298-304 | a fresh throttle has sent nothing, at time 0.0, with interval 0.30 s and hue epsilon 5 |
| AudioMetrics.BulbState.ShouldUpdate | backend/core/audio_metrics.py:306-314 | an update is allowed only after the interval has passed and only for a hue that moved by at least epsilon, and always after the interval when nothing was sent yet |
| AudioMetrics.BulbState.MarkSent | backend/core/audio_metrics.py:316-319 | mark_sent records exactly that hue and that time and changes neither guard constant |
| AudioMetrics.ThrottleAfterSend | backend/core/audio_metrics.py:306-319 | after a send at time t, nothing is sent before t plus the interval nor for a hue within epsilon, and a far enough hue after the interval is sent |
| AudioFeatures.PitchClassOf | backend/core/audio_features.py:38-39 | the pitch class lies in 0..11 and is congruent to the rounded MIDI number modulo 12 |
| AudioFeatures.PitchCorrectness | backend/core/audio_features.py:24-54 | a pitch at or below 0 Hz scores 0.0 with pitch class 0 and not in scale; otherwise the debug record carries the MIDI number, its class and whether the class is a target; a class outside the targets scores 0.0; every score is in [0, 1] |
| AudioFeatures.InScaleScoreBounds | backend/core/audio_features.py:52-54 | an in-scale note scores at least 0.5 and at most 1, and exactly 1 when and only when its MIDI number is a whole semitone |
| AudioFeatures.PitchStability | backend/core/audio_features.py:68-72 | fewer than 5 strong bins give 0.5, otherwise the exponential term, and a term in (0, 1] gives a score in (0, 1] |
| AudioFeatures.TimingCleanliness | backend/core/audio_features.py:86-90 | fewer than 2 onsets give 0.6, otherwise the exponential term, and a term in (0, 1] gives a score in (0, 1] |
| AudioFeatures.NoiseControl | backend/core/audio_features.py:103-105 | the score is clipped to [0, 1]: 1 when the variance is 0 or less, 0 when the variance reaches the mean square plus 1e-9 |
| Scales.MajorKeys | backend/core/scales.py:9-22 | the major diatonic and major pentatonic tables both have exactly the twelve names "C Major" to "B Major" |
| Scales.MinorKeys | backend/core/scales.py:24-37 | the minor diatonic and minor pentatonic tables both have exactly the twelve names "C Minor" to "B Minor" |
| Scales.MajorDiatonicTable | backend/core/scales.py:9-22 | every major diatonic scale is a set of exactly 7 pitch classes, each in 0..11 |
| Scales.MinorDiatonicTable | backend/core/scales.py:24-37 | every minor diatonic scale is a set of exactly 7 pitch classes, each in 0..11 |
| Scales.MajorPentatonicTable | backend/core/scales.py:40-53 | every major pentatonic scale is a set of exactly 5 pitch classes, each in 0..11 |
| Scales.MinorPentatonicTable | backend/core/scales.py:55-68 | every minor pentatonic scale is a set of exactly 5 pitch classes, each in 0..11 |
| Scales.MajorPentatonicInsideDiatonic | backend/core/scales.py:9-53 | each major pentatonic scale lies inside the major diatonic scale of the same name |
| Scales.MinorPentatonicInsideDiatonic | backend/core/scales.py:24-68 | each minor pentatonic scale lies inside the minor diatonic scale of the same name |
| Scales.ScaleTablesWellFormed | backend/core/scales.py:8-68 | diatonic scales have 7 classes and pentatonic ones 5, all in 0..11; each pentatonic table shares its names with the diatonic table of the same quality and lies inside it |
| Scales.MajorCount | backend/core/scales.py:9-22 | the major diatonic table has 12 names |
| Scales.MinorCount | backend/core/scales.py:24-37 | the minor diatonic table has 12 names |
| Scales.AllScalesIsDisjointUnion | backend/core/scales.py:70-73 | ALL_SCALES has exactly the names of the two diatonic tables, which share none, so it has 24 entries and each keeps its table's set |
| Scales.GetPitchClasses | backend/core/scales.py:81-83 | the lookup yields a set exactly when the name is in ALL_SCALES |
| Scales.GetPitchClassesFindsDiatonic | backend/core/scales.py:81-83 | a major or minor name yields its 7-note diatonic set, and any other name (a pentatonic display name included) yields None |
| Scales.MajorNamesSorted | backend/core/scales.py:100 | the major menu listing is strictly sorted in string order |
| Scales.MinorNamesSorted | backend/core/scales.py:105 | the minor menu listing is strictly sorted in string order |
| Scales.MenuListsSortedKeys | backend/core/scales.py:100-112 | the menu is the sorted major names followed by the sorted minor names, 12 each, and each listing holds exactly its table's names |
| Scales.MajorNamesSayMajor | backend/core/scales.py:150 | every major name contains "Major" |
| Scales.MinorNamesLackMajor | backend/core/scales.py:150 | no minor name contains "Major" |
| Scales.QualityInName | backend/core/scales.py:150-157 | the "Major" substring test tells the major names from the minor names |
| Scales.NoParenInNames | backend/core/scales.py:9-37 | no scale name holds a parenthesis |
| Scales.MenuChoice | backend/core/scales.py:116-127 | a typed number picks a menu entry exactly when it parses and lies in 1..24; anything else re-prompts |
| Scales.MenuChoiceHalves | backend/core/scales.py:112-127 | numbers 1..12 pick the sorted major names, 13..24 the sorted minor names, and any other input or a non-number picks nothing |
| Scales.TypeChoice | backend/core/scales.py:137-147 | the stripped answer "1" means diatonic and "2" pentatonic, and nothing else is accepted |
| Scales.Selection | backend/core/scales.py:149-163 | the returned name is the scale name followed by " (Diatonic)" or " (Pentatonic)" |
| Scales.FullName | backend/core/scales.py:159-163 | the full name starts with the scale name and is longer than it, and the rest is " (Diatonic)" exactly for a diatonic scale and " (Pentatonic)" exactly for a pentatonic one |
| Scales.SelectionFromMenu | backend/core/scales.py:112-163 | entry n with a type yields that name with its suffix and the set of the major tables for 1..12 or the minor tables for 13..24, with 7 classes for diatonic and 5 for pentatonic |
| PortableMain.BufferHoldsOneWindow | portable/main.py:60-63 | one analysis window is 44100 * 0.30 = 13230 samples |
| PortableMain.FeedbackMessage | portable/main.py:93-119 | no result gives "Waiting for input...", no note "Play a note...", a detected out-of-scale note the wrong-note message, and an in-scale note one of the five tiered messages |
| PortableMain.FeedbackIgnoresAverageOffScale | portable/main.py:100-107 | outside the in-scale case the message does not depend on the average |
| PortableMain.FeedbackFollowsThresholds | portable/main.py:109-119 | for an in-scale note the message is the tier given by how many of 0.40, 0.55, 0.70, 0.85 the average reaches, so a higher average never gets a lower tier |
| PortableMain.TiersReachedMonotone | portable/main.py:110-131 | a higher average never reaches fewer thresholds |
| PortableMain.FeedbackColor | portable/main.py:122-131 | the colour is one of red, orange1, yellow, green |
| PortableMain.ColorFollowsThresholds | portable/main.py:122-131 | the colour is the tier given by how many of 0.30, 0.50, 0.70 the average reaches, and an in-scale message has a green circle exactly when the colour is green |
| PortableMain.ProgressLine | portable/main.py:200-211 | the line starts with the label padded to 18 columns |
| PortableMain.ProgressLineShowsValue | portable/main.py:200-211 | the line ends with the value right-aligned in 3 columns and a percent sign; for a non-negative value the digits before the sign read back as the value |
| PortableMain.BarCellCounts | portable/main.py:202-206 | for a value in 0..100 the bar holds value // 10 full cells and 10 - value // 10 empty cells |
| PortableMain.ProgressLineHasTenCells | portable/main.py:200-211 | for a value in 0..100 the whole line holds value // 10 full cells and 10 - value // 10 empty ones, ten in all |
| PortableMain.TargetPitchClasses | portable/main.py:474-485 | a lookup that succeeds has 7 pitch classes for "natural" and 5 otherwise, all in 0..11, and it fails exactly when the cleaned name is not in the table the type and the "Major" substring choose |
| PortableMain.SuffixIsIgnored | portable/main.py:477 | "<scale> (Natural)" and "<scale> (Pentatonic)" look up the same set as "<scale>" |
| PortableMain.TargetPitchClassesOfScale | portable/main.py:474-485 | a major or minor scale name gets its diatonic set under "natural" and its pentatonic set under any other type, from the tables its name selects |
| PortableMain.MonoFramesAreColumnZero | portable/main.py:264-268 | on one-sample frames, flattening and taking column 0 give the same samples |
| PortableMain.GuitarSignal | portable/main.py:264-268 | flat input is taken as it is, one-channel frames are flattened, and multi-channel frames give one sample per frame, taken from the guitar channel |
| PortableMain.Newest | portable/main.py:240 | a bounded buffer keeps the last min(n, cap) samples, as a suffix of what was written |
| PortableMain.ExtendIsAppendEach | portable/main.py:270-271 | extending the bounded buffer by a block equals appending its samples one at a time with eviction of the oldest |
| PortableMain.DequeExtend | portable/main.py:270-271 | the bounded buffer keeps the newest min(old length + new length, capacity) samples of the old contents followed by the new ones; a block at least as long as the capacity leaves only its own last samples |
| PortableMain.DequeExtendTwice | portable/main.py:270-271 | extending by two blocks one after the other equals extending by both at once |
| PortableMain.AudioProcessor.constructor | portable/main.py:221-257 | a new processor has an empty buffer, no result, a fresh scoring state, a throttle that has sent nothing, and the given settings |
| PortableMain.AudioProcessor.AudioCallback | portable/main.py:259-273 | the buffer becomes the newest BUFFER_SIZE samples of the old buffer followed by the block's guitar signal (all of a mono block, else column guitar_channel) |
| PortableMain.AudioProcessor.ProcessFrame | portable/main.py:318-345 | below a full window nothing is scored and nothing changes; otherwise the state and result follow one scoring step, a bulb command is attempted exactly when lighting is on, the bulb is configured and the throttle allows the new hue, and the throttle then records that hue and the send time |
| ApiState.AudioConstantsAgree | backend/api/state.py:19-26 | one API analysis window is 13230 samples, the same as the portable app, and the sample rate, block size and phrase window agree with the portable app and the scorer's defaults |
| ApiState.DictHasEveryField | backend/api/state.py:46-62 | to_dict has exactly the thirteen field names as keys |
| ApiState.DictRoundTrip | backend/api/state.py:46-62 | reading the dict back yields the original record, so every field's current value is carried under its own name |
| ApiState.ModelDump | backend/api/models.py:19-29 | each optional field the client leaves out takes its declared default (scale type "diatonic", ambient lighting on, strictness 0.5, sensitivity 0.5) and a given one is kept; the devices, name, channels and guitar channel are kept as given |
| ApiState.SessionState.constructor | backend/api/state.py:65-74 | a fresh session state is stopped, unconfigured, shows "-" and zero metrics, and holds the default debug record |
| ApiState.SessionState.ResetMetrics | backend/api/state.py:76-82 | reset_metrics sets the note to "-", the three metrics to 0.0 and the debug record to its default, and keeps is_running and config |
| ApiState.DefaultMetricsAllEnabled | backend/api/state.py:106-110 | the default metric flags switch all three metrics on, which weighs the scores as leaving the flags out does |
| ApiState.AudioState.constructor | backend/api/state.py:85-110 | a fresh audio state holds no stream, buffer, lock, worker, session id or logger, a fresh scoring state and throttle (interval and epsilon equal to the API constants), settings 0.5 / 0.5 / lighting on, and all metrics enabled |
| ApiState.AudioState.Reset | backend/api/state.py:112-115 | reset restarts the scoring state and installs a new throttle that has sent nothing, and changes no other field |
| ApiState.AudioState.Cleanup | backend/api/state.py:117-133 | cleanup releases the stream, the worker, the buffer, the lock and the session id, and keeps the throttle, the logger and the settings |
| ApiAudioProcessor.AudioCallback | backend/api/services/audio_processor.py:38-58 | with no configuration the buffer is untouched; otherwise it becomes the newest samples of the old buffer followed by the block's guitar signal (all of a mono block, else the configured channel), and nothing else changes |
| ApiAudioProcessor.CallbackKeepsBufferBounded | backend/api/services/audio_processor.py:57-58 | the buffer never holds more than one analysis window, and below capacity the samples are simply appended |
| ApiAudioProcessor.TargetPitchClassesAsWritten | backend/api/services/audio_processor.py:61-70 | the lookup as written reads the diatonic tables only for the type "natural" (7 classes) and the pentatonic tables for any other type (5 classes), and fails exactly when the name is missing from that table |
| ApiAudioProcessor.DefaultTypeScoresPentatonic | backend/api/services/audio_processor.py:61-70 | a configuration stored without a scale type carries "diatonic", and the lookup as written then scores every major scale against its 5-note pentatonic set, which differs from the diatonic set |
| ApiAudioProcessor.TargetPitchClasses | backend/api/services/audio_processor.py:61-70 | the corrected lookup reads the diatonic tables for "natural" and "diatonic" (7 classes, all in 0..11) and the pentatonic tables otherwise (5 classes), and fails exactly when the name is missing from that table |
| ApiAudioProcessor.TargetPitchClassesOfScale | backend/api/services/audio_processor.py:61-70 | the corrected lookup gives every scale its diatonic set under either diatonic spelling and its pentatonic set under any other type, and agrees with the lookup as written for every type except "diatonic" |
| ApiAudioProcessor.ScaleTypeOf | backend/api/services/audio_processor.py:83 | a configuration without a scale type reads as "natural", and one with a type reads as that type |
| ApiAudioProcessor.Accuracy | backend/api/services/audio_processor.py:136-141 | the cumulative accuracy lies in [0, 1], is 0.0 before any note, and otherwise is correct / (correct + wrong) |
| ApiAudioProcessor.AccuracyExtremes | backend/api/services/audio_processor.py:136-141 | only correct notes give 1.0, no correct note gives 0.0, and any correct note gives more than 0 |
| ApiAudioProcessor.UsedClassesBounded | backend/api/services/audio_processor.py:132 | the number of distinct classes played is at most 12 and at most the number of notes played |
| ApiAudioProcessor.DebugFor | backend/api/services/audio_processor.py:148-162 | correct_notes + wrong_notes == notes_played_count, which is the state's total; the tallies are the in-scale and out-of-scale counts; unique notes lie in 0..12; the remaining fields copy the result |
| ApiAudioProcessor.NoteLabel | backend/api/services/audio_processor.py:144 | the label is "In Scale" exactly when the note is in the scale and "Wrong Note" exactly when it is not |
| ApiAudioProcessor.StartProcessing | backend/api/services/audio_processor.py:77-95 | the target set is what the corrected lookup `TargetPitchClasses` gives for the configured scale (with the "natural" default), not the as-written lookup that line 84 calls (see Findings); the scorer takes the session's strictness and sensitivity and the API constants, and the scoring state and throttle are reset unless the scale is unknown |
| ApiAudioProcessor.ShowResult | backend/api/services/audio_processor.py:131-162 | the display shows the note label, the cumulative accuracy of the state's tallies, the result's coverage, the state's timing average and the matching debug record |
| ApiAudioProcessor.LoggedData | backend/core/session_logger.py:307-321 | logging for an unknown session changes nothing; for a known one only that session's record changes, with one more sample |
| ApiAudioProcessor.LogResult | backend/api/services/audio_processor.py:164-179 | a metric row is logged exactly when a logger and a non-empty session id are present, with the displayed accuracy and timing and the result's coverage and note |
| ApiAudioProcessor.DriveBulb | backend/api/services/audio_processor.py:181-190 | a bulb command is attempted exactly when lighting is on and the throttle allows the hue of the composite average, with that hue and brightness; the throttle then records that hue and the send time, since the send never reports a failure |
| ApiAudioProcessor.ProcessAudioIteration | backend/api/services/audio_processor.py:110-190 | before the buffer holds a window nothing changes; a silent frame shows "-" and changes no metric, log or bulb; a scored frame follows one scoring step, updates the display, logs the sample and drives the bulb as above |
| ApiAudioProcessor.ReportResult | backend/api/services/audio_processor.py:131-190 | after a scored frame the display, the log and the throttle are as ShowResult, LogResult and DriveBulb state |
| SessionLogging.Flush | backend/core/session_logger.py:86-87 | the open section is stored, as its lines joined with newlines and stripped, exactly when its name is non-empty and it has at least one line; otherwise the queries stay |
| SessionLogging.RunAppend | backend/core/session_logger.py:82-94 | parsing two runs of lines one after the other is parsing them together |
| SessionLogging.NoHeaderNoChange | backend/core/session_logger.py:91 | before the first header no section is open, so lines change nothing |
| SessionLogging.PreambleIgnored | backend/core/session_logger.py:79-98 | lines before the first "-- name:" header are ignored |
| SessionLogging.BodyLinesCollected | backend/core/session_logger.py:91-94 | inside an open section, non-comment lines are collected in order |
| SessionLogging.CommentLinesSkipped | backend/core/session_logger.py:92-94 | inside an open section, lines whose stripped form starts with "--" are never stored |
| SessionLogging.OpenSection | backend/core/session_logger.py:84-94 | a header followed by plain lines opens a section named by the stripped text after "-- name:" that holds exactly those lines |
| SessionLogging.SectionStored | backend/core/session_logger.py:84-98 | a header with a non-empty name followed by plain lines stores those lines, joined with "\n" and stripped, under that name |
| SessionLogging.EmptySectionNotStored | backend/core/session_logger.py:96-98 | a header followed only by comment lines stores nothing |
| SessionLogging.UnnamedSectionNotStored | backend/core/session_logger.py:86-98 | a header whose name strips to nothing stores nothing |
| SessionLogging.LaterSectionWins | backend/core/session_logger.py:86-87 | when a name repeats, the later section's text replaces the earlier one |
| SessionLogging.SectionAfter | backend/core/session_logger.py:84-94 | a header followed by plain lines flushes the open section and then holds exactly those lines |
| SessionLogging.RunKeepsSectionsClean | backend/core/session_logger.py:79-98 | throughout parsing, no comment line is kept in an open section, and every added query comes from a named section |
| SessionLogging.ParsedQueriesComeFromSections | backend/core/session_logger.py:74-98 | whatever the file, every added query has a non-empty name and is the stripped text of a non-empty run of comment-free lines; other entries stay as they were |
| SessionLogging.SqlLoader.constructor | backend/core/session_logger.py:47-72 | the loader holds the schema text, and the queries parsed from the queries file, or none when it does not exist |
| SessionLogging.SqlLoader.ParseQueries | backend/core/session_logger.py:74-98 | the queries become the parse of the file's lines added to the previous ones; the schema is unchanged |
| SessionLogging.SqlLoader.ParseLinesOf | backend/core/session_logger.py:82-98 | the loop over the lines and the final flush leave exactly the parse of those lines |
| SessionLogging.SqlLoader.ParseLine | backend/core/session_logger.py:83-94 | one pass of the loop moves the parser's variables by exactly one parsing step |
| SessionLogging.SqlLoader.GetQuery | backend/core/session_logger.py:100-102 | a query is found exactly when its name is stored, and it is the stored text |
| SessionLogging.NewRecord | backend/core/session_logger.py:260-283 | a new entry has zero sums and zero counters, and its user is the given one, or "default_user" when none or an empty one is given |
| SessionLogging.LoggedCounts | backend/core/session_logger.py:316-329 | one sample adds 1 to the metric count and its values to the sums; the note counters move only for a detected note, by 1, and total = correct + bad is preserved |
| SessionLogging.LoggedAllSums | backend/core/session_logger.py:316-321 | after any samples the sums are the sums of the samples and the count is their number |
| SessionLogging.Averages | backend/core/session_logger.py:357-366 | the averages are sum / metric_count, or 0.0 each when nothing was logged |
| SessionLogging.AveragesAreMeans | backend/core/session_logger.py:316-366 | a fresh session fed some samples averages, for each metric, the mean of what was logged |
| SessionLogging.SumsWithinCount | backend/core/session_logger.py:318-320 | with every sample in [0, 1], each sum lies between 0 and the number of samples |
| SessionLogging.AveragesInUnitRange | backend/core/session_logger.py:357-366 | metrics logged in [0, 1] average in [0, 1] |
| SessionLogging.RowOf | backend/core/session_logger.py:357-402 | the row carries the three averages, the duration since the start, and the given number of notes in the scale |
| SessionLogging.SessionLogger.constructor | backend/core/session_logger.py:122-131 | a new logger has no running sessions |
| SessionLogging.SessionLogger.StartSession | backend/core/session_logger.py:237-286 | the returned id is the generated one, and its new entry is added to the others |
| SessionLogging.SessionLogger.LogMetric | backend/core/session_logger.py:288-329 | an unknown session changes nothing; a known one takes in exactly one sample and no other entry changes |
| SessionLogging.SessionLogger.EndSession | backend/core/session_logger.py:332-446 | an unknown session gives no row and changes nothing; a known one gives the row of its averages and is dropped from memory |
| LlmUtils.PricingOf | backend/core/llm_utils.py:13-22 | exactly the three listed models have a price; every other model name is unknown |
| LlmUtils.SpeechPricedLikeText | backend/core/llm_utils.py:13-22 | the speech model is billed at the same rates as gpt-4o-mini |
| LlmUtils.CountTokens | backend/core/llm_utils.py:25-52 | an empty text has no tokens; a "gpt" model uses the tokenizer's count of the text for the name without "-tts"; a failing tokenizer or another model falls back to a quarter of the characters, rounded down |
| LlmUtils.CalculateCost | backend/core/llm_utils.py:55-80 | an unknown model costs 0.0; a priced model costs its per-thousand rates times the token counts, rounded to six decimals |
| LlmUtils.CostWithinRounding | backend/core/llm_utils.py:55-80 | the returned cost is within half a millionth of a dollar of the exact price |
| LlmUtils.ZeroTokensFree | backend/core/llm_utils.py:55-80 | a call with no tokens costs 0.0 for every model |
| LlmUtils.GeminiIsFree | backend/core/llm_utils.py:13-22 | every Gemini call costs 0.0 |
| LlmUtils.CostNonNegative | backend/core/llm_utils.py:55-80 | no call with non-negative token counts gets a negative cost |
| LlmUtils.TrackLlmCall | backend/core/llm_utils.py:83-119 | the metadata holds exactly the tracked keys plus the caller's additional keys; an additional value overrides a tracked one, and every tracked key not overridden holds its computed value |
| LlmUtils.TrackedTotals | backend/core/llm_utils.py:83-119 | the tracked record holds the model, both token counts, their sum, the cost of those counts and the currency "USD" |
| LlmUtils.AdditionalMetadataWins | backend/core/llm_utils.py:108-117 | caller-supplied entries are added and override computed keys; computed keys the caller leaves alone keep their values |
| LlmUtils.EstimateMatchesTrackedCall | backend/core/llm_utils.py:122-135 | the estimate equals the tracked call's total cost when the response has the expected number of tokens |
| LlmUtils.EstimatePromptCost | backend/core/llm_utils.py:122-135 | an unpriced model costs 0; a non-negative expected response length never gives a negative estimate; an empty prompt costs just the expected response |
| LlmUtils.FormatCost | backend/core/llm_utils.py:138-151 | the text is "$", a minus sign exactly for a negative cost, and a number with four decimals below one cent (two otherwise) whose digits are the cost rounded to that many places, within half a unit of the last place |
| LiveCoach.PerformanceLabel | backend/api/services/live_coach_service.py:73-81 | Excellent exactly above 70, Good exactly from 50 to 70, Average exactly from 20 to below 50, Needs Work exactly below 20 |
| LiveCoach.LabelFollowsBand | backend/api/services/live_coach_service.py:73-81 | the label is the one for the score's band (above 70, from 50, from 20, below), and a higher score never gets a lower band |
| LiveCoach.FormatElapsedTime | backend/api/services/live_coach_service.py:84-92 | under a minute it is "N seconds"; a whole number of minutes is "N minute" or "N minutes"; otherwise "Mm Ss" with M and S the minutes and the remaining seconds |
| LiveCoach.WholeMinutes | backend/api/services/live_coach_service.py:88-91 | exactly one minute is singular and every other whole number of minutes is plural |
| LiveCoach.MinutesAndSeconds | backend/api/services/live_coach_service.py:88-92 | a time of m minutes (m at least 1) and r seconds (0 < r < 60) reads "<m>m <r>s", e.g. ninety seconds reads "1m 30s" |
| LiveCoach.OverallScore | backend/api/services/live_coach_service.py:124-126 | the overall score is the mean of the three metrics, so it stays on the 0-100 scale and is never below the smallest metric |
| LiveCoach.CoachingFeedbackFor | backend/api/services/live_coach_service.py:95-156 | the result carries the stripped reply, the label of the mean score, that mean rounded half to even (so within 0.5), the weakest area's name and the elapsed-time text |
| LiveCoach.SessionSummaryFor | backend/api/services/live_coach_service.py:159-223 | the summary carries the stripped reply, the label of the mean score, that mean rounded half to even (so within 0.5) and the duration text |
| LiveCoach.FeedbackAgreesWithSummary | backend/api/services/live_coach_service.py:124-156 | live feedback and the end-of-session summary give the same label, score and time text for the same metrics |
| MetricAreas.WeakestArea | backend/api/services/live_coach_service.py:141-147 | the chosen area has the least value, and every earlier area has a strictly larger value |
| MetricAreas.WeakestAreaUnique | backend/api/services/live_coach_service.py:141-147 | any area with the least value and no earlier area holding that value is the one chosen |
| MetricAreas.TiesFavourPitch | backend/api/services/live_coach_service.py:141-147 | pitch is the weakest area exactly when neither other value is lower than it, so a tie with pitch goes to pitch |
| ChatCoach.PracticeWeakest | website-interface/server/routers/chat.py:115-121 | the weakest area is pitch for a user with no sessions, otherwise the area with the least average (first on ties) |
| ChatCoach.PracticeDataOf | website-interface/server/routers/chat.py:74-132 | missing averages read as 0, the counts and scale rows pass through, and the weakest area is derived from the three averages |
| ChatCoach.WeakestHasLeastAverage | website-interface/server/routers/chat.py:115-121 | for a user with sessions, the reported weakest area names an area whose average is the least of the three |
| ChatCoach.ScanStop | website-interface/server/routers/chat.py:241-246 | the loop stops at the first row whose mean pitch score is below 0.8 or NULL (where the comparison raises), and runs to the end only when no row is either |
| ChatCoach.SuggestScale | website-interface/server/routers/chat.py:237-246 | the loop's outcome is the suggestion function: C Major, diatonic when it runs to the end; the stopping row's scale and stored type (None for a NULL type, since the query always selects the column) when that row needs work; the TypeError when that row's mean pitch score is NULL |
| ChatCoach.Suggestion | website-interface/server/routers/chat.py:237-246 | when every row passes the scan the default scale and type are suggested; a failure is the NULL-score error and some row has no average pitch score; any other suggestion is the scale and type of a row that needs work |
| ChatCoach.SuggestionCases | website-interface/server/routers/chat.py:241-246 | when every earlier row passes, a row with a NULL score makes the suggestion fail and a row below 0.8 is suggested with its stored type |
| ChatCoach.ScanStopIs | website-interface/server/routers/chat.py:241-246 | the first index at which the loop stops, with none before it, is the one the search finds |
| ChatCoach.ScoreKeyReadsTheArea | website-interface/server/routers/chat.py:248-255 | the score key built for an area reads that area's own average |
| ChatCoach.ExercisesFor | website-interface/server/routers/chat.py:219-235 | every area, and any unknown area through the pitch fallback, gets three exercises |
| ChatCoach.PlanFor | website-interface/server/routers/chat.py:210-261 | a plan is built exactly when the scale loop does not raise (otherwise the TypeError is the outcome), and it has three exercises, the 20-30 minute target and the suggested scale and type |
| ChatCoach.PlanTargetsWeakestArea | website-interface/server/routers/chat.py:212-259 | the plan names the weakest area by its display name, reports that area's average times 100 rounded half to even, as `round()` does, and carries that area's exercises |
| ChatCoach.DefaultSuggestion | website-interface/server/routers/chat.py:237-246 | with no practised scale below 0.8 and none with a NULL score the plan is built and suggests C Major, diatonic |
| ChatCoach.ExerciseLines | website-interface/server/routers/chat.py:279 | one "- " line per exercise, in order |
| ChatCoach.HeaderLinesUnbroken | website-interface/server/routers/chat.py:280-286 | none of the seven header lines holds a line break when the plan's text fields hold none |
| ChatCoach.PlanTextLines | website-interface/server/routers/chat.py:277-287 | split at line breaks, the saved text is the seven header lines followed by the exercise lines, so the text can be read back line by line |
| ChatCoach.FormatPlanText | website-interface/server/routers/chat.py:277-287 | the saved text opens with the "Practice Plan" title line and then the plan's focus-area line |
| ChatCoach.PlanTextOpening | website-interface/server/routers/chat.py:277-287 | joining the header lines and then the exercise lines gives a text that opens with the title line and the focus-area line |
| ChatCoach.ConfirmationOfPlainText | website-interface/server/routers/chat.py:311-319 | a lower-case message with no surrounding space is matched against the phrases as it is |
| ChatCoach.CheckForConfirmation | website-interface/server/routers/chat.py:311-319 | a blank message never confirms, and a message whose trimmed lower-case text contains any of the confirmation phrases always does |
| ChatCoach.OkIsListed | website-interface/server/routers/chat.py:313-316 | any text containing "ok" contains a confirmation phrase |
| ChatCoach.OkInsideAWordConfirms | website-interface/server/routers/chat.py:311-319 | the match is by substring, so a word that merely contains "ok" (such as "book") confirms |
| ChatCoach.NoDoesNotConfirm | website-interface/server/routers/chat.py:311-319 | the message "no" does not confirm |
| ChatCoach.IntentOf | website-interface/server/routers/chat.py:413-423 | progress words win, then comparison words, then practice words when no plan was saved this turn; each intent holds exactly when its condition does |
| ChatCoach.ProgressBeatsPractice | website-interface/server/routers/chat.py:416-423 | "show me a practice plan" shows the trend chart rather than a new plan |
| ChatCoach.PlanStore.constructor | website-interface/server/routers/chat.py:36 | the store starts with no pending plans |
| ChatCoach.PlanStore.Recommend | website-interface/server/routers/chat.py:210-274 | when the plan is built, the chart carries it and the thread's pending plan becomes that plan with its saved text, replacing any earlier one; when the scale loop raises, the error is returned and nothing is stored |
| ChatCoach.PlanStore.Confirm | website-interface/server/routers/chat.py:392-398 | a plan is saved exactly when the thread has one, the message confirms and the insert succeeds; only then is it dropped from the store |
| ChatCoach.PlanStore.Chat | website-interface/server/routers/chat.py:370-455 | the call fails exactly when a plan is requested and the scale loop raises, with "Chat failed: " and the error as its detail; otherwise the saved flag, the chart for the intent (no comparison without a latest session), the reply with its notes, the pending flag and the session context are as the turn's rules give; the pending plans are as the confirmation and the recommendation leave them in either case |
| ChatCoach.SavedPlanIsCleared | website-interface/server/routers/chat.py:392-423 | a turn that saves a plan leaves none pending for the thread and draws no new plan; a turn that does not save leaves the store as it was before intent routing |
| CreateDatasets.SkillLevel | evaluation/create_datasets.py:33-40 | advanced exactly when the mean of the three metrics is at least 0.8, intermediate from 0.5 below that, beginner below 0.5; a missing metric counts as 0 |
| CreateDatasets.SkillLevelMonotone | evaluation/create_datasets.py:33-40 | raising any of the three metrics never lowers the level |
| CreateDatasets.EmptyMetricsAreBeginner | evaluation/create_datasets.py:35 | with no metrics at all the level is beginner |
| CreateDatasets.AppendBatch | evaluation/create_datasets.py:114-115 | a slice taken where the earlier batches stop extends what they cover |
| CreateDatasets.InsertInBatches | evaluation/create_datasets.py:113-115 | the batches sent, concatenated, are exactly the items in order, and each batch is non-empty and holds at most the batch size |
| CreateDatasets.CoachingItemOf | evaluation/create_datasets.py:69-110 | the item's weakest area is the session's weakest area and also its expected focus; its skill level grades the session's metrics; its metrics dict holds the three areas |
| CreateDatasets.CoachingSkillIsMeanGrade | evaluation/create_datasets.py:73-82 | the item is advanced exactly when the session's mean score is at least 0.8, and beginner exactly when it is below 0.5 |
| CreateDatasets.HistoryAverage | evaluation/create_datasets.py:174-176 | a present non-zero average is kept, and a missing or zero average reads as 0.5 |
| CreateDatasets.ZeroHistoryReadsAsHalf | evaluation/create_datasets.py:174-176 | a user whose earlier sessions all scored 0 is recorded like one with no history, at 0.5 |
| CreateDatasets.HoursSince | evaluation/create_datasets.py:188-189 | the hours between generation and execution, or 0 when either time is missing |
| CreateDatasets.UserHistory | evaluation/create_datasets.py:193-198 | the history holds the three average keys and the session count |
| CreateDatasets.ExecutionMetrics | evaluation/create_datasets.py:206-210 | the execution metrics hold the three score keys |
| CreateDatasets.RecommendationItemOf | evaluation/create_datasets.py:157-224 | the item carries the history averages (0.5 when missing or zero), the executed scores, the plan's focus (pitch by default), scale (Unknown by default) and strictness (0.5 by default), the hours rounded to within 0.05, the expected completion and improvement flags both set, and the practice, session and user ids |
| CreateDatasets.UndecodablePlanFocusesPitch | evaluation/create_datasets.py:178-186 | a plan that is missing or does not decode is read as a pitch plan for an unknown scale |
| CreateDatasets.BuildProgressItems | evaluation/create_datasets.py:258-307 | the loop over users builds exactly the progress items of `ProgressItems`, in the users' order |
| CreateDatasets.ProgressItemOf | evaluation/create_datasets.py:258-307 | the item keeps the user id, the sessions and their count; the skill level is advanced exactly when the mean over the first three sessions is at least 0.8 and beginner exactly when it is below 0.5 |
| CreateDatasets.ProgressItems | evaluation/create_datasets.py:258-307 | there is at most one item per user; every user has one when all histories are long enough, and none does when all are too short |
| CreateDatasets.LongHistoriesKept | evaluation/create_datasets.py:273-299 | a user with at least ten sessions gets their item, whatever the other users' histories |
| CreateDatasets.ProgressItemsQualify | evaluation/create_datasets.py:273-305 | every item is for a user with at least ten sessions, counts all of them, and starts at the grade of the mean of the first three sessions |
| CreateDatasets.ShortHistoriesSkipped | evaluation/create_datasets.py:273 | a user with fewer than ten sessions gets no item |
| CustomMetrics.HeuristicValue | evaluation/custom_metrics.py:111-139 | the heuristic score lies in [0.5, 1], is 0.5 exactly when no check passes and 1 exactly when all four pass |
| CustomMetrics.HeuristicMonotone | evaluation/custom_metrics.py:116-137 | passing more checks never lowers the score and never shortens the list of reasons |
| CustomMetrics.HeuristicScore | evaluation/custom_metrics.py:104-145 | the loop's score is the heuristic value of the four checks on the lower-cased feedback, and its reason lists the passing checks in order, or "Baseline score" |
| CustomMetrics.ImprovementScore | evaluation/custom_metrics.py:184-197 | the score lies in [0, 1]; it is 0.5 with no baseline, otherwise 0.5 plus 2.5 times the relative change, clamped |
| CustomMetrics.ImprovementLandmarks | evaluation/custom_metrics.py:155-158 | a 20% gain scores 1, no change scores 0.5 and a 20% loss scores 0 |
| CustomMetrics.ImprovementDirection | evaluation/custom_metrics.py:191-197 | with a positive baseline a gain scores above 0.5 and a loss below it |
| CustomMetrics.RecommendationAccuracyAlwaysHalf | evaluation/custom_metrics.py:176-189 | on every recommendation dataset item whose focus is not "avg_pitch" the score as written is 0.5, because the "<focus>_accuracy" key is never in the stored history |
| CustomMetrics.RecommendationAccuracyAsWritten | evaluation/custom_metrics.py:167-209 | the score lies in [0, 1], and it is 0.5 whenever the history has no "<focus>_accuracy" key |
| CustomMetrics.HistoryKeysNeverMatch | evaluation/create_datasets.py:193-198 | no focus name followed by "_accuracy" (other than "avg_pitch") is one of the history keys the dataset writes |
| CustomMetrics.RecommendationAccuracy | evaluation/custom_metrics.py:167-209 | the corrected score, reading each area under the key the dataset stores it with, lies in [0, 1] |
| CustomMetrics.HistoryKeyReadsTheArea | evaluation/create_datasets.py:193-198 | the corrected history key finds each area's stored average |
| CustomMetrics.MetricKeyReadsTheArea | evaluation/create_datasets.py:206-210 | the corrected metric key finds each area's executed score |
| CustomMetrics.RecommendationAccuracyMeasuresChange | evaluation/custom_metrics.py:148-209 | on a dataset item, the corrected score compares the area's earlier average with its executed score: a gain scores above 0.5 and a loss below |
| CustomMetrics.CompletionScore | evaluation/custom_metrics.py:226-256 | the score is 1.0, 0.5 or 0.0 exactly when the status is completed, pending or expired |
| CustomMetrics.CompletionCases | evaluation/custom_metrics.py:235-256 | an executed plan scores 1 at any age; an unexecuted one scores 0.5 inside the window and 0 from its end; a missing flag counts as not executed |
| CustomMetrics.CompletionNeverRisesWithAge | evaluation/custom_metrics.py:238-256 | waiting longer never raises a plan's score |
| CustomMetrics.DatasetItemsScoreComplete | evaluation/custom_metrics.py:234-256 | every recommendation dataset item carries the completion flag (evaluation/create_datasets.py:213-216), so its completion score is 1 with status completed at any age and under any window |
| CustomMetrics.LearningProgress | evaluation/custom_metrics.py:278-317 | the score lies in [0, 1] and is 0.5 with fewer than two sessions; otherwise, with the gain of the later half's mean over the earlier half's, it is 0.5 exactly for no change, above 0.5 exactly for a gain, 1 exactly for a gain of at least 0.1, 0 exactly for a loss of at least 0.1, and 0.5 plus five times the gain in between |
| CustomMetrics.SumOfEqual | evaluation/custom_metrics.py:310-311 | sessions that all perform alike sum to their count times that performance |
| CustomMetrics.SteadyHistoryScoresHalf | evaluation/custom_metrics.py:296-317 | a history in which every session performs the same has no gain between its halves and scores exactly 0.5 |
| PlanQuality.NextBrace | evaluations/web-backend/metrics/practice_plan_quality.py:59 | the first brace at or after a position, with no brace before it, or the end of the text |
| PlanQuality.MatchShape | evaluations/web-backend/metrics/practice_plan_quality.py:59 | a match opens and closes with a brace, has no brace in between, mentions "focus_area" in quotes and is a piece of the text |
| PlanQuality.SearchIsLeftmost | evaluations/web-backend/metrics/practice_plan_quality.py:59 | the search returns the leftmost match, and returns nothing only when no position matches |
| PlanQuality.SearchSkipsPlainText | evaluations/web-backend/metrics/practice_plan_quality.py:59 | text without an opening brace can be skipped without changing the result |
| PlanQuality.FirstObjectIsFound | evaluations/web-backend/metrics/practice_plan_quality.py:59-68 | a brace-free object that mentions the key and opens at the first opening brace is the extracted plan, whatever follows it |
| PlanQuality.MissingFields | evaluations/web-backend/metrics/practice_plan_quality.py:72-81 | the list is empty exactly when all six required fields are present, and holds only absent fields |
| PlanQuality.Issues | evaluations/web-backend/metrics/practice_plan_quality.py:89-116 | there are no issues exactly when every field has the right type and range (non-blank strings, a score in 0..100, a non-empty list of non-blank exercises) |
| PlanQuality.GradePlan | evaluations/web-backend/metrics/practice_plan_quality.py:81-130 | the grade is 0.3 exactly when a field is missing, 0.5 exactly when all are present but one is invalid, and 1.0 exactly when the plan is valid |
| PlanQuality.PlanQualityScore | evaluations/web-backend/metrics/practice_plan_quality.py:38-137 | there is no score exactly when the query asks for no plan; otherwise 0.0 without a plan object, 0.1 when it does not decode, else the grade of the decoded plan |
| PlanQuality.ScoreIsAGrade | evaluations/web-backend/metrics/practice_plan_quality.py:61-137 | every score given is one of 0.0, 0.1, 0.3, 0.5 and 1.0 |
| PlanQuality.BooleanScoreAccepted | evaluations/web-backend/metrics/practice_plan_quality.py:97 | a boolean current score passes the range check, because a Python bool is an int |
| PlanQuality.BlankExerciseFails | evaluations/web-backend/metrics/practice_plan_quality.py:112-123 | a plan with a whitespace-only exercise grades 0.5 |
| ResponseCompleteness.CompletenessScore | evaluations/web-backend/metrics/response_completeness.py:22-114 | no score exactly for an AI greeting; 0.0 for a blank reply; 0.2 exactly with an error phrase; 0.4 exactly when shorter than 50 characters; 1.0, 0.8, 0.7 and 0.6 each exactly for its combination of action words and length of at least 100 |
| ResponseCompleteness.WhitespaceScoresZero | evaluations/web-backend/metrics/response_completeness.py:39-44 | a reply of only whitespace scores 0 with "Empty response", like a missing one |
| ResponseCompleteness.LongerNeverWorse | evaluations/web-backend/metrics/response_completeness.py:59-114 | a longer reply with the same error and action phrases never scores lower |
| ResponseCompleteness.ActionableNeverWorse | evaluations/web-backend/metrics/response_completeness.py:89-114 | among error-free replies of the same length, one with action words never scores lower |
| EnvLoader.DefinedKeyIsClean | application/electron/main.js:17-21 | a key that a line defines is never empty and holds no '=' |
| EnvLoader.Entries | application/electron/main.js:16-24 | there is one entry per line, and each is the assignment that line makes |
| EnvLoader.AssignAllKeepsKeys | application/electron/main.js:16-24 | applying the lines only adds or overwrites variables: every inherited key is still present |
| EnvLoader.LoadEnvFile | application/electron/main.js:10-32 | the result is the process environment with the file's lines applied in order, or the process environment unchanged when there is no file |
| EnvLoader.LoadedEnv | application/electron/main.js:10-32 | without a file the environment is the process environment, and with one every process variable is still defined |
| EnvLoader.ApplyLines | application/electron/main.js:16-24 | the loop applies every line's assignment in order, as the fold over the lines does |
| EnvLoader.AssignNext | application/electron/main.js:16-24 | applying one more line extends the fold by that line's assignment |
| EnvLoader.LastAssignmentWins | application/electron/main.js:16-24 | the last assignment to a key decides its value |
| EnvLoader.UnassignedKeepsInherited | application/electron/main.js:12-24 | a key that is never assigned keeps its inherited value, and no key appears from nowhere |
| EnvLoader.LaterLinesOverride | application/electron/main.js:10-32 | of the file's lines the last that defines a key decides its value; a key no line defines keeps the process environment's value or stays absent |
| EnvLoader.ValueMayContainEquals | application/electron/main.js:19-21 | a line "key=value" sets exactly that key to the trimmed value, even when the value contains '=' |

## Left out

- Threads, the buffer lock, `asyncio` sleeps and the cadence of the processing loops. Each loop is modelled as one pass (`ProcessAudioIteration`, `AudioProcessor.ProcessFrame`), and interleavings are not modelled.
- Signal processing: FFT peak picking, the Hz-to-MIDI conversion, standard deviation, variance and `exp`. These are foreign numerical code, so their results are parameters.
- `calculate_scale_coverage`, `calculate_note_timing_stability` and `detect_note_onset` are not part of this model. The frame step takes the first two as function parameters; the third is never called by the modelled code.
- Floating point: every number is an exact real. NaN, infinities and binary rounding are not modelled, including NaN or Infinity in decoded JSON.
- `enabled_metrics` is stored on the audio state, but the processing loop never passes it to the frame step. The model therefore passes None there, as the code does; an explicit per-metric map is modelled only in the weighting functions.
- An out-of-range or negative `guitar_channel`: numpy either raises or wraps around. The callbacks require a channel index that every frame has.
- `outdata[:] = 0` in the terminal front end's callback. Silencing the output stream has no effect on any modelled state.
- A `scale_type` stored as an explicit JSON null. Only a present string or an absent key is modelled; `Option` cannot tell a null from a missing key.
- In the evaluation datasets, a plan field stored as JSON null is likewise read as missing.
- Turning the bulb on, its network protocol and its failures: `set_bulb_color` catches and prints every exception, so a failed send is recorded by the throttle like any other.
- Console output, debug sampling with `random.random()`, Opik tracing decorators and thread identifiers.
- The saved-plan note in `chat` is written in the source as a mis-encoded check mark. The model uses the intended character U+2705.
- The generic `except Exception` paths are not modelled: the database, the language model, the dataset service, and plan-quality or completeness scoring on a None reply. Only the failure outcomes the code distinguishes are modelled, such as a failed plan save or a JSON decode error.
- Plan quality with a None query is not modelled; the query is a string.
- Default arguments are not modelled as defaults; every call passes each argument explicitly. These are `model="gpt-4o-mini"` of `count_tokens` and `estimate_prompt_cost` (backend/core/llm_utils.py:25, 122), `expected_output_tokens=100` of `estimate_prompt_cost`, and `user_id=None`, `ambient_lighting=True` and `scale_type="natural"` of `start_session` (backend/core/session_logger.py:237-245).
- The language-model judge path of `CoachingHelpfulness` is not modelled, and nor are the LLM-only metrics `ResponseRelevance` and `SafetyModeration`. Only the heuristic fallback is modelled.
- The chart contents of the progress and comparison charts, built from database rows, are not modelled. The model records which chart is shown.
- `build_system_prompt` and the prompt texts of the coaches are not modelled.
- The append loops that build the coaching and recommendation dataset items are modelled as per-row functions. The learning-progress loop and the batch-insert loop are modelled as methods.
- The tiktoken branch of `count_tokens` is a parameter, because the tokenizer is foreign code.
- `lower()` is modelled on ASCII letters only. Other scripts' case mappings are not modelled.
- Identifiers (`uuid4`), timestamps (`datetime.now()`, `time.time()`) and database connections are parameters.
- `SessionLogger.connect`, `ensure_tables_exist`, `get_session_stats`, `get_user_sessions` and `close` are not modelled. `EndSession` returns the row it would insert.
- `SQLLoader._load_files` is not modelled: file contents are a parameter.
- The Electron window, IPC and Python child-process plumbing in `main.js` is not modelled, and nor is its console logging.
- The UI components are not modelled.
- The legacy `backend/api/audio_processing.py` and `backend/api/app_state.py` are not modelled.
- The interactive prompts of the terminal front end and the menu's re-prompt loop are not modelled. `Scales.MenuChoice` models one answer.
- `ApiAudioProcessor.StartProcessing`: the modelled processing loop runs the corrected lookup `TargetPitchClasses`. Line 84 of backend/api/services/audio_processor.py calls the lookup as written (lines 61-70), so a "diatonic" session there targets the five pentatonic classes where the model targets seven. The as-written lookup is `ApiAudioProcessor.TargetPitchClassesAsWritten`, and the discrepancy is the first row under Findings.
- `AudioMetrics.QualityState.ProcessAudioFrame`: the frame features carry `noteDetected` as the extractor reports it. As written, `pitch_correctness` (backend/core/audio_features.py:28-33) never puts a "note_detected" key in its debug dictionary, so backend/core/audio_metrics.py:189 always reads False. No frame then counts a note, records an onset or clears the "Play a note..." feedback. The model does not capture that dead path: `AudioFeatures.PitchDebug` has no such field, and `noteDetected` is an input.
- `CreateDatasets.BuildProgressItems`: the session rows hold real metrics (`CreateDatasets.SessionRow`), so a stored NULL `scale_conformity` or `timing_stability` is not modelled. In the source, evaluation/create_datasets.py:291 raises a TypeError when one of the first three sessions has such a NULL, because the query at line 251 filters only on `pitch_accuracy`.
- A NULL `scale_chosen` in the chat coach's practice history is not modelled; the scale name is a string.
- `CreateDatasets.RecommendationItemOf`: the execution metrics are reals (`CreateDatasets.RecommendationRow`), so a NULL `scale_conformity` or `timing_stability` of the executed session is not modelled and an item is always built. In the source the query at evaluation/create_datasets.py:142 filters only on `pitch_accuracy`, and `round(None, 3)` at lines 207-208 raises a TypeError.
- `CreateDatasets.RecommendationItemOf`: the hours since generation are stated within 0.05 of the exact value rather than as the half-to-even rounding to one decimal.
- `CustomMetrics.LearningProgress`: a session metric stored as JSON null is read as 0, like a missing key (`CustomMetrics.SessionScores` holds an `Option`). In the source, `session.get(..., 0)` returns None for such a value and the sum at evaluation/custom_metrics.py:298-301 raises a TypeError.

## Findings

| source | as written | input that shows it | evidently intended | confidence | as-written member | corrected member |
|---|---|---|---|---|---|---|
| backend/api/services/audio_processor.py:61-70 | the diatonic tables are chosen only for scale type "natural"; every other type, including "diatonic", the default of `AudioConfig` (backend/api/models.py:26), selects the pentatonic tables | a session configured as "C Major" with no scale type: the type becomes "diatonic" and the targets are {0, 2, 4, 7, 9} instead of the seven notes of C major | "diatonic" selects the seven-note tables, like "natural" | not executed | ApiAudioProcessor.DefaultTypeScoresPentatonic | ApiAudioProcessor.TargetPitchClassesOfScale |
| evaluation/custom_metrics.py:176-189 | the baseline is read from `user_history` under "<focus>_accuracy", but the dataset writes the history under "avg_pitch_accuracy", "avg_scale_conformity" and "avg_timing_stability" (evaluation/create_datasets.py:193-198) | every recommendation item whose focus is not "avg_pitch", e.g. focus "pitch" with a stored average of 0.7 and an executed score of 0.9: the key "pitch_accuracy" is absent, the baseline reads as 0 and the score is 0.5 | the area's stored average is compared with the executed score, so a gain scores above 0.5 and a loss below | not executed | CustomMetrics.RecommendationAccuracyAlwaysHalf | CustomMetrics.RecommendationAccuracyMeasuresChange |
