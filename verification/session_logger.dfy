/**
 * The session logger's two in-memory parts: the parser that splits the named
 * queries file into `-- name:` sections, and the accumulator that sums the
 * metrics of a running session and averages them when it ends.
 *
 * Reading the SQL files, the uuid generator, the clock and every database
 * statement are outside the model: file contents, session ids and clock
 * readings are parameters, and `EndSession` returns the row it would insert.
 */
module SessionLogging {
  import opened Wrappers
  import opened PyText

  // ---------------------------------------------------------------------------
  // The named-query parser
  // ---------------------------------------------------------------------------

  const HEADER: string := "-- name:"
  const COMMENT: string := "--"

  /** A line opening a new section. */
  predicate IsHeader(line: string) {
    StartsWith(Strip(line), HEADER)
  }

  /** A description line inside a section, never kept. */
  predicate IsComment(line: string) {
    StartsWith(Strip(line), COMMENT)
  }

  /** The section name a header line gives: the marker removed, whitespace stripped. */
  function HeaderName(line: string): string {
    Strip(ReplaceAll(Strip(line), HEADER, ""))
  }

  /** The SQL text kept for a section: its lines joined with newlines, stripped. */
  function SqlText(body: seq<string>): string {
    Strip(Join(body, "\n"))
  }

  /** The parser's variables between two lines: the open section's name and lines, and the queries so far. */
  datatype ParseState = ParseState(name: Option<string>, body: seq<string>, queries: map<string, string>)

  /** Saving the open section, which happens only for a non-empty name with at least one line. */
  function Flush(st: ParseState): (queries: map<string, string>)
    ensures st.name.Some? && st.name.value != "" && st.body != [] ==>
      queries == st.queries[st.name.value := SqlText(st.body)]
    ensures !(st.name.Some? && st.name.value != "" && st.body != []) ==> queries == st.queries
  {
    if st.name.Some? && st.name.value != "" && st.body != [] then st.queries[st.name.value := SqlText(st.body)]
    else st.queries
  }

  /** One line of `_parse_queries`. */
  function Step(st: ParseState, line: string): ParseState {
    if IsHeader(line) then ParseState(Some(HeaderName(line)), [], Flush(st))
    else if st.name.Some? then (if IsComment(line) then st else st.(body := st.body + [line]))
    else st
  }

  /** The parser's variables after the given lines. */
  function Run(st: ParseState, lines: seq<string>): ParseState
    decreases |lines|
  {
    if lines == [] then st else Step(Run(st, lines[..|lines| - 1]), lines[|lines| - 1])
  }

  const START := ParseState(None, [], map[])

  /** The queries `_parse_queries` leaves, starting from `queries`, after the given lines. */
  function ParseLines(queries: map<string, string>, lines: seq<string>): map<string, string> {
    Flush(Run(START.(queries := queries), lines))
  }

  lemma RunOneMore(st: ParseState, lines: seq<string>, i: nat)
    requires i < |lines|
    ensures Run(st, lines[..i + 1]) == Step(Run(st, lines[..i]), lines[i])
  {
    assert lines[..i + 1][..i] == lines[..i];
  }

  lemma {:induction false} RunAppend(st: ParseState, a: seq<string>, b: seq<string>)
    ensures Run(st, a + b) == Run(Run(st, a), b)
    decreases |b|
  {
    if b == [] {
      assert a + b == a;
    } else {
      var c := b[..|b| - 1];
      assert (a + b)[..|a + b| - 1] == a + c;
      RunAppend(st, a, c);
    }
  }

  /** Before the first header no section is open, so nothing happens. */
  lemma {:induction false} NoHeaderNoChange(st: ParseState, lines: seq<string>)
    requires st.name.None?
    requires forall k :: 0 <= k < |lines| ==> !IsHeader(lines[k])
    ensures Run(st, lines) == st
    decreases |lines|
  {
    if lines != [] {
      NoHeaderNoChange(st, lines[..|lines| - 1]);
    }
  }

  /** Lines before the first header are ignored. */
  lemma {:induction false} PreambleIgnored(queries: map<string, string>, preamble: seq<string>, rest: seq<string>)
    requires forall k :: 0 <= k < |preamble| ==> !IsHeader(preamble[k])
    ensures ParseLines(queries, preamble + rest) == ParseLines(queries, rest)
  {
    RunAppend(START.(queries := queries), preamble, rest);
    NoHeaderNoChange(START.(queries := queries), preamble);
  }

  /** Inside an open section, plain lines are collected in order. */
  lemma {:induction false} BodyLinesCollected(st: ParseState, lines: seq<string>)
    requires st.name.Some?
    requires forall k :: 0 <= k < |lines| ==> !IsHeader(lines[k]) && !IsComment(lines[k])
    ensures Run(st, lines) == st.(body := st.body + lines)
    decreases |lines|
  {
    if lines == [] {
      assert st.body + lines == st.body;
    } else {
      BodyLinesCollected(st, lines[..|lines| - 1]);
      assert st.body + lines[..|lines| - 1] + [lines[|lines| - 1]] == st.body + lines;
    }
  }

  /** Inside an open section, comment lines are skipped. */
  lemma {:induction false} CommentLinesSkipped(st: ParseState, lines: seq<string>)
    requires st.name.Some?
    requires forall k :: 0 <= k < |lines| ==> !IsHeader(lines[k]) && IsComment(lines[k])
    ensures Run(st, lines) == st
    decreases |lines|
  {
    if lines != [] {
      CommentLinesSkipped(st, lines[..|lines| - 1]);
    }
  }

  /** A header, then plain lines: the section is opened and holds exactly those lines. */
  lemma {:induction false} OpenSection(queries: map<string, string>, header: string, body: seq<string>)
    requires IsHeader(header)
    requires forall k :: 0 <= k < |body| ==> !IsHeader(body[k]) && !IsComment(body[k])
    ensures Run(START.(queries := queries), [header] + body)
      == ParseState(Some(HeaderName(header)), body, queries)
  {
    var st := START.(queries := queries);
    RunAppend(st, [header], body);
    assert [header][..0] == [];
    assert Run(st, [header]) == ParseState(Some(HeaderName(header)), [], queries);
    BodyLinesCollected(ParseState(Some(HeaderName(header)), [], queries), body);
  }

  /**
   * A header with a non-empty name followed by plain lines stores those
   * lines, joined and stripped, under that name.
   */
  lemma {:induction false} SectionStored(queries: map<string, string>, header: string, body: seq<string>)
    requires IsHeader(header) && HeaderName(header) != "" && body != []
    requires forall k :: 0 <= k < |body| ==> !IsHeader(body[k]) && !IsComment(body[k])
    ensures ParseLines(queries, [header] + body) == queries[HeaderName(header) := SqlText(body)]
  {
    OpenSection(queries, header, body);
  }

  /** A header followed only by comment lines stores nothing. */
  lemma {:induction false} EmptySectionNotStored(queries: map<string, string>, header: string, comments: seq<string>)
    requires IsHeader(header)
    requires forall k :: 0 <= k < |comments| ==> !IsHeader(comments[k]) && IsComment(comments[k])
    ensures ParseLines(queries, [header] + comments) == queries
  {
    var st := START.(queries := queries);
    RunAppend(st, [header], comments);
    assert [header][..0] == [];
    CommentLinesSkipped(ParseState(Some(HeaderName(header)), [], queries), comments);
  }

  /** A header whose name strips to nothing stores nothing, whatever follows. */
  lemma {:induction false} UnnamedSectionNotStored(queries: map<string, string>, header: string, body: seq<string>)
    requires IsHeader(header) && HeaderName(header) == ""
    requires forall k :: 0 <= k < |body| ==> !IsHeader(body[k]) && !IsComment(body[k])
    ensures ParseLines(queries, [header] + body) == queries
  {
    OpenSection(queries, header, body);
  }

  /** When a name repeats, the later section replaces the earlier one. */
  lemma {:induction false} LaterSectionWins(queries: map<string, string>, first: string, body1: seq<string>,
                                            second: string, body2: seq<string>)
    requires IsHeader(first) && IsHeader(second) && HeaderName(first) == HeaderName(second) != ""
    requires body1 != [] && body2 != []
    requires forall k :: 0 <= k < |body1| ==> !IsHeader(body1[k]) && !IsComment(body1[k])
    requires forall k :: 0 <= k < |body2| ==> !IsHeader(body2[k]) && !IsComment(body2[k])
    ensures ParseLines(queries, ([first] + body1) + ([second] + body2))
         == queries[HeaderName(second) := SqlText(body2)]
  {
    var name := HeaderName(first);
    var st := START.(queries := queries);
    OpenSection(queries, first, body1);
    var st1 := ParseState(Some(name), body1, queries);
    SectionAfter(st1, second, body2);
    RunAppend(st, [first] + body1, [second] + body2);
    Overwrite(queries, name, SqlText(body1), SqlText(body2));
  }

  /** A header followed by plain lines flushes the open section and collects the lines. */
  lemma SectionAfter(st: ParseState, header: string, body: seq<string>)
    requires IsHeader(header)
    requires forall k :: 0 <= k < |body| ==> !IsHeader(body[k]) && !IsComment(body[k])
    ensures Run(st, [header] + body) == ParseState(Some(HeaderName(header)), body, Flush(st))
  {
    RunAppend(st, [header], body);
    HeaderFlushes(st, header);
    BodyLinesCollected(ParseState(Some(HeaderName(header)), [], Flush(st)), body);
    assert [] + body == body;
  }

  lemma HeaderFlushes(st: ParseState, header: string)
    requires IsHeader(header)
    ensures Run(st, [header]) == ParseState(Some(HeaderName(header)), [], Flush(st))
  {
    assert [header][..0] == [];
  }

  lemma Overwrite<K, V>(m: map<K, V>, k: K, v1: V, v2: V)
    ensures m[k := v1][k := v2] == m[k := v2]
  {
  }

  /** No comment line is ever among a section's kept lines. */
  predicate CleanBody(st: ParseState) {
    forall k :: 0 <= k < |st.body| ==> !IsComment(st.body[k])
  }

  /** Every name the parser adds is non-empty and holds the stripped text of comment-free lines. */
  ghost predicate SqlOf(body: seq<string>, sql: string) {
    body != [] && (forall k :: 0 <= k < |body| ==> !IsComment(body[k])) && sql == SqlText(body)
  }

  ghost predicate AddedFromSections(before: map<string, string>, after: map<string, string>) {
    forall name :: name in after ==>
      (name in before && after[name] == before[name]) || (name != "" && exists body :: SqlOf(body, after[name]))
  }

  lemma FlushKeepsSectionsClean(queries: map<string, string>, st: ParseState)
    requires CleanBody(st) && AddedFromSections(queries, st.queries)
    ensures AddedFromSections(queries, Flush(st))
  {
    if st.name.Some? && st.name.value != "" && st.body != [] {
      assert SqlOf(st.body, SqlText(st.body));
      forall name | name in Flush(st)
        ensures (name in queries && Flush(st)[name] == queries[name]) ||
                (name != "" && exists body :: SqlOf(body, Flush(st)[name]))
      {
        if name == st.name.value {
          assert SqlOf(st.body, Flush(st)[name]);
        }
      }
    }
  }

  lemma StepKeepsSectionsClean(queries: map<string, string>, st: ParseState, line: string)
    requires CleanBody(st) && AddedFromSections(queries, st.queries)
    ensures CleanBody(Step(st, line)) && AddedFromSections(queries, Step(st, line).queries)
  {
    if IsHeader(line) {
      FlushKeepsSectionsClean(queries, st);
    }
  }

  lemma {:induction false} RunKeepsSectionsClean(queries: map<string, string>, lines: seq<string>)
    ensures CleanBody(Run(START.(queries := queries), lines))
    ensures AddedFromSections(queries, Run(START.(queries := queries), lines).queries)
    decreases |lines|
  {
    if lines != [] {
      var prev := Run(START.(queries := queries), lines[..|lines| - 1]);
      RunKeepsSectionsClean(queries, lines[..|lines| - 1]);
      StepKeepsSectionsClean(queries, prev, lines[|lines| - 1]);
    }
  }

  /**
   * Whatever the file, every query the parser adds has a non-empty name and
   * is the stripped text of a non-empty run of lines none of which is a
   * comment; every other entry is what was there before.
   */
  lemma {:induction false} ParsedQueriesComeFromSections(queries: map<string, string>, lines: seq<string>)
    ensures AddedFromSections(queries, ParseLines(queries, lines))
  {
    RunKeepsSectionsClean(queries, lines);
    FlushKeepsSectionsClean(queries, Run(START.(queries := queries), lines));
  }

  /** `SQLLoader`: the schema text and the named queries read from the SQL directory. */
  class SqlLoader {
    var schema: Option<string>
    var queries: map<string, string>

    /** Loading with the two files' contents (None for a file that does not exist). */
    constructor(schemaText: Option<string>, queriesText: Option<string>)
      ensures schema == schemaText
      ensures queries == if queriesText.Some? then ParseLines(map[], Split(queriesText.value, '\n')) else map[]
    {
      schema := schemaText;
      queries := map[];
      new;
      if queriesText.Some? {
        ParseQueries(queriesText.value);
      }
    }

    /** `_parse_queries(content)`: the sections of the file added to the queries. */
    method ParseQueries(content: string)
      modifies this
      ensures queries == ParseLines(old(queries), Split(content, '\n'))
      ensures schema == old(schema)
    {
      ParseLinesOf(Split(content, '\n'));
    }

    /** The loop of `_parse_queries` over the file's lines, and the flush of the last section. */
    method ParseLinesOf(lines: seq<string>)
      modifies this
      ensures queries == ParseLines(old(queries), lines)
      ensures schema == old(schema)
    {
      var currentName: Option<string> := None;
      var currentSql: seq<string> := [];
      ghost var start := START.(queries := queries);
      for i := 0 to |lines|
        invariant ParseState(currentName, currentSql, queries) == Run(start, lines[..i])
        invariant schema == old(schema)
      {
        RunOneMore(start, lines, i);
        currentName, currentSql := ParseLine(lines[i], currentName, currentSql);
      }
      assert lines[..|lines|] == lines;
      if currentName.Some? && currentName.value != "" && currentSql != [] {
        queries := queries[currentName.value := Strip(Join(currentSql, "\n"))];
      }
    }

    /** One pass of the loop: a header flushes the open section and opens a new one; other lines join it. */
    method ParseLine(line: string, name: Option<string>, sql: seq<string>)
      returns (nextName: Option<string>, nextSql: seq<string>)
      modifies this
      ensures ParseState(nextName, nextSql, queries) == Step(ParseState(name, sql, old(queries)), line)
      ensures schema == old(schema)
    {
      ghost var before := ParseState(name, sql, queries);
      nextName, nextSql := name, sql;
      var stripped := Strip(line);
      if StartsWith(stripped, HEADER) {
        if name.Some? && name.value != "" && sql != [] {
          queries := queries[name.value := Strip(Join(sql, "\n"))];
        }
        assert queries == Flush(before);
        nextName := Some(Strip(ReplaceAll(stripped, HEADER, "")));
        nextSql := [];
      } else if name.Some? {
        if !StartsWith(stripped, COMMENT) {
          nextSql := sql + [line];
        }
      }
    }

    /** `get_query(name)` */
    function GetQuery(name: string): (r: Option<string>)
      reads this
      ensures r.Some? <==> name in queries
      ensures r.Some? ==> r.value == queries[name]
    {
      if name in queries then Some(queries[name]) else None
    }
  }

  // ---------------------------------------------------------------------------
  // The metric accumulator
  // ---------------------------------------------------------------------------

  /** The note fields of the debug record passed to `log_metric`. */
  datatype NoteInfo = NoteInfo(noteDetected: bool, inScale: bool, pitchClass: Option<int>)

  /** One session's entry in `session_data`. */
  datatype SessionRecord = SessionRecord(
    sessionId: string,
    userId: string,
    startTimestamp: real,
    scaleChosen: string,
    scaleType: string,
    strictness: real,
    sensitivity: real,
    ambientLightOption: bool,
    pitchAccuracySum: real,
    scaleConformitySum: real,
    timingStabilitySum: real,
    metricCount: nat,
    totalNotesPlayed: nat,
    correctNotesPlayed: nat,
    badNotesPlayed: nat,
    totalInscaleNotes: int)

  /** The row `end_session` writes. */
  datatype SessionRow = SessionRow(
    sessionId: string,
    userId: string,
    startTimestamp: real,
    endTimestamp: real,
    pitchAccuracy: real,
    scaleConformity: real,
    timingStability: real,
    scaleChosen: string,
    scaleType: string,
    sensitivity: real,
    strictness: real,
    totalNotesPlayed: nat,
    correctNotesPlayed: nat,
    badNotesPlayed: nat,
    totalInscaleNotes: int,
    durationSeconds: real,
    ambientLightOption: bool)

  const DEFAULT_USER: string := "default_user"

  /** The entry `start_session` creates: the settings, zero sums and zero counters. */
  function NewRecord(sessionId: string, now: real, scaleName: string, strictness: real, sensitivity: real,
                     userId: Option<string>, ambientLighting: bool, scaleType: string): (r: SessionRecord)
    ensures r.metricCount == 0 && r.totalNotesPlayed == 0 && r.correctNotesPlayed == 0 && r.badNotesPlayed == 0
    ensures r.pitchAccuracySum == 0.0 && r.scaleConformitySum == 0.0 && r.timingStabilitySum == 0.0
    ensures r.userId == if userId.Some? && userId.value != "" then userId.value else DEFAULT_USER
  {
    SessionRecord(sessionId, if userId.Some? && userId.value != "" then userId.value else DEFAULT_USER,
                  now, scaleName, scaleType, strictness, sensitivity, ambientLighting,
                  0.0, 0.0, 0.0, 0, 0, 0, 0, 0)
  }

  /** One sample of `log_metric`: the three metrics and the optional note fields. */
  datatype MetricSample = MetricSample(pitchAccuracy: real, scaleConformity: real, timingStability: real,
                                       info: Option<NoteInfo>)

  /** The entry after one `log_metric` call. */
  function Logged(r: SessionRecord, m: MetricSample): SessionRecord {
    var counted := r.(pitchAccuracySum := r.pitchAccuracySum + m.pitchAccuracy,
                      scaleConformitySum := r.scaleConformitySum + m.scaleConformity,
                      timingStabilitySum := r.timingStabilitySum + m.timingStability,
                      metricCount := r.metricCount + 1);
    if m.info.Some? && m.info.value.noteDetected then
      if m.info.value.inScale then
        counted.(totalNotesPlayed := r.totalNotesPlayed + 1, correctNotesPlayed := r.correctNotesPlayed + 1)
      else
        counted.(totalNotesPlayed := r.totalNotesPlayed + 1, badNotesPlayed := r.badNotesPlayed + 1)
    else counted
  }

  /** Every played note is either correct or bad. */
  predicate Balanced(r: SessionRecord) {
    r.totalNotesPlayed == r.correctNotesPlayed + r.badNotesPlayed
  }

  /**
   * One sample adds one to the metric count and its values to the sums;
   * the note counters move only for a detected note, by one, and stay
   * balanced; the settings stay.
   */
  lemma LoggedCounts(r: SessionRecord, m: MetricSample)
    ensures var n := Logged(r, m);
      n.metricCount == r.metricCount + 1 &&
      n.pitchAccuracySum == r.pitchAccuracySum + m.pitchAccuracy &&
      n.scaleConformitySum == r.scaleConformitySum + m.scaleConformity &&
      n.timingStabilitySum == r.timingStabilitySum + m.timingStability &&
      n.totalNotesPlayed == r.totalNotesPlayed + (if m.info.Some? && m.info.value.noteDetected then 1 else 0) &&
      (Balanced(r) ==> Balanced(n)) &&
      n.(pitchAccuracySum := 0.0, scaleConformitySum := 0.0, timingStabilitySum := 0.0, metricCount := 0,
         totalNotesPlayed := 0, correctNotesPlayed := 0, badNotesPlayed := 0)
        == r.(pitchAccuracySum := 0.0, scaleConformitySum := 0.0, timingStabilitySum := 0.0, metricCount := 0,
              totalNotesPlayed := 0, correctNotesPlayed := 0, badNotesPlayed := 0)
  {
  }

  /** `log_metric` applied to the samples in order. */
  function LoggedAll(r: SessionRecord, samples: seq<MetricSample>): SessionRecord
    decreases |samples|
  {
    if samples == [] then r else Logged(LoggedAll(r, samples[..|samples| - 1]), samples[|samples| - 1])
  }

  function SumPitch(samples: seq<MetricSample>): real
    decreases |samples|
  {
    if samples == [] then 0.0 else SumPitch(samples[..|samples| - 1]) + samples[|samples| - 1].pitchAccuracy
  }

  function SumScale(samples: seq<MetricSample>): real
    decreases |samples|
  {
    if samples == [] then 0.0 else SumScale(samples[..|samples| - 1]) + samples[|samples| - 1].scaleConformity
  }

  function SumTiming(samples: seq<MetricSample>): real
    decreases |samples|
  {
    if samples == [] then 0.0 else SumTiming(samples[..|samples| - 1]) + samples[|samples| - 1].timingStability
  }

  /** After any samples, the sums are the sums of the samples and the count is their number. */
  lemma {:induction false} LoggedAllSums(r: SessionRecord, samples: seq<MetricSample>)
    ensures var n := LoggedAll(r, samples);
      n.metricCount == r.metricCount + |samples| &&
      n.pitchAccuracySum == r.pitchAccuracySum + SumPitch(samples) &&
      n.scaleConformitySum == r.scaleConformitySum + SumScale(samples) &&
      n.timingStabilitySum == r.timingStabilitySum + SumTiming(samples) &&
      (Balanced(r) ==> Balanced(n))
    decreases |samples|
  {
    if samples != [] {
      LoggedAllSums(r, samples[..|samples| - 1]);
    }
  }

  /** The three averages `end_session` writes: sum over count, or 0.0 each when nothing was logged. */
  function Averages(r: SessionRecord): (avg: (real, real, real))
    ensures r.metricCount == 0 ==> avg == (0.0, 0.0, 0.0)
    ensures r.metricCount > 0 ==> avg.0 * r.metricCount as real == r.pitchAccuracySum
    ensures r.metricCount > 0 ==> avg.1 * r.metricCount as real == r.scaleConformitySum
    ensures r.metricCount > 0 ==> avg.2 * r.metricCount as real == r.timingStabilitySum
  {
    var n := r.metricCount;
    if n > 0 then (r.pitchAccuracySum / n as real, r.scaleConformitySum / n as real, r.timingStabilitySum / n as real)
    else (0.0, 0.0, 0.0)
  }

  /**
   * A session started fresh and fed some samples averages, for each metric,
   * the mean of what was logged.
   */
  lemma {:induction false} AveragesAreMeans(r: SessionRecord, samples: seq<MetricSample>)
    requires r.metricCount == 0 && r.pitchAccuracySum == 0.0 && r.scaleConformitySum == 0.0 && r.timingStabilitySum == 0.0
    requires samples != []
    ensures Averages(LoggedAll(r, samples))
         == (SumPitch(samples) / |samples| as real, SumScale(samples) / |samples| as real,
             SumTiming(samples) / |samples| as real)
  {
    LoggedAllSums(r, samples);
  }

  /** Every sample's metrics lie in [0, 1]. */
  predicate UnitSamples(samples: seq<MetricSample>) {
    forall k :: 0 <= k < |samples| ==>
      0.0 <= samples[k].pitchAccuracy <= 1.0 && 0.0 <= samples[k].scaleConformity <= 1.0 &&
      0.0 <= samples[k].timingStability <= 1.0
  }

  lemma {:induction false} SumsWithinCount(samples: seq<MetricSample>)
    requires UnitSamples(samples)
    ensures 0.0 <= SumPitch(samples) <= |samples| as real
    ensures 0.0 <= SumScale(samples) <= |samples| as real
    ensures 0.0 <= SumTiming(samples) <= |samples| as real
    decreases |samples|
  {
    if samples != [] {
      SumsWithinCount(samples[..|samples| - 1]);
    }
  }

  /** Metrics logged in [0, 1] average in [0, 1]. */
  lemma {:induction false} AveragesInUnitRange(r: SessionRecord, samples: seq<MetricSample>)
    requires r.metricCount == 0 && r.pitchAccuracySum == 0.0 && r.scaleConformitySum == 0.0 && r.timingStabilitySum == 0.0
    requires UnitSamples(samples)
    ensures var avg := Averages(LoggedAll(r, samples));
      0.0 <= avg.0 <= 1.0 && 0.0 <= avg.1 <= 1.0 && 0.0 <= avg.2 <= 1.0
  {
    LoggedAllSums(r, samples);
    SumsWithinCount(samples);
    if samples != [] {
      var n := |samples| as real;
      MeanInUnitRange(SumPitch(samples), n);
      MeanInUnitRange(SumScale(samples), n);
      MeanInUnitRange(SumTiming(samples), n);
      assert Averages(LoggedAll(r, samples)) == (SumPitch(samples) / n, SumScale(samples) / n, SumTiming(samples) / n);
    }
  }

  /** A sum of at most `n` values in [0, 1], divided by `n`, lies in [0, 1]. */
  lemma MeanInUnitRange(sum: real, n: real)
    requires 0.0 < n && 0.0 <= sum <= n
    ensures 0.0 <= sum / n <= 1.0
  {
  }

  /** The row for an entry ended at `now` with the given number of notes in the scale. */
  function RowOf(r: SessionRecord, totalInscaleNotes: int, now: real): (row: SessionRow)
    ensures (row.pitchAccuracy, row.scaleConformity, row.timingStability) == Averages(r)
    ensures row.durationSeconds == now - r.startTimestamp && row.totalInscaleNotes == totalInscaleNotes
  {
    var avg := Averages(r);
    SessionRow(r.sessionId, r.userId, r.startTimestamp, now, avg.0, avg.1, avg.2, r.scaleChosen, r.scaleType,
               r.sensitivity, r.strictness, r.totalNotesPlayed, r.correctNotesPlayed, r.badNotesPlayed,
               totalInscaleNotes, now - r.startTimestamp, r.ambientLightOption)
  }

  /** `SessionLogger`'s in-memory part: the entries of the running sessions. */
  class SessionLogger {
    var sessionData: map<string, SessionRecord>

    constructor()
      ensures sessionData == map[]
    {
      sessionData := map[];
    }

    /** `start_session`, with the generated id and the clock reading as parameters. */
    method StartSession(sessionId: string, now: real, scaleName: string, strictness: real, sensitivity: real,
                        userId: Option<string>, ambientLighting: bool, scaleType: string)
      returns (id: string)
      modifies this
      ensures id == sessionId
      ensures sessionData == old(sessionData)[sessionId := NewRecord(sessionId, now, scaleName, strictness,
                                                                     sensitivity, userId, ambientLighting, scaleType)]
    {
      sessionData := sessionData[sessionId := NewRecord(sessionId, now, scaleName, strictness, sensitivity,
                                                        userId, ambientLighting, scaleType)];
      id := sessionId;
    }

    /** `log_metric`: nothing for an unknown session; otherwise the entry takes in one sample. */
    method LogMetric(sessionId: string, pitchAccuracy: real, scaleConformity: real, timingStability: real,
                     debugInfo: Option<NoteInfo>)
      modifies this
      ensures sessionId !in old(sessionData) ==> sessionData == old(sessionData)
      ensures sessionId in old(sessionData) ==>
        sessionData == old(sessionData)[sessionId := Logged(old(sessionData)[sessionId],
                                          MetricSample(pitchAccuracy, scaleConformity, timingStability, debugInfo))]
    {
      if sessionId !in sessionData {
        return;
      }
      var session := sessionData[sessionId];
      session := session.(pitchAccuracySum := session.pitchAccuracySum + pitchAccuracy);
      session := session.(scaleConformitySum := session.scaleConformitySum + scaleConformity);
      session := session.(timingStabilitySum := session.timingStabilitySum + timingStability);
      session := session.(metricCount := session.metricCount + 1);
      if debugInfo.Some? && debugInfo.value.noteDetected {
        session := session.(totalNotesPlayed := session.totalNotesPlayed + 1);
        if debugInfo.value.inScale {
          session := session.(correctNotesPlayed := session.correctNotesPlayed + 1);
        } else {
          session := session.(badNotesPlayed := session.badNotesPlayed + 1);
        }
      }
      sessionData := sessionData[sessionId := session];
    }

    /**
     * `end_session`: for a known session, the row to insert (None for an
     * unknown one); the entry is dropped from memory whether or not the
     * insert succeeds.
     */
    method EndSession(sessionId: string, totalInscaleNotes: int, now: real) returns (row: Option<SessionRow>)
      modifies this
      ensures sessionId !in old(sessionData) ==> row == None && sessionData == old(sessionData)
      ensures sessionId in old(sessionData) ==>
        row == Some(RowOf(old(sessionData)[sessionId], totalInscaleNotes, now))
      ensures sessionData == old(sessionData) - {sessionId}
    {
      if sessionId !in sessionData {
        return None;
      }
      var session := sessionData[sessionId].(totalInscaleNotes := totalInscaleNotes);
      var avg := Averages(session);
      row := Some(SessionRow(session.sessionId, session.userId, session.startTimestamp, now, avg.0, avg.1, avg.2,
                             session.scaleChosen, session.scaleType, session.sensitivity, session.strictness,
                             session.totalNotesPlayed, session.correctNotesPlayed, session.badNotesPlayed,
                             session.totalInscaleNotes, now - session.startTimestamp, session.ambientLightOption));
      sessionData := sessionData - {sessionId};
    }
  }
}
