/**
 * The Electron shell's `.env` loader: the environment starts as a copy of
 * the process environment, and each `KEY=value` line of the file, read top
 * to bottom, sets a variable. The file's contents are a parameter, None when
 * there is no file.
 */
module EnvLoader {
  import opened Wrappers
  import opened PyText

  /**
   * The assignment a line makes, if any: blank lines and '#' comments make
   * none, nor do lines with no '=' or nothing before it. The key is the text
   * before the first '=', the value everything after it, '=' included, both
   * trimmed.
   */
  function LineEntry(line: string): Option<(string, string)> {
    var trimmed := JsTrim(line);
    if trimmed == [] || trimmed[0] == '#' then None
    else
      var parts := Split(trimmed, '=');
      var key := parts[0];
      if key != [] && |parts| > 1 then Some((JsTrim(key), JsTrim(Join(parts[1..], "=")))) else None
  }

  /** A key a line defines is never empty and holds no '='. */
  lemma DefinedKeyIsClean(line: string)
    requires LineEntry(line).Some?
    ensures LineEntry(line).value.0 != [] && '=' !in LineEntry(line).value.0
  {
    var trimmed := JsTrim(line);
    var key := Split(trimmed, '=')[0];
    SplitFirstIsPrefix(trimmed, '=');
    assert key[0] == trimmed[0];
    JsTrimKeepsLeadingChar(key);
    var i, j :| 0 <= i <= j <= |key| && JsTrim(key) == key[i..j];
    assert forall c :: c in JsTrim(key) ==> c in key;
  }

  /** The assignment sets `key`. */
  predicate Sets(entry: Option<(string, string)>, key: string) {
    entry.Some? && entry.value.0 == key
  }

  /** The environment after one assignment, or unchanged without one. */
  function Assign(env: map<string, string>, entry: Option<(string, string)>): map<string, string> {
    if entry.Some? then env[entry.value.0 := entry.value.1] else env
  }

  /** The environment after the assignments, made in order. */
  function AssignAll(env: map<string, string>, entries: seq<Option<(string, string)>>): map<string, string> {
    if entries == [] then env
    else Assign(AssignAll(env, entries[..|entries| - 1]), entries[|entries| - 1])
  }

  /** Assignments only add or overwrite: no key is removed. */
  lemma {:induction false} AssignAllKeepsKeys(env: map<string, string>, entries: seq<Option<(string, string)>>)
    ensures env.Keys <= AssignAll(env, entries).Keys
  {
    if entries != [] {
      AssignAllKeepsKeys(env, entries[..|entries| - 1]);
    }
  }

  /** The assignments the lines make, line by line. */
  function Entries(lines: seq<string>): (entries: seq<Option<(string, string)>>)
    ensures |entries| == |lines|
    ensures forall i :: 0 <= i < |lines| ==> entries[i] == LineEntry(lines[i])
  {
    seq(|lines|, i requires 0 <= i < |lines| => LineEntry(lines[i]))
  }

  /** The environment `loadEnvFile` returns for the given process environment and file contents. */
  function LoadedEnv(processEnv: map<string, string>, contents: Option<string>): (env: map<string, string>)
    ensures contents.None? ==> env == processEnv
    ensures processEnv.Keys <= env.Keys
  {
    AssignAllKeepsKeys(processEnv, if contents.Some? then Entries(Split(contents.value, '\n')) else []);
    match contents
    case None => processEnv
    case Some(text) => AssignAll(processEnv, Entries(Split(text, '\n')))
  }

  /** `loadEnvFile`: copy the process environment, then apply the file's lines one by one. */
  method LoadEnvFile(processEnv: map<string, string>, contents: Option<string>) returns (env: map<string, string>)
    ensures env == LoadedEnv(processEnv, contents)
    ensures contents.None? ==> env == processEnv
  {
    env := processEnv;
    if contents.Some? {
      env := ApplyLines(env, Split(contents.value, '\n'));
    }
  }

  /** The `forEach` over the file's lines. */
  method ApplyLines(env0: map<string, string>, lines: seq<string>) returns (env: map<string, string>)
    ensures env == AssignAll(env0, Entries(lines))
  {
    env := env0;
    ghost var entries := Entries(lines);
    for i := 0 to |lines|
      invariant env == AssignAll(env0, entries[..i])
    {
      var entry := LineEntry(lines[i]);
      AssignNext(env0, entries, i);
      env := Assign(env, entry);
    }
    assert entries[..|lines|] == entries;
  }

  /** One more line of the fold. */
  lemma AssignNext(env0: map<string, string>, entries: seq<Option<(string, string)>>, i: nat)
    requires i < |entries|
    ensures AssignAll(env0, entries[..i + 1]) == Assign(AssignAll(env0, entries[..i]), entries[i])
  {
    assert entries[..i + 1][..i] == entries[..i];
  }

  /** The last assignment to a key decides its value. */
  lemma {:induction false} LastAssignmentWins(env: map<string, string>, entries: seq<Option<(string, string)>>,
                                               j: nat, key: string, value: string)
    requires j < |entries| && entries[j] == Some((key, value))
    requires forall k :: j < k < |entries| ==> !Sets(entries[k], key)
    ensures key in AssignAll(env, entries) && AssignAll(env, entries)[key] == value
  {
    var n := |entries|;
    var prefix := entries[..n - 1];
    if j < n - 1 {
      assert prefix[j] == entries[j];
      forall k | j < k < n - 1
        ensures !Sets(prefix[k], key)
      {
        assert prefix[k] == entries[k];
      }
      LastAssignmentWins(env, prefix, j, key, value);
      assert !Sets(entries[n - 1], key);
    }
  }

  /** A key never assigned keeps its inherited value, and no key appears from nowhere. */
  lemma {:induction false} UnassignedKeepsInherited(env: map<string, string>, entries: seq<Option<(string, string)>>,
                                                     key: string)
    requires forall k :: 0 <= k < |entries| ==> !Sets(entries[k], key)
    ensures key in AssignAll(env, entries) <==> key in env
    ensures key in env ==> AssignAll(env, entries)[key] == env[key]
  {
    if entries != [] {
      var prefix := entries[..|entries| - 1];
      assert forall k :: 0 <= k < |prefix| ==> prefix[k] == entries[k];
      UnassignedKeepsInherited(env, prefix, key);
      assert !Sets(entries[|entries| - 1], key);
    }
  }

  /**
   * Of the file's lines, the last one that defines a key decides its value;
   * a key no line defines keeps the process environment's value, or stays
   * absent.
   */
  lemma LaterLinesOverride(processEnv: map<string, string>, text: string, key: string)
    ensures var entries := Entries(Split(text, '\n'));
            var env := LoadedEnv(processEnv, Some(text));
            (forall j, value :: 0 <= j < |entries| && entries[j] == Some((key, value))
                                && (forall k :: j < k < |entries| ==> !Sets(entries[k], key))
                                ==> key in env && env[key] == value)
            && ((forall k :: 0 <= k < |entries| ==> !Sets(entries[k], key))
                ==> (key in env <==> key in processEnv) && (key in processEnv ==> key in env && env[key] == processEnv[key]))
  {
    var entries := Entries(Split(text, '\n'));
    assert LoadedEnv(processEnv, Some(text)) == AssignAll(processEnv, entries);
    forall j, value | 0 <= j < |entries| && entries[j] == Some((key, value))
                      && (forall k :: j < k < |entries| ==> !Sets(entries[k], key))
      ensures key in AssignAll(processEnv, entries) && AssignAll(processEnv, entries)[key] == value
    {
      LastAssignmentWins(processEnv, entries, j, key, value);
    }
    if forall k :: 0 <= k < |entries| ==> !Sets(entries[k], key) {
      UnassignedKeepsInherited(processEnv, entries, key);
    }
  }

  /**
   * A line `key=value` whose key starts with a visible character other than
   * '#' and contains no '=' sets exactly that key to that value, even when
   * the value itself contains '='.
   */
  lemma ValueMayContainEquals(key: string, value: string)
    requires key != [] && !IsJsSpace(key[0]) && key[0] != '#' && '=' !in key
    requires value == [] || !IsJsSpace(value[|value| - 1])
    ensures LineEntry(key + "=" + value) == Some((JsTrim(key), JsTrim(value)))
  {
    var line := key + "=" + value;
    assert line[0] == key[0];
    assert line[|line| - 1] == if value == [] then '=' else value[|value| - 1];
    JsTrimUnspaced(line);
    SplitAtFirst(key, '=', value);
    assert key + ['='] + value == line;
    JoinSplit(value, '=');
    assert Split(line, '=')[1..] == Split(value, '=');
  }
}
