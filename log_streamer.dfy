/**
 * The real-time `LogStreamer`: which files it watches (name patterns), which
 * log type a path belongs to, tailing a file from its stored position, and
 * turning new lines into CSV rows appended to the per-type file and the
 * combined one.
 *
 * The disk is a map from path to content and a position is a character
 * offset into that content; a path missing from the map is a file whose
 * open raises, which the source catches and reports. The CSV files are
 * the rows appended to each of them since the streamer started.
 */
module LogStreamer {
  import opened Wrappers
  import opened Text
  import opened Values
  import NodeParser
  import PythonParser

  type Disk = map<string, string>

  // ---------------------------------------------------------------------
  // File name patterns

  /**
   * `match_pattern`: a pattern with a `*` is split at its first `*`, and the
   * name must start with what precedes it and end with what follows it;
   * a pattern without one must equal the name.
   */
  predicate MatchPattern(filename: string, pattern: string) {
    if '*' in pattern then
      var k := IndexOf(pattern, '*');
      StartsWith(filename, pattern[..k]) && EndsWith(filename, pattern[k + 1..])
    else filename == pattern
  }

  /**
   * A name of the form prefix, anything, suffix matches `prefix*suffix`;
   * conversely a match long enough to hold both parts is of that form.
   * Shorter names also match when prefix and suffix overlap.
   */
  lemma MatchPatternGlob(filename: string, prefix: string, suffix: string)
    requires '*' !in prefix
    ensures MatchPattern(filename, prefix + "*" + suffix) <==>
      |prefix| <= |filename| && |suffix| <= |filename|
      && filename[..|prefix|] == prefix && filename[|filename| - |suffix|..] == suffix
    ensures |prefix| + |suffix| <= |filename| ==>
      (MatchPattern(filename, prefix + "*" + suffix) <==>
        exists middle :: filename == prefix + middle + suffix)
  {
    var pattern := prefix + "*" + suffix;
    MatchPatternSplit(filename, prefix, suffix);
    if |prefix| + |suffix| <= |filename| {
      if MatchPattern(filename, pattern) {
        var middle := filename[|prefix|..|filename| - |suffix|];
        assert filename == prefix + middle + suffix;
      }
      if exists middle :: filename == prefix + middle + suffix {
        var middle :| filename == prefix + middle + suffix;
        assert filename[..|prefix|] == prefix;
        assert filename[|filename| - |suffix|..] == suffix;
      }
    }
  }

  /** A pattern `prefix*suffix` is a prefix test and a suffix test. */
  lemma MatchPatternSplit(filename: string, prefix: string, suffix: string)
    requires '*' !in prefix
    ensures MatchPattern(filename, prefix + "*" + suffix) == (StartsWith(filename, prefix) && EndsWith(filename, suffix))
  {
    var pattern := prefix + "*" + suffix;
    IndexOfAfterPart(prefix, '*', suffix);
    assert pattern[|prefix|] == '*';
    assert pattern[..|prefix|] == prefix && pattern[|prefix| + 1..] == suffix;
  }

  /** Prefix and suffix are not required to be disjoint: `a*a` matches `a`. */
  lemma MatchPatternOverlap()
    ensures MatchPattern("a", "a*a")
  {
    MatchPatternGlob("a", "a", "a");
  }

  /** The log types and their file name patterns, in configuration order. */
  type Patterns = seq<(string, seq<string>)>

  /** `access-*.log` and `error-*.log`. */
  const NodeAccessPattern: string := "access-" + "*" + ".log"
  const NodeErrorPattern: string := "error-" + "*" + ".log"

  /** The patterns the streamer uses when its configuration file gives none. */
  const DefaultPatterns: Patterns :=
    [("node_access", [NodeAccessPattern]),
     ("node_error", [NodeErrorPattern]),
     ("python_access", ["velocity_access.log"]),
     ("python_error", ["velocity_error.log", "velocity_warning.log", "velocity_info.log"])]

  /** Some pattern in the list matches the name. */
  function AnyPattern(filename: string, patterns: seq<string>): bool {
    if patterns == [] then false
    else MatchPattern(filename, patterns[0]) || AnyPattern(filename, patterns[1..])
  }

  /** Some pattern of some log type matches the name. */
  function AnyLogType(filename: string, types: Patterns): bool {
    if types == [] then false
    else AnyPattern(filename, types[0].1) || AnyLogType(filename, types[1..])
  }

  /** `should_monitor_file`: the loops over the configured patterns, applied to the base name. */
  function ShouldMonitorFile(types: Patterns, filePath: string): bool {
    AnyLogType(Basename(filePath), types)
  }

  lemma {:induction false} AnyPatternSpec(filename: string, patterns: seq<string>)
    ensures AnyPattern(filename, patterns) <==> exists j :: 0 <= j < |patterns| && MatchPattern(filename, patterns[j])
    decreases |patterns|
  {
    if patterns != [] {
      AnyPatternSpec(filename, patterns[1..]);
      if MatchPattern(filename, patterns[0]) {
        assert 0 < |patterns|;
      }
      if exists j :: 0 <= j < |patterns| && MatchPattern(filename, patterns[j]) {
        var j :| 0 <= j < |patterns| && MatchPattern(filename, patterns[j]);
        if j > 0 {
          assert patterns[1..][j - 1] == patterns[j];
        }
      }
    }
  }

  lemma {:induction false} AnyLogTypeSpec(filename: string, types: Patterns)
    ensures AnyLogType(filename, types) <==>
      exists i :: 0 <= i < |types| && AnyPattern(filename, types[i].1)
    decreases |types|
  {
    if types != [] {
      AnyLogTypeSpec(filename, types[1..]);
      if exists i :: 0 <= i < |types| && AnyPattern(filename, types[i].1) {
        var i :| 0 <= i < |types| && AnyPattern(filename, types[i].1);
        if i > 0 {
          assert types[1..][i - 1] == types[i];
        }
      }
    }
  }

  /** A file is watched iff its base name matches at least one pattern of some log type. */
  lemma ShouldMonitorFileSpec(types: Patterns, filePath: string)
    ensures ShouldMonitorFile(types, filePath) <==>
      exists i, j :: 0 <= i < |types| && 0 <= j < |types[i].1| && MatchPattern(Basename(filePath), types[i].1[j])
  {
    var name := Basename(filePath);
    AnyLogTypeSpec(name, types);
    forall i | 0 <= i < |types|
      ensures AnyPattern(name, types[i].1) <==> exists j :: 0 <= j < |types[i].1| && MatchPattern(name, types[i].1[j])
    {
      AnyPatternSpec(name, types[i].1);
    }
  }

  /** A pattern without a `*` matches only itself. */
  lemma ExactPattern(filename: string, pattern: string)
    requires forall i :: 0 <= i < |pattern| ==> pattern[i] != '*'
    ensures MatchPattern(filename, pattern) <==> filename == pattern
  {
  }

  lemma AnyPatternOne(filename: string, p: string)
    ensures AnyPattern(filename, [p]) == MatchPattern(filename, p)
  {
    assert [p][1..] == [];
  }

  lemma AnyPatternThree(filename: string, p: string, q: string, r: string)
    ensures AnyPattern(filename, [p, q, r]) == (MatchPattern(filename, p) || MatchPattern(filename, q) || MatchPattern(filename, r))
  {
    assert [p, q, r][1..] == [q, r] && [q, r][1..] == [r];
    AnyPatternOne(filename, r);
  }

  lemma AnyLogTypeFour(filename: string, a: (string, seq<string>), b: (string, seq<string>), c: (string, seq<string>), d: (string, seq<string>))
    ensures AnyLogType(filename, [a, b, c, d]) ==
      (AnyPattern(filename, a.1) || AnyPattern(filename, b.1) || AnyPattern(filename, c.1) || AnyPattern(filename, d.1))
  {
    assert [a, b, c, d][1..] == [b, c, d] && [b, c, d][1..] == [c, d] && [c, d][1..] == [d] && [d][1..] == [];
    assert AnyLogType(filename, [d]) == AnyPattern(filename, d.1);
    assert AnyLogType(filename, [c, d]) == (AnyPattern(filename, c.1) || AnyPattern(filename, d.1));
    assert AnyLogType(filename, [b, c, d]) == (AnyPattern(filename, b.1) || AnyPattern(filename, c.1) || AnyPattern(filename, d.1));
  }

  /** The default patterns without a `*` are plain names. */
  lemma PlainDefaults(name: string)
    ensures MatchPattern(name, "velocity_access.log") == (name == "velocity_access.log")
    ensures MatchPattern(name, "velocity_error.log") == (name == "velocity_error.log")
    ensures MatchPattern(name, "velocity_warning.log") == (name == "velocity_warning.log")
    ensures MatchPattern(name, "velocity_info.log") == (name == "velocity_info.log")
  {
    assert '*' !in "velocity_access.log" && '*' !in "velocity_error.log";
    assert '*' !in "velocity_warning.log" && '*' !in "velocity_info.log";
  }

  /** The default node patterns are a prefix and the ".log" suffix. */
  lemma GlobDefaults(name: string)
    ensures MatchPattern(name, NodeAccessPattern) == (StartsWith(name, "access-") && EndsWith(name, ".log"))
    ensures MatchPattern(name, NodeErrorPattern) == (StartsWith(name, "error-") && EndsWith(name, ".log"))
  {
    assert '*' !in "access-" && '*' !in "error-";
    MatchPatternSplit(name, "access-", ".log");
    MatchPatternSplit(name, "error-", ".log");
  }

  /**
   * With the default patterns, exactly the node files named `access-….log`
   * or `error-….log` and the Python files `velocity_access.log`,
   * `velocity_error.log`, `velocity_warning.log` and `velocity_info.log`
   * are watched, wherever they are.
   */
  lemma DefaultMonitored(filePath: string)
    ensures var name := Basename(filePath);
      ShouldMonitorFile(DefaultPatterns, filePath) <==>
        (StartsWith(name, "access-") && EndsWith(name, ".log"))
        || (StartsWith(name, "error-") && EndsWith(name, ".log"))
        || name == "velocity_access.log" || name == "velocity_error.log"
        || name == "velocity_warning.log" || name == "velocity_info.log"
  {
    var name := Basename(filePath);
    AnyLogTypeFour(name, DefaultPatterns[0], DefaultPatterns[1], DefaultPatterns[2], DefaultPatterns[3]);
    AnyPatternOne(name, NodeAccessPattern);
    AnyPatternOne(name, NodeErrorPattern);
    AnyPatternOne(name, "velocity_access.log");
    AnyPatternThree(name, "velocity_error.log", "velocity_warning.log", "velocity_info.log");
    GlobDefaults(name);
    PlainDefaults(name);
  }

  // ---------------------------------------------------------------------
  // Log types

  /**
   * `get_log_type`: a path under `node_backend_logs` (in any case) is a
   * node access log when the lowered path mentions "access", else a node
   * error log when it mentions "error"; a path under `python_backend_logs`
   * is a Python access log when its base name (not lowered) mentions
   * "access" and a Python error log otherwise; any other path has no type.
   */
  function GetLogType(filePath: string): Option<string> {
    var lowered := Lower(filePath);
    if Contains(lowered, "node_backend_logs") then
      if Contains(lowered, "access") then Some("node_access")
      else if Contains(lowered, "error") then Some("node_error")
      else None
    else if Contains(lowered, "python_backend_logs") then
      if Contains(Basename(filePath), "access") then Some("python_access")
      else Some("python_error")
    else None
  }

  /** The log types `get_log_type` can give: those of the default patterns. */
  const LogTypes: seq<string> := ["node_access", "node_error", "python_access", "python_error"]

  /**
   * Each type is given exactly on its condition, and every type given is one
   * of the four the patterns are configured for.
   */
  lemma GetLogTypeSpec(filePath: string)
    ensures var r := GetLogType(filePath);
      var lowered := Lower(filePath);
      var node := Contains(lowered, "node_backend_logs");
      var python := Contains(lowered, "python_backend_logs");
      && (r == Some("node_access") <==> node && Contains(lowered, "access"))
      && (r == Some("node_error") <==> node && !Contains(lowered, "access") && Contains(lowered, "error"))
      && (r == Some("python_access") <==> !node && python && Contains(Basename(filePath), "access"))
      && (r == Some("python_error") <==> !node && python && !Contains(Basename(filePath), "access"))
      && (r.Some? ==> r.value in LogTypes)
      && (r.Some? ==> exists i :: 0 <= i < |DefaultPatterns| && DefaultPatterns[i].0 == r.value)
  {
    var r := GetLogType(filePath);
    if r.Some? {
      var i := if r.value == "node_access" then 0 else if r.value == "node_error" then 1
        else if r.value == "python_access" then 2 else 3;
      assert DefaultPatterns[i].0 == r.value;
    }
  }

  /** Outside `node_backend_logs` and inside `python_backend_logs` the base name alone decides. */
  lemma PythonLogType(filePath: string)
    requires Contains(Lower(filePath), "python_backend_logs") && !Contains(Lower(filePath), "node_backend_logs")
    ensures GetLogType(filePath) == if Contains(Basename(filePath), "access") then Some("python_access") else Some("python_error")
  {
  }

  /** A name in which no `a` is followed by a `c` does not mention "access". */
  lemma NoAccess(name: string)
    requires forall j :: 0 <= j && j + 1 < |name| ==> name[j] != 'a' || name[j + 1] != 'c'
    ensures !Contains(name, "access")
  {
    forall j | 0 <= j && j + 6 <= |name| ensures !OccursAt(name, "access", j) {
      if name[j] != 'a' {
        assert name[j..j + 6][0] != "access"[0];
      } else {
        assert name[j..j + 6][1] != "access"[1];
      }
    }
    ContainsIff(name, "access");
  }

  /**
   * A watched Python file under `python_backend_logs` (and not under
   * `node_backend_logs`) is an access log iff it is `velocity_access.log`.
   */
  lemma PythonFileTypes(filePath: string)
    requires Contains(Lower(filePath), "python_backend_logs") && !Contains(Lower(filePath), "node_backend_logs")
    requires var name := Basename(filePath);
      name == "velocity_access.log" || name == "velocity_error.log" || name == "velocity_warning.log" || name == "velocity_info.log"
    ensures GetLogType(filePath) == Some("python_access") <==> Basename(filePath) == "velocity_access.log"
    ensures GetLogType(filePath) == Some("python_access") || GetLogType(filePath) == Some("python_error")
  {
    PythonLogType(filePath);
    VelocityNames(Basename(filePath));
  }

  /** Of the default Python file names, only `velocity_access.log` mentions "access". */
  lemma VelocityNames(name: string)
    requires name == "velocity_access.log" || name == "velocity_error.log" || name == "velocity_warning.log" || name == "velocity_info.log"
    ensures Contains(name, "access") <==> name == "velocity_access.log"
  {
    if name == "velocity_access.log" {
      assert OccursAt(name, "access", 9);
      ContainsAt(name, "access", 9);
    } else {
      NoAccess(name);
    }
  }

  // ---------------------------------------------------------------------
  // Rows

  /** A row dict as a converter builds it: its (column, value) pairs in insertion order. */
  type Fields = seq<(string, Value)>

  /** A row as `DictWriter` writes it: each header with the text of its cell. */
  type CsvLine = seq<(string, string)>

  /** A node row, whose values are all strings, as a row dict. */
  function NodeFields(row: NodeParser.Row): (r: Fields)
    ensures |r| == |row|
    ensures forall i :: 0 <= i < |row| ==> r[i] == (row[i].0, Str(row[i].1))
  {
    seq(|row|, i requires 0 <= i < |row| => (row[i].0, Str(row[i].1)))
  }

  /** `entry.get(key, default)`: the value of the last pair with that key (a later assignment wins). */
  function Lookup(entry: Fields, key: string, default: Value): Value {
    if entry == [] then default
    else if entry[|entry| - 1].0 == key then entry[|entry| - 1].1
    else Lookup(entry[..|entry| - 1], key, default)
  }

  /** A key the entry lacks gives the default. */
  lemma {:induction false} LookupMissing(entry: Fields, key: string, default: Value)
    requires forall i :: 0 <= i < |entry| ==> entry[i].0 != key
    ensures Lookup(entry, key, default) == default
    decreases |entry|
  {
    if entry != [] {
      var init := entry[..|entry| - 1];
      assert forall i :: 0 <= i < |init| ==> init[i] == entry[i];
      LookupMissing(init, key, default);
    }
  }

  /** A key gives the value of its last pair. */
  lemma {:induction false} LookupLast(entry: Fields, key: string, default: Value, i: nat)
    requires i < |entry| && entry[i].0 == key
    requires forall j :: i < j < |entry| ==> entry[j].0 != key
    ensures Lookup(entry, key, default) == entry[i].1
    decreases |entry|
  {
    if i < |entry| - 1 {
      var init := entry[..|entry| - 1];
      assert init[i] == entry[i];
      assert forall j :: i < j < |init| ==> init[j] == entry[j];
      LookupLast(init, key, default, i);
    }
  }

  /** How `DictWriter` writes a value: `None` as an empty cell, anything else as `str` of it. */
  function CellText(v: Value): string {
    if v.Null? then "" else Show(v)
  }

  /** The row `_append_to_file` writes for one entry: every header, with the entry's value or "". */
  function Projection(headers: seq<string>, entry: Fields): (r: CsvLine)
    ensures |r| == |headers|
  {
    seq(|headers|, i requires 0 <= i < |headers| => (headers[i], CellText(Lookup(entry, headers[i], Str("")))))
  }

  /** The column names of a written row. */
  function Header(line: CsvLine): seq<string> {
    seq(|line|, i requires 0 <= i < |line| => line[i].0)
  }

  /** No name occurs twice. */
  predicate Distinct(names: seq<string>) {
    forall i, j :: 0 <= i < j < |names| ==> names[i] != names[j]
  }

  /** The column names of a row dict. */
  function Keys(entry: Fields): seq<string> {
    seq(|entry|, i requires 0 <= i < |entry| => entry[i].0)
  }

  /**
   * A written row has exactly the headers, in order: a header the entry
   * lacks is an empty cell, a header it has is the text of its value, and
   * keys of the entry that are not headers are dropped.
   */
  lemma ProjectionSpec(headers: seq<string>, entry: Fields)
    ensures Header(Projection(headers, entry)) == headers
    ensures forall k :: 0 <= k < |headers| && headers[k] !in Keys(entry) ==> Projection(headers, entry)[k].1 == ""
    ensures forall k, i :: 0 <= k < |headers| && 0 <= i < |entry| && entry[i].0 == headers[k] && Distinct(Keys(entry)) ==>
      Projection(headers, entry)[k].1 == CellText(entry[i].1)
  {
    forall k | 0 <= k < |headers|
      ensures headers[k] !in Keys(entry) ==> Projection(headers, entry)[k].1 == ""
      ensures forall i :: 0 <= i < |entry| && entry[i].0 == headers[k] && Distinct(Keys(entry)) ==>
        Projection(headers, entry)[k].1 == CellText(entry[i].1)
    {
      if headers[k] !in Keys(entry) {
        forall i | 0 <= i < |entry| ensures entry[i].0 != headers[k] {
          assert Keys(entry)[i] == entry[i].0;
        }
        LookupMissing(entry, headers[k], Str(""));
      }
      forall i | 0 <= i < |entry| && entry[i].0 == headers[k] && Distinct(Keys(entry))
        ensures Projection(headers, entry)[k].1 == CellText(entry[i].1)
      {
        forall j | i < j < |entry| ensures entry[j].0 != headers[k] {
          assert Keys(entry)[i] != Keys(entry)[j];
        }
        LookupLast(entry, headers[k], Str(""), i);
      }
    }
  }

  /** A row dict written under its own column names, which are distinct, keeps every cell in place. */
  lemma ProjectionOwnHeaders(entry: Fields)
    requires Distinct(Keys(entry))
    ensures forall i :: 0 <= i < |entry| ==> Projection(Keys(entry), entry)[i] == (entry[i].0, CellText(entry[i].1))
  {
    ProjectionSpec(Keys(entry), entry);
  }

  // ---------------------------------------------------------------------
  // Routing rows to the CSV files

  /** The rows appended to each configured CSV file, by its name in the configuration. */
  type Written = map<string, seq<CsvLine>>

  /** The rows `_append_to_file` writes for some entries, in order. */
  function Projections(headers: seq<string>, entries: seq<Fields>): (r: seq<CsvLine>)
    ensures |r| == |entries|
    ensures forall i :: 0 <= i < |entries| ==> r[i] == Projection(headers, entries[i])
  {
    seq(|entries|, i requires 0 <= i < |entries| => Projection(headers, entries[i]))
  }

  /** `_append_to_file(entries, name)`: the file grows by the entries' rows. */
  function AppendedTo(written: Written, csvFiles: map<string, seq<string>>, entries: seq<Fields>, name: string): Written
    requires name in csvFiles
  {
    written[name := (if name in written then written[name] else []) + Projections(csvFiles[name], entries)]
  }

  /**
   * `append_to_csv`: to the file of the log type when one is configured,
   * then to the combined file when one is configured.
   */
  function Routed(written: Written, csvFiles: map<string, seq<string>>, entries: seq<Fields>, logType: string): Written {
    var first := if logType in csvFiles then AppendedTo(written, csvFiles, entries, logType) else written;
    if "combined" in csvFiles then AppendedTo(first, csvFiles, entries, "combined") else first
  }

  /**
   * Routing writes the rows once to the log type's file and once to the
   * combined file (twice there when the log type is "combined"), and
   * leaves every other file alone.
   */
  lemma RoutedSpec(written: Written, csvFiles: map<string, seq<string>>, entries: seq<Fields>, logType: string)
    requires written.Keys == csvFiles.Keys
    ensures var after := Routed(written, csvFiles, entries, logType);
      && after.Keys == written.Keys
      && (forall n :: n in written && n != logType && n != "combined" ==> after[n] == written[n])
      && (logType in csvFiles && logType != "combined" ==>
            after[logType] == written[logType] + Projections(csvFiles[logType], entries))
      && ("combined" in csvFiles && logType != "combined" ==>
            after["combined"] == written["combined"] + Projections(csvFiles["combined"], entries))
      && (logType == "combined" && "combined" in csvFiles ==>
            after["combined"] == written["combined"] + Projections(csvFiles["combined"], entries)
              + Projections(csvFiles["combined"], entries))
  {
  }

  // ---------------------------------------------------------------------
  // Parsing new lines

  /**
   * The collaborators a line's conversion calls: the JSON and ISO readers,
   * the formatted `datetime.now()` while the `i`-th line is parsed, and
   * `datetime.now().isoformat()` while its row is built.
   */
  datatype Env = Env(rd: PythonParser.Readers, now: nat -> string, iso: nat -> string)

  /** The log type the Python parser is given: "access" iff the streamer's type mentions it. */
  function ParserLogType(logType: string): (r: string)
    ensures r == "access" <==> Contains(logType, "access")
    ensures r == "access" || r == "error"
  {
    if Contains(logType, "access") then "access" else "error"
  }

  /**
   * The row dict one line gives in `process_new_lines`, or none: a node
   * type uses the node parser, a Python type the Python parser (a line
   * that raises gives none), any other type nothing.
   */
  function LineFields(line: string, i: nat, logType: string, sourceFile: string, env: Env): Option<Fields> {
    if StartsWith(logType, "node") then
      match NodeParser.ParsedLine(line, sourceFile)
      case None => None
      case Some(e) => Some(NodeFields(NodeParser.CsvRow(e, env.iso(i))))
    else if StartsWith(logType, "python") then
      match PythonParser.Kept(PythonParser.ParseLine(line, ParserLogType(logType), sourceFile, env.rd, env.now(i)))
      case None => None
      case Some(e) => Some(PythonParser.CsvRow(e, env.iso(i)))
    else None
  }

  function LineFieldsAll(lines: seq<string>, logType: string, sourceFile: string, env: Env): (r: seq<Option<Fields>>)
    ensures |r| == |lines|
  {
    seq(|lines|, i requires 0 <= i < |lines| => LineFields(lines[i], i, logType, sourceFile, env))
  }

  /** The row dicts of the lines that give one, in line order. */
  function NewFields(lines: seq<string>, logType: string, sourceFile: string, env: Env): seq<Fields> {
    Present(LineFieldsAll(lines, logType, sourceFile, env))
  }

  lemma NewFieldsStep(lines: seq<string>, i: nat, logType: string, sourceFile: string, env: Env)
    requires i < |lines|
    ensures var r := LineFields(lines[i], i, logType, sourceFile, env);
      NewFields(lines[..i + 1], logType, sourceFile, env)
        == NewFields(lines[..i], logType, sourceFile, env) + (if r.Some? then [r.value] else [])
  {
    var rs := LineFieldsAll(lines[..i + 1], logType, sourceFile, env);
    assert rs[..i] == LineFieldsAll(lines[..i], logType, sourceFile, env);
  }

  /** A row dict is kept iff some line gives it, and there are at most as many as lines. */
  lemma NewFieldsSpec(lines: seq<string>, logType: string, sourceFile: string, env: Env)
    ensures var fs := NewFields(lines, logType, sourceFile, env);
      && |fs| <= |lines|
      && (forall f :: f in fs <==> exists i :: 0 <= i < |lines| && LineFields(lines[i], i, logType, sourceFile, env) == Some(f))
  {
    var rs := LineFieldsAll(lines, logType, sourceFile, env);
    PresentSpec(rs);
    forall f ensures f in Present(rs) <==> exists i :: 0 <= i < |lines| && LineFields(lines[i], i, logType, sourceFile, env) == Some(f) {
      PresentWitness(rs, f);
      if f in Present(rs) {
        var i :| 0 <= i < |rs| && rs[i] == Some(f);
        assert LineFields(lines[i], i, logType, sourceFile, env) == Some(f);
      } else {
        forall i | 0 <= i < |lines| ensures LineFields(lines[i], i, logType, sourceFile, env) != Some(f) {
          assert rs[i] != Some(f);
        }
      }
    }
  }

  /**
   * A node row has the node columns and a Python row the Python columns,
   * so a row written to the file of its own kind keeps all its cells; a
   * type that is neither gives nothing.
   */
  lemma NewFieldsKeys(lines: seq<string>, logType: string, sourceFile: string, env: Env)
    ensures var fs := NewFields(lines, logType, sourceFile, env);
      && (StartsWith(logType, "node") ==> forall f :: f in fs ==> Keys(f) == NodeParser.Fieldnames)
      && (!StartsWith(logType, "node") && StartsWith(logType, "python") ==>
            forall f :: f in fs ==> Keys(f) == PythonParser.PyFieldnames)
      && (!StartsWith(logType, "node") && !StartsWith(logType, "python") ==> fs == [])
  {
    var rs := LineFieldsAll(lines, logType, sourceFile, env);
    var fs := NewFields(lines, logType, sourceFile, env);
    if StartsWith(logType, "node") {
      forall f | f in fs ensures Keys(f) == NodeParser.Fieldnames {
        var i := PresentIndex(rs, f);
        assert rs[i] == LineFields(lines[i], i, logType, sourceFile, env);
        LineFieldsKeys(lines[i], i, logType, sourceFile, env);
      }
    } else if StartsWith(logType, "python") {
      forall f | f in fs ensures Keys(f) == PythonParser.PyFieldnames {
        var i := PresentIndex(rs, f);
        assert rs[i] == LineFields(lines[i], i, logType, sourceFile, env);
        LineFieldsKeys(lines[i], i, logType, sourceFile, env);
      }
    } else {
      forall i | 0 <= i < |rs| ensures rs[i].None? {
        LineFieldsKeys(lines[i], i, logType, sourceFile, env);
      }
      PresentSpec(rs);
    }
  }

  /** The row dict of a node line has the node columns, that of a Python line the Python columns. */
  lemma LineFieldsKeys(line: string, i: nat, logType: string, sourceFile: string, env: Env)
    ensures var r := LineFields(line, i, logType, sourceFile, env);
      && (r.Some? && StartsWith(logType, "node") ==> Keys(r.value) == NodeParser.Fieldnames)
      && (r.Some? && !StartsWith(logType, "node") && StartsWith(logType, "python") ==> Keys(r.value) == PythonParser.PyFieldnames)
      && (!StartsWith(logType, "node") && !StartsWith(logType, "python") ==> r.None?)
  {
    var r := LineFields(line, i, logType, sourceFile, env);
    if r.Some? {
      if StartsWith(logType, "node") {
        var e := NodeParser.ParsedLine(line, sourceFile).value;
        NodeKeys(NodeParser.CsvRow(e, env.iso(i)));
        NodeParser.CsvRowRoundTrip(e, env.iso(i));
      } else if StartsWith(logType, "python") {
        var e := PythonParser.Kept(PythonParser.ParseLine(line, ParserLogType(logType), sourceFile, env.rd, env.now(i))).value;
        PythonParser.CsvRowRoundTrip(e, env.iso(i));
        assert Keys(r.value) == PythonParser.Columns(PythonParser.CsvRow(e, env.iso(i)));
      }
    }
  }

  lemma NodeKeys(row: NodeParser.Row)
    ensures Keys(NodeFields(row)) == NodeParser.Columns(row)
  {
  }

  // ---------------------------------------------------------------------
  // Tailing

  /** `file_positions.get(path, 0)`. */
  function Position(positions: map<string, nat>, path: string): nat {
    if path in positions then positions[path] else 0
  }

  /**
   * What a read from `position` sees: the rest of the file, or nothing
   * when the file is now shorter than the position (no rotation check).
   */
  function Unread(content: string, position: nat): (r: string)
    ensures position <= |content| ==> content == content[..position] + r
    ensures |content| <= position ==> r == []
  {
    if position <= |content| then content[position..] else []
  }

  /** `f.tell()` after the read: the end of the file, or the position when it lies beyond the end. */
  function EndPosition(content: string, position: nat): (r: nat)
    ensures r >= position && r >= |content|
    ensures r == |content| || r == position
  {
    if position <= |content| then |content| else position
  }

  /** The non-blank, stripped lines a change notification reads. */
  function NewLines(positions: map<string, nat>, path: string, disk: Disk): seq<string>
    requires path in disk
  {
    NonBlankLines(Unread(disk[path], Position(positions, path)))
  }

  /** The positions after `initialize_file_positions`: every walked, watched, readable file at its end. */
  function InitialPositions(positions: map<string, nat>, types: Patterns, walked: seq<string>, disk: Disk): map<string, nat> {
    if walked == [] then positions
    else
      var before := InitialPositions(positions, types, walked[..|walked| - 1], disk);
      var path := walked[|walked| - 1];
      if ShouldMonitorFile(types, path) && path in disk then before[path := |disk[path]|] else before
  }

  /**
   * After initialisation every walked, watched, readable file is positioned
   * at its end, and the position of any other file is unchanged.
   */
  lemma InitialPositionsSpec(positions: map<string, nat>, types: Patterns, walked: seq<string>, disk: Disk)
    ensures var after := InitialPositions(positions, types, walked, disk);
      && (forall p :: p in walked && ShouldMonitorFile(types, p) && p in disk ==> p in after && after[p] == |disk[p]|)
      && (forall p :: p !in walked || !ShouldMonitorFile(types, p) || p !in disk ==>
            (p in after <==> p in positions) && (p in positions ==> after[p] == positions[p]))
  {
    forall p | p in walked && ShouldMonitorFile(types, p) && p in disk
      ensures var after := InitialPositions(positions, types, walked, disk); p in after && after[p] == |disk[p]|
    {
      InitialPositionsTracked(positions, types, walked, disk, p);
    }
    forall p | p !in walked || !ShouldMonitorFile(types, p) || p !in disk
      ensures var after := InitialPositions(positions, types, walked, disk);
        (p in after <==> p in positions) && (p in positions ==> after[p] == positions[p])
    {
      InitialPositionsOther(positions, types, walked, disk, p);
    }
  }

  lemma {:induction false} InitialPositionsTracked(positions: map<string, nat>, types: Patterns, walked: seq<string>, disk: Disk, p: string)
    requires p in walked && ShouldMonitorFile(types, p) && p in disk
    ensures var after := InitialPositions(positions, types, walked, disk); p in after && after[p] == |disk[p]|
    decreases |walked|
  {
    var init, last := walked[..|walked| - 1], walked[|walked| - 1];
    var before := InitialPositions(positions, types, init, disk);
    var after := InitialPositions(positions, types, walked, disk);
    assert after == if ShouldMonitorFile(types, last) && last in disk then before[last := |disk[last]|] else before;
    if p != last {
      assert walked == init + [last];
      assert p in init;
      InitialPositionsTracked(positions, types, init, disk, p);
    }
  }

  lemma {:induction false} InitialPositionsOther(positions: map<string, nat>, types: Patterns, walked: seq<string>, disk: Disk, p: string)
    requires p !in walked || !ShouldMonitorFile(types, p) || p !in disk
    ensures var after := InitialPositions(positions, types, walked, disk);
      (p in after <==> p in positions) && (p in positions ==> after[p] == positions[p])
    decreases |walked|
  {
    if walked != [] {
      var init, last := walked[..|walked| - 1], walked[|walked| - 1];
      assert walked == init + [last];
      assert p !in init || !ShouldMonitorFile(types, p) || p !in disk;
      InitialPositionsOther(positions, types, init, disk, p);
    }
  }

  /**
   * Content present when the streamer initialised is never read again:
   * when the file has since grown by `added`, the next change reads
   * exactly the lines of `added`.
   */
  lemma NoReplay(positions: map<string, nat>, types: Patterns, walked: seq<string>, before: Disk, path: string, added: string)
    requires path in walked && ShouldMonitorFile(types, path) && path in before
    ensures var after := InitialPositions(positions, types, walked, before);
      var now := before[path := before[path] + added];
      NewLines(after, path, now) == NonBlankLines(added)
  {
    InitialPositionsTracked(positions, types, walked, before, path);
    var a := before[path];
    assert (a + added)[|a|..] == added;
  }

  /**
   * A file that grew after a line break since the last read: the lines
   * read before and those read now are the lines of the whole file, and a
   * second notification without growth reads nothing.
   */
  lemma TailSpec(positions: map<string, nat>, path: string, disk: Disk, a: string, b: string)
    requires path in disk && disk[path] == a + b
    requires Position(positions, path) == |a|
    requires a == [] || IsNewline(a[|a| - 1])
    ensures NonBlankLines(a) + NewLines(positions, path, disk) == NonBlankLines(a + b)
    ensures NewLines(positions[path := EndPosition(disk[path], |a|)], path, disk) == []
  {
    assert (a + b)[|a|..] == b;
    NonBlankLinesAppend(a, b);
    assert Unread(a + b, |a + b|) == [];
    assert NonBlankLines([]) == [];
  }

  /**
   * `process_file_changes` on the positions and rows so far: a path without
   * a log type or that cannot be opened changes nothing; otherwise the
   * position moves to where the read ended and the entries parsed from the
   * new lines, if there are any, are routed to the CSV files.
   */
  function AfterChange(positions: map<string, nat>, written: Written, csvFiles: map<string, seq<string>>,
                       filePath: string, disk: Disk, env: Env): (map<string, nat>, Written)
  {
    match GetLogType(filePath)
    case None => (positions, written)
    case Some(logType) =>
      if filePath !in disk then (positions, written)
      else
        var fs := NewFields(NewLines(positions, filePath, disk), logType, Basename(filePath), env);
        (positions[filePath := EndPosition(disk[filePath], Position(positions, filePath))],
         if fs == [] then written else Routed(written, csvFiles, fs, logType))
  }

  /** A change notification for a readable file of a log type leaves its position at or past the end. */
  lemma AfterChangeReachesEnd(positions: map<string, nat>, written: Written, csvFiles: map<string, seq<string>>,
                              filePath: string, disk: Disk, env: Env)
    requires GetLogType(filePath).Some? && filePath in disk
    ensures var r := AfterChange(positions, written, csvFiles, filePath, disk, env);
      filePath in r.0 && r.0[filePath] >= |disk[filePath]| && r.0[filePath] >= Position(positions, filePath)
  {
  }

  /** A change notification for a file read to its end leaves the rows as they are and the position where it is. */
  lemma AfterChangeAtEnd(positions: map<string, nat>, written: Written, csvFiles: map<string, seq<string>>,
                         filePath: string, disk: Disk, env: Env)
    requires GetLogType(filePath).Some? && filePath in disk && Position(positions, filePath) >= |disk[filePath]|
    ensures AfterChange(positions, written, csvFiles, filePath, disk, env)
      == (positions[filePath := Position(positions, filePath)], written)
  {
    ReadToEnd(positions, filePath, disk, GetLogType(filePath).value, Basename(filePath), env);
  }

  /** A position at or past the end of the file reads no entries. */
  lemma ReadToEnd(positions: map<string, nat>, path: string, disk: Disk, logType: string, sourceFile: string, env: Env)
    requires path in disk && Position(positions, path) >= |disk[path]|
    ensures NewFields(NewLines(positions, path, disk), logType, sourceFile, env) == []
  {
    assert Unread(disk[path], Position(positions, path)) == [];
    assert NonBlankLines([]) == [];
    PresentSpec(LineFieldsAll([], logType, sourceFile, env));
  }

  // ---------------------------------------------------------------------
  // The streamer

  /** A watchdog modification event. */
  datatype Event = Event(srcPath: string, isDirectory: bool)

  class Streamer {
    /** `config["file_patterns"]`. */
    const types: Patterns
    /** The headers of each configured CSV file, by its name in `config["csv_files"]`. */
    const csvFiles: map<string, seq<string>>
    /** `file_positions`. */
    var positions: map<string, nat>
    /** The rows appended to each CSV file. */
    var written: Written

    predicate Valid()
      reads this
    {
      written.Keys == csvFiles.Keys
    }

    constructor (types: Patterns, csvFiles: map<string, seq<string>>)
      ensures Valid()
      ensures this.types == types && this.csvFiles == csvFiles
      ensures positions == map[] && forall n :: n in csvFiles ==> written[n] == []
    {
      this.types := types;
      this.csvFiles := csvFiles;
      positions := map[];
      written := map n | n in csvFiles :: [];
    }

    /** `_append_to_file`: one row per entry, each with exactly the file's headers. */
    method AppendToFile(entries: seq<Fields>, csvName: string)
      requires Valid() && csvName in csvFiles
      modifies this
      ensures Valid()
      ensures written == AppendedTo(old(written), csvFiles, entries, csvName)
      ensures positions == old(positions)
    {
      var headers := csvFiles[csvName];
      var rows: seq<CsvLine> := [];
      for i := 0 to |entries|
        invariant rows == Projections(headers, entries[..i])
        invariant written == old(written) && positions == old(positions)
      {
        var row := ProjectRow(headers, entries[i]);
        rows := rows + [row];
      }
      assert entries[..|entries|] == entries;
      written := written[csvName := written[csvName] + rows];
    }

    /** The loop over the headers that fills one row. */
    static method ProjectRow(headers: seq<string>, entry: Fields) returns (row: CsvLine)
      ensures row == Projection(headers, entry)
    {
      row := [];
      for k := 0 to |headers|
        invariant row == Projection(headers[..k], entry)
      {
        row := row + [(headers[k], CellText(Lookup(entry, headers[k], Str(""))))];
        assert headers[..k + 1][..k] == headers[..k];
      }
      assert headers[..|headers|] == headers;
    }

    /** `append_to_csv`. */
    method AppendToCsv(entries: seq<Fields>, logType: string)
      requires Valid()
      modifies this
      ensures Valid()
      ensures written == Routed(old(written), csvFiles, entries, logType)
      ensures positions == old(positions)
    {
      if logType in csvFiles {
        AppendToFile(entries, logType);
      }
      if "combined" in csvFiles {
        AppendToFile(entries, "combined");
      }
    }

    /**
     * `process_new_lines`: the row dicts of the lines that give one; when
     * there are any they are routed to the CSV files.
     */
    method ProcessNewLines(lines: seq<string>, logType: string, filePath: string, env: Env)
      requires Valid()
      modifies this
      ensures Valid()
      ensures var fs := NewFields(lines, logType, Basename(filePath), env);
        written == if fs == [] then old(written) else Routed(old(written), csvFiles, fs, logType)
      ensures positions == old(positions)
    {
      var source := Basename(filePath);
      var entries: seq<Fields> := [];
      for i := 0 to |lines|
        invariant entries == NewFields(lines[..i], logType, source, env)
        invariant written == old(written) && positions == old(positions)
      {
        var f := LineFields(lines[i], i, logType, source, env);
        NewFieldsStep(lines, i, logType, source, env);
        if f.Some? {
          entries := entries + [f.value];
        }
      }
      assert lines[..|lines|] == lines;
      if entries != [] {
        AppendToCsv(entries, logType);
      }
    }

    /** `process_file_changes`, as `AfterChange` describes it. */
    method ProcessFileChanges(filePath: string, disk: Disk, env: Env)
      requires Valid()
      modifies this
      ensures Valid()
      ensures (positions, written) == AfterChange(old(positions), old(written), csvFiles, filePath, disk, env)
    {
      var logType := GetLogType(filePath);
      if logType.None? || filePath !in disk {
        return;
      }
      var content := disk[filePath];
      var current := Position(positions, filePath);
      var lines := NonBlankLines(Unread(content, current));
      positions := positions[filePath := EndPosition(content, current)];
      if lines != [] {
        ProcessNewLines(lines, logType.value, filePath, env);
      } else {
        assert NewFields(lines, logType.value, Basename(filePath), env) == [];
      }
    }

    /** `initialize_file_positions`, over the files the directory walk yields, in walk order. */
    method InitializeFilePositions(walked: seq<string>, disk: Disk)
      requires Valid()
      modifies this
      ensures Valid()
      ensures positions == InitialPositions(old(positions), types, walked, disk)
      ensures written == old(written)
    {
      for i := 0 to |walked|
        invariant positions == InitialPositions(old(positions), types, walked[..i], disk)
        invariant written == old(written)
      {
        var path := walked[i];
        assert walked[..i + 1][..i] == walked[..i] && walked[..i + 1][i] == path;
        if ShouldMonitorFile(types, path) && path in disk {
          positions := positions[path := |disk[path]|];
        }
      }
      assert walked[..|walked|] == walked;
    }

    /** `on_modified` of the file handler: a directory or an unwatched file is ignored, any other file is processed. */
    method OnModified(event: Event, disk: Disk, env: Env)
      requires Valid()
      modifies this
      ensures Valid()
      ensures (positions, written) ==
        if !event.isDirectory && ShouldMonitorFile(types, event.srcPath)
        then AfterChange(old(positions), old(written), csvFiles, event.srcPath, disk, env)
        else (old(positions), old(written))
    {
      if event.isDirectory {
        return;
      }
      if ShouldMonitorFile(types, event.srcPath) {
        ProcessFileChanges(event.srcPath, disk, env);
      }
    }
  }
}
