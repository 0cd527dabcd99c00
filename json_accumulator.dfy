/**
 * The backend `JSONAccumulator`: a deduplicating, append-only store of
 * parsed records. Each record is appended as one JSON line to the file of
 * its category and of the week it is written in, unless a record with the
 * same fingerprint was stored before; the set of fingerprints is seeded
 * from the files already on disk.
 *
 * The `unified_logs` directory is a map from file name to file content.
 * `json.loads`/`json.dumps` are the `Decoder`/`Encoder` parameters and the
 * clock is passed in as a `Date` and an ISO time string.
 */
module JsonAccumulator {
  import opened Wrappers
  import opened Text
  import opened Order
  import opened Values
  import opened IsoWeek

  // ---------------------------------------------------------------------
  // Fingerprints

  /** The fields that make a record unique, in the order they are joined. */
  const KeyNames: seq<string> := ["timestamp", "source", "message", "level", "file_path"]

  /** `str(entry.get(k, ''))` for each key field. */
  function KeyFields(entry: Record): (r: seq<string>)
    ensures |r| == |KeyNames|
    ensures forall i :: 0 <= i < |KeyNames| ==> r[i] == Show(Get(entry, KeyNames[i], Str("")))
  {
    seq(|KeyNames|, i requires 0 <= i < |KeyNames| => Show(Get(entry, KeyNames[i], Str(""))))
  }

  /**
   * `_generate_log_hash`, keeping the joined key string itself in place of
   * its md5 digest.
   */
  function Fingerprint(entry: Record): string {
    Join("|", KeyFields(entry))
  }

  /** Records that agree on the five key fields collide, whatever else they hold. */
  lemma FingerprintKeyFieldsOnly(a: Record, b: Record)
    requires forall k :: k in KeyNames ==> Get(a, k, Str("")) == Get(b, k, Str(""))
    ensures Fingerprint(a) == Fingerprint(b)
  {
    assert KeyFields(a) == KeyFields(b);
  }

  /** When no key field renders with a "|", equal fingerprints mean equal key fields. */
  lemma FingerprintSeparates(a: Record, b: Record)
    requires forall i :: 0 <= i < |KeyNames| ==> '|' !in KeyFields(a)[i] && '|' !in KeyFields(b)[i]
    requires Fingerprint(a) == Fingerprint(b)
    ensures KeyFields(a) == KeyFields(b)
  {
    JoinInjective('|', KeyFields(a), KeyFields(b));
  }

  // ---------------------------------------------------------------------
  // File names

  /** `_get_file_path(log_type, week)` for a log type other than "all". */
  function FileName(logType: string, week: string): string {
    "unified_" + logType + "_logs_" + week + ".jsonl"
  }

  /** The names the glob `unified_*_logs_*.jsonl` matches. */
  predicate Unified(name: string) {
    |name| >= 14 && StartsWith(name, "unified_") && EndsWith(name, ".jsonl")
    && Contains(name[8..|name| - 6], "_logs_")
  }

  /** The names the glob `unified_*_logs_<week>.jsonl` (the "all" pattern) matches. */
  predicate InWeek(name: string, week: string) {
    var suffix := "_logs_" + week + ".jsonl";
    |name| >= 8 + |suffix| && StartsWith(name, "unified_") && EndsWith(name, suffix)
  }

  /** Every category file is seen by the start-up scan and by the "all" pattern of its week. */
  lemma FileNameMatches(logType: string, week: string)
    ensures Unified(FileName(logType, week))
    ensures InWeek(FileName(logType, week), week)
  {
    var name := FileName(logType, week);
    assert name[8..|name| - 6] == logType + "_logs_" + week;
    assert OccursAt(logType + "_logs_" + week, "_logs_", |logType|);
    ContainsAt(logType + "_logs_" + week, "_logs_", |logType|);
    assert name == "unified_" + logType + ("_logs_" + week + ".jsonl");
  }

  // ---------------------------------------------------------------------
  // The store and its two writes

  /** The directory's files and the fingerprints of the records stored so far. */
  datatype Store = Store(files: map<string, string>, processed: set<string>)

  /** A file's content; a file that does not exist yet reads as empty. */
  function Content(files: map<string, string>, name: string): string {
    if name in files then files[name] else ""
  }

  /** `_append_to_file`: a record whose fingerprint was seen is skipped. */
  function AppendEntry(s: Store, name: string, entry: Record, encode: Encoder): Store {
    var h := Fingerprint(entry);
    if h in s.processed then s
    else Store(s.files[name := Content(s.files, name) + encode(entry) + "\n"], s.processed + {h})
  }

  /** An append leaves every other file alone, and one that is not skipped adds exactly one line and one fingerprint. */
  lemma AppendEntryEffect(s: Store, name: string, entry: Record, encode: Encoder)
    ensures var r := AppendEntry(s, name, entry, encode);
      && Fingerprint(entry) in r.processed
      && (forall n :: n != name ==> Content(r.files, n) == Content(s.files, n) && (n in r.files <==> n in s.files))
      && (Fingerprint(entry) in s.processed ==> r == s)
      && (Fingerprint(entry) !in s.processed ==>
            Content(r.files, name) == Content(s.files, name) + encode(entry) + "\n"
            && r.processed == s.processed + {Fingerprint(entry)})
  {
  }

  /**
   * The partition `add_log` routes a record to, tested in the order
   * request, error, info; `None` when the record is left uncategorised.
   */
  function Route(source: Value, filePath: string): (r: Option<string>)
    ensures r.Some? ==> r.value == "request" || r.value == "error" || r.value == "info"
    ensures source != Str("python") && source != Str("node") ==> r.None?
  {
    if source == Str("python") then
      if Contains(filePath, "access-") then Some("request")
      else if Contains(filePath, "error-") || Contains(filePath, "warning-") then Some("error")
      else if Contains(filePath, "info-") then Some("info")
      else None
    else if source == Str("node") then
      if Contains(filePath, "requestsLogs") then Some("request")
      else if Contains(filePath, "errorLogs") then Some("error")
      else if Contains(filePath, "accessLogs") then Some("info")
      else None
    else None
  }

  /** The Python routing table: each partition exactly when no earlier one applies. */
  lemma RoutePython(filePath: string)
    ensures Route(Str("python"), filePath) == Some("request") <==> Contains(filePath, "access-")
    ensures Route(Str("python"), filePath) == Some("error") <==>
      !Contains(filePath, "access-") && (Contains(filePath, "error-") || Contains(filePath, "warning-"))
    ensures Route(Str("python"), filePath) == Some("info") <==>
      !Contains(filePath, "access-") && !Contains(filePath, "error-") && !Contains(filePath, "warning-")
      && Contains(filePath, "info-")
  {
  }

  /** The Node routing table: requestsLogs, then errorLogs, then accessLogs (filed as info). */
  lemma RouteNode(filePath: string)
    ensures Route(Str("node"), filePath) == Some("request") <==> Contains(filePath, "requestsLogs")
    ensures Route(Str("node"), filePath) == Some("error") <==>
      !Contains(filePath, "requestsLogs") && Contains(filePath, "errorLogs")
    ensures Route(Str("node"), filePath) == Some("info") <==>
      !Contains(filePath, "requestsLogs") && !Contains(filePath, "errorLogs") && Contains(filePath, "accessLogs")
  {
  }

  /** The store after `add_log`, and the caller's dict as `add_log` leaves it. */
  datatype Added = Added(store: Store, stamped: Record)

  /**
   * Where `add_log` gives up before writing: an empty record, a level
   * without `.lower()`, or a file path `os.path.basename` rejects (the
   * exception is caught and printed).
   */
  predicate AddRejected(parsed: Record) {
    parsed == map[]
    || ("level" in parsed && !parsed["level"].Str?)
    || !Get(parsed, "file_path", Str("")).Str?
  }

  /** The record with a timestamp, added when it had none. */
  function Stamp(parsed: Record, now: string): (r: Record)
    ensures "timestamp" in r
    ensures "timestamp" in parsed ==> r == parsed
  {
    if "timestamp" in parsed then parsed else parsed["timestamp" := Str(now)]
  }

  /** `add_log` in the week `week`, at time `now`. */
  function AddEntry(s: Store, parsed: Record, week: string, now: string, encode: Encoder): Added {
    if AddRejected(parsed) then Added(s, parsed)
    else
      var stamped := Stamp(parsed, now);
      match Route(Get(parsed, "source", Null), Get(parsed, "file_path", Str("")).s)
      case None => Added(s, stamped)
      case Some(category) => Added(AppendEntry(s, FileName(category, week), stamped, encode), stamped)
  }

  /**
   * Adding the record `add_log` returned a second time changes nothing,
   * even in another week, i.e. when it would land in another file.
   */
  lemma AddEntryTwice(s: Store, parsed: Record, week: string, week2: string, now: string, now2: string, encode: Encoder)
    ensures var a := AddEntry(s, parsed, week, now, encode);
      AddEntry(a.store, a.stamped, week2, now2, encode) == a
  {
    var a := AddEntry(s, parsed, week, now, encode);
    if !AddRejected(parsed) {
      var stamped := Stamp(parsed, now);
      assert Get(stamped, "file_path", Str("")) == Get(parsed, "file_path", Str(""));
      assert Get(stamped, "source", Null) == Get(parsed, "source", Null);
      assert !AddRejected(stamped);
      match Route(Get(parsed, "source", Null), Get(parsed, "file_path", Str("")).s)
      case None =>
      case Some(category) =>
        AppendEntryEffect(s, FileName(category, week), stamped, encode);
    }
  }

  /** A record whose fingerprint is stored already is not written again, to any file. */
  lemma AddEntryDuplicate(s: Store, parsed: Record, week: string, now: string, encode: Encoder)
    requires Fingerprint(Stamp(parsed, now)) in s.processed
    ensures AddEntry(s, parsed, week, now, encode).store == s
  {
  }

  /** A record that is written lands in the file of its partition and the current week; "all" is never written. */
  lemma AddEntryTarget(s: Store, parsed: Record, week: string, now: string, encode: Encoder, name: string)
    requires Content(AddEntry(s, parsed, week, now, encode).store.files, name) != Content(s.files, name)
    ensures !AddRejected(parsed)
    ensures var c := Route(Get(parsed, "source", Null), Get(parsed, "file_path", Str("")).s);
      c.Some? && c.value != "all" && name == FileName(c.value, week)
  {
    if !AddRejected(parsed) {
      match Route(Get(parsed, "source", Null), Get(parsed, "file_path", Str("")).s)
      case None =>
      case Some(category) =>
        AppendEntryEffect(s, FileName(category, week), Stamp(parsed, now), encode);
    }
  }

  // ---------------------------------------------------------------------
  // What is on disk

  /** The fingerprint of a stored line, when it decodes to a record. */
  function LineHash(line: string, decode: Decoder): Option<string> {
    match decode(line)
    case Some(Dict(fields)) => Some(Fingerprint(fields))
    case _ => None
  }

  function LineHashSet(line: string, decode: Decoder): set<string> {
    match LineHash(line, decode)
    case Some(h) => {h}
    case None => {}
  }

  /** The fingerprints of the record lines among `lines`. */
  function LinesHashes(lines: seq<string>, decode: Decoder): set<string>
    decreases |lines|
  {
    if lines == [] then {}
    else LinesHashes(lines[..|lines| - 1], decode) + LineHashSet(lines[|lines| - 1], decode)
  }

  lemma {:induction false} LinesHashesPrefix(lines: seq<string>, i: nat, decode: Decoder)
    requires i <= |lines|
    ensures LinesHashes(lines[..i], decode) <= LinesHashes(lines, decode)
    decreases |lines| - i
  {
    if i < |lines| {
      LinesHashesPrefix(lines, i + 1, decode);
      assert lines[..i + 1][..i] == lines[..i];
    } else {
      assert lines[..i] == lines;
    }
  }

  lemma {:induction false} LinesHashesAppend(a: seq<string>, b: seq<string>, decode: Decoder)
    ensures LinesHashes(a + b, decode) == LinesHashes(a, decode) + LinesHashes(b, decode)
    decreases |b|
  {
    if b == [] {
      assert a + b == a;
    } else {
      var b' := b[..|b| - 1];
      assert (a + b)[..|a + b| - 1] == a + b';
      LinesHashesAppend(a, b', decode);
    }
  }

  /** The fingerprints of the records in a file, as the start-up scan reads it. */
  function FileHashes(content: string, decode: Decoder): set<string> {
    LinesHashes(NonBlankLines(content), decode)
  }

  /** The fingerprints of the records in the files `names`. */
  function HashesOf(files: map<string, string>, names: set<string>, decode: Decoder): set<string> {
    set n, h | n in names && n in files && h in FileHashes(files[n], decode) :: h
  }

  lemma HashesOfAdd(files: map<string, string>, names: set<string>, n: string, decode: Decoder)
    requires n in files
    ensures HashesOf(files, names + {n}, decode) == HashesOf(files, names, decode) + FileHashes(files[n], decode)
  {
  }

  lemma HashesOfMono(files: map<string, string>, a: set<string>, b: set<string>, decode: Decoder)
    requires a <= b
    ensures HashesOf(files, a, decode) <= HashesOf(files, b, decode)
  {
  }

  /** The unified files of a directory. */
  function UnifiedNames(files: map<string, string>): set<string> {
    set n | n in files && Unified(n)
  }

  /** The fingerprints of every record line of every unified file. */
  function DiskHashes(files: map<string, string>, decode: Decoder): set<string> {
    HashesOf(files, UnifiedNames(files), decode)
  }

  /** A line that decodes to JSON other than an object, on which `.get` raises. */
  predicate NonRecord(line: string, decode: Decoder) {
    decode(line).Some? && !decode(line).value.Dict?
  }

  predicate HasNonRecordLine(files: map<string, string>, decode: Decoder) {
    exists n, k :: n in files && Unified(n) && 0 <= k < |NonBlankLines(files[n])| && NonRecord(NonBlankLines(files[n])[k], decode)
  }

  lemma NonRecordLine(files: map<string, string>, n: string, k: int, decode: Decoder)
    requires n in files && Unified(n) && 0 <= k < |NonBlankLines(files[n])|
    requires NonRecord(NonBlankLines(files[n])[k], decode)
    ensures HasNonRecordLine(files, decode)
  {
  }

  /** What a scan stopped in the unified file `n` has loaded is part of the disk's fingerprints. */
  lemma StoppedScan(disk: map<string, string>, done: set<string>, n: string, found: set<string>, k: int, decode: Decoder)
    requires n in UnifiedNames(disk) && done <= UnifiedNames(disk)
    requires found <= FileHashes(disk[n], decode)
    requires 0 <= k < |NonBlankLines(disk[n])| && NonRecord(NonBlankLines(disk[n])[k], decode)
    ensures HashesOf(disk, done, decode) + found <= DiskHashes(disk, decode)
    ensures HasNonRecordLine(disk, decode)
  {
    HashesOfAdd(disk, done, n, decode);
    HashesOfMono(disk, done + {n}, UnifiedNames(disk), decode);
    NonRecordLine(disk, n, k, decode);
  }

  /** Empty, or ending with a line break, so that an append starts a new line. */
  predicate Terminated(content: string) {
    content == [] || content[|content| - 1] == '\n'
  }

  /**
   * The invariant the store keeps: the fingerprints are those of the
   * records on disk, and every unified file ends with a line break.
   */
  predicate Consistent(s: Store, decode: Decoder) {
    s.processed == DiskHashes(s.files, decode)
    && forall n :: n in s.files && Unified(n) ==> Terminated(s.files[n])
  }

  /** `json.dumps` writes one line that `json.loads` reads back as the record. */
  predicate RoundTrips(encode: Encoder, decode: Decoder, entry: Record) {
    var t := encode(entry);
    t != [] && Strip(t) == t && (forall i :: 0 <= i < |t| ==> !IsNewline(t[i]))
    && decode(t) == Some(Dict(entry))
  }

  /** Appending a round-tripping record to a terminated file adds exactly its fingerprint to the file's. */
  lemma AppendedFileHashes(content: string, entry: Record, encode: Encoder, decode: Decoder)
    requires Terminated(content) && RoundTrips(encode, decode, entry)
    ensures FileHashes(content + encode(entry) + "\n", decode) == FileHashes(content, decode) + {Fingerprint(entry)}
  {
    var t := encode(entry);
    AppendedLines(content, t);
    LinesHashesAppend(NonBlankLines(content), [t], decode);
    assert [t][..0] == [];
  }

  /** A one-line record appended to a terminated file is read back as one more line. */
  lemma AppendedLines(content: string, t: string)
    requires Terminated(content)
    requires t != [] && Strip(t) == t && forall i :: 0 <= i < |t| ==> !IsNewline(t[i])
    ensures NonBlankLines(content + t + "\n") == NonBlankLines(content) + [t]
  {
    assert content + t + "\n" == content + (t + "\n");
    NonBlankLinesAppend(content, t + "\n");
    SingleLine(t);
  }

  /** Changing one file changes the disk's fingerprints by that file's. */
  lemma HashesOfUpdate(files: map<string, string>, name: string, content: string, decode: Decoder)
    requires Unified(name)
    requires FileHashes(Content(files, name), decode) <= FileHashes(content, decode)
    ensures DiskHashes(files[name := content], decode)
      == DiskHashes(files, decode) + FileHashes(content, decode)
  {
    var files' := files[name := content];
    forall h | h in DiskHashes(files', decode) ensures h in DiskHashes(files, decode) + FileHashes(content, decode) {
      var n :| n in UnifiedNames(files') && n in files' && h in FileHashes(files'[n], decode);
      if n != name {
        assert n in UnifiedNames(files);
      }
    }
    forall h | h in DiskHashes(files, decode) + FileHashes(content, decode) ensures h in DiskHashes(files', decode) {
      if h in FileHashes(content, decode) {
        assert name in UnifiedNames(files');
      } else {
        var n :| n in UnifiedNames(files) && n in files && h in FileHashes(files[n], decode);
        assert n in UnifiedNames(files');
      }
    }
  }

  /** A fresh record appended to a unified file keeps the store consistent. */
  lemma AppendEntryConsistent(s: Store, name: string, entry: Record, encode: Encoder, decode: Decoder)
    requires Consistent(s, decode) && Unified(name) && RoundTrips(encode, decode, entry)
    ensures Consistent(AppendEntry(s, name, entry, encode), decode)
  {
    if Fingerprint(entry) !in s.processed {
      var content := Content(s.files, name) + encode(entry) + "\n";
      AppendedFileHashes(Content(s.files, name), entry, encode, decode);
      HashesOfUpdate(s.files, name, content, decode);
    }
  }

  /** `add_log` keeps the store consistent with the disk, given that `json.dumps` round-trips. */
  lemma AddEntryConsistent(s: Store, parsed: Record, week: string, now: string, encode: Encoder, decode: Decoder)
    requires Consistent(s, decode)
    requires RoundTrips(encode, decode, Stamp(parsed, now))
    ensures Consistent(AddEntry(s, parsed, week, now, encode).store, decode)
  {
    if !AddRejected(parsed) {
      var stamped := Stamp(parsed, now);
      match Route(Get(parsed, "source", Null), Get(parsed, "file_path", Str("")).s)
      case None =>
      case Some(category) =>
        FileNameMatches(category, week);
        AppendEntryConsistent(s, FileName(category, week), stamped, encode, decode);
    }
  }

  // ---------------------------------------------------------------------
  // Reading

  /** `log_entry.get("level", "").lower()`: raises unless the value is a dict with a string (or no) level. */
  function LevelOf(v: Value): Outcome<string> {
    var level :- GetV(v, "level", Str(""));
    LowerOf(level)
  }

  /**
   * What one stored line adds to `get_logs`' result: nothing when it does
   * not decode; the value when there is no level filter (`level == ""`) or
   * its lowercased level matches; `Raised` when the value has no level to
   * `get` or `lower`, which ends the reading of that file.
   */
  function LineLogs(line: string, level: string, decode: Decoder): Outcome<seq<Value>> {
    match decode(line)
    case None => Ok([])
    case Some(v) =>
      if level == "" then Ok([v])
      else
        var l :- LevelOf(v);
        Ok(if l == Lower(level) then [v] else [])
  }

  /** The values `get_logs` keeps from one file's lines, in order. */
  function FileLogs(lines: seq<string>, level: string, decode: Decoder): seq<Value>
    decreases |lines|
  {
    if lines == [] then []
    else
      match LineLogs(lines[0], level, decode)
      case Raised => []
      case Ok(vs) => vs + FileLogs(lines[1..], level, decode)
  }

  /** Without a level filter every decodable line is kept, in file order. */
  lemma {:induction false} FileLogsUnfiltered(lines: seq<string>, decode: Decoder)
    ensures |FileLogs(lines, "", decode)| <= |lines|
    ensures forall v :: v in FileLogs(lines, "", decode) <==> exists k :: 0 <= k < |lines| && decode(lines[k]) == Some(v)
    decreases |lines|
  {
    if lines != [] {
      FileLogsUnfiltered(lines[1..], decode);
      forall v ensures (exists k :: 0 <= k < |lines| && decode(lines[k]) == Some(v))
        <==> (decode(lines[0]) == Some(v) || exists k :: 0 <= k < |lines[1..]| && decode(lines[1..][k]) == Some(v))
      {
        if exists k :: 0 <= k < |lines| && decode(lines[k]) == Some(v) {
          var k :| 0 <= k < |lines| && decode(lines[k]) == Some(v);
          if k > 0 {
            assert lines[1..][k - 1] == lines[k];
          }
        }
        if exists k :: 0 <= k < |lines[1..]| && decode(lines[1..][k]) == Some(v) {
          var k :| 0 <= k < |lines[1..]| && decode(lines[1..][k]) == Some(v);
          assert lines[k + 1] == lines[1..][k];
        }
      }
    }
  }

  /** With a level filter every value kept is a record of that level, decoded from one of the lines. */
  lemma {:induction false} FileLogsFiltered(lines: seq<string>, level: string, decode: Decoder)
    requires level != ""
    ensures forall v :: v in FileLogs(lines, level, decode) ==>
      v.Dict? && LevelOf(v) == Ok(Lower(level)) && exists k :: 0 <= k < |lines| && decode(lines[k]) == Some(v)
    decreases |lines|
  {
    if lines != [] {
      FileLogsFiltered(lines[1..], level, decode);
      forall v | v in FileLogs(lines[1..], level, decode)
        ensures exists k :: 0 <= k < |lines| && decode(lines[k]) == Some(v)
      {
        var k :| 0 <= k < |lines[1..]| && decode(lines[1..][k]) == Some(v);
        assert lines[k + 1] == lines[1..][k];
      }
    }
  }

  /**
   * The files `get_logs` reads: for "all" every file of the week, each once
   * (in name order), else the one file of that type and week if it exists.
   */
  function MatchingFiles(files: map<string, string>, logType: string, week: string): (r: seq<string>)
    ensures forall n :: n in r ==> n in files
    ensures logType == "all" ==> forall n :: n in r <==> n in files && InWeek(n, week)
    ensures logType == "all" ==> Increasing(r)
    ensures logType != "all" ==> r == (if FileName(logType, week) in files then [FileName(logType, week)] else [])
  {
    if logType == "all" then
      var names := set n | n in files && InWeek(n, week);
      SortedSeqSpec(names);
      SortedSeq(names)
    else if FileName(logType, week) in files then [FileName(logType, week)]
    else []
  }

  /** For "all", each category file of the week is read. */
  lemma AllReadsEveryCategory(files: map<string, string>, week: string, category: string)
    requires FileName(category, week) in files
    ensures FileName(category, week) in MatchingFiles(files, "all", week)
  {
    FileNameMatches(category, week);
    SortedSeqSpec(set n | n in files && InWeek(n, week));
  }

  /** The logs of the files `names`, file after file. */
  function LogsOf(files: map<string, string>, names: seq<string>, level: string, decode: Decoder): seq<Value>
    requires forall n :: n in names ==> n in files
    decreases |names|
  {
    if names == [] then []
    else
      LogsOf(files, names[..|names| - 1], level, decode)
      + FileLogs(NonBlankLines(files[names[|names| - 1]]), level, decode)
  }

  lemma LogsOfStep(files: map<string, string>, names: seq<string>, i: nat, level: string, decode: Decoder)
    requires i < |names| && forall n :: n in names ==> n in files
    ensures LogsOf(files, names[..i + 1], level, decode)
      == LogsOf(files, names[..i], level, decode) + FileLogs(NonBlankLines(files[names[i]]), level, decode)
  {
    assert names[..i + 1][..i] == names[..i];
  }

  // ---------------------------------------------------------------------
  // Weeks

  /** `filename.split("_")[-1].replace(".jsonl", "")`. */
  function WeekOfName(name: string): string {
    ReplaceAll(AfterLast(name, '_'), ".jsonl", "")
  }

  lemma {:induction false} ReplaceSuffix(w: string)
    requires '.' !in w
    ensures ReplaceAll(w + ".jsonl", ".jsonl", "") == w
    decreases |w|
  {
    if w == [] {
      assert ReplaceAll(".jsonl"[6..], ".jsonl", "") == [];
    } else {
      assert (w + ".jsonl")[1..] == w[1..] + ".jsonl";
      assert (w + ".jsonl")[0] == w[0] != '.';
      assert !(".jsonl" <= w + ".jsonl");
      ReplaceSuffix(w[1..]);
    }
  }

  /**
   * The week listed for a file drops the year: `unified_<c>_logs_<y>_<w>.jsonl`
   * is listed as `<w>` (so "2025_W27" is listed as "W27").
   */
  lemma WeekOfFileName(category: string, year: string, w: string)
    requires '_' !in w && '.' !in w
    ensures WeekOfName(FileName(category, year + "_" + w)) == w
  {
    var name := FileName(category, year + "_" + w);
    assert name == ("unified_" + category + "_logs_" + year) + ['_'] + (w + ".jsonl");
    AfterLastAppend("unified_" + category + "_logs_" + year, '_', w + ".jsonl");
    ReplaceSuffix(w);
  }

  lemma WeekOfFileNameExample()
    ensures WeekOfName(FileName("info", "2025_W27")) == "W27"
  {
    assert "2025_W27" == "2025" + "_" + "W27";
    WeekOfFileName("info", "2025", "W27");
  }

  function WeeksOf(names: set<string>): set<string> {
    Image(names, WeekOfName)
  }

  lemma WeeksOfAdd(names: set<string>, n: string)
    ensures WeeksOf(names + {n}) == WeeksOf(names) + {WeekOfName(n)}
  {
    ImageAdd(names, n, WeekOfName);
  }

  /** `{f(x) for x in xs}`. */
  function Image<A, B>(xs: set<A>, f: A -> B): set<B> {
    set x | x in xs :: f(x)
  }

  /** The image of a set with one more element has that element's image added. */
  lemma ImageAdd<A, B>(xs: set<A>, x: A, f: A -> B)
    ensures Image(xs + {x}, f) == Image(xs, f) + {f(x)}
  {
    forall b | b in Image(xs + {x}, f) ensures b in Image(xs, f) + {f(x)} {
      var m :| m in xs + {x} && f(m) == b;
      if m != x {
        assert m in xs;
      }
    }
    forall b | b in Image(xs, f) + {f(x)} ensures b in Image(xs + {x}, f) {
      if b in Image(xs, f) {
        var m :| m in xs && f(m) == b;
        assert m in xs + {x};
      } else {
        assert x in xs + {x};
      }
    }
  }

  /** The weeks `get_available_weeks` lists: one per unified file, sorted, without repeats. */
  function AvailableWeeks(files: map<string, string>): (r: seq<string>)
    ensures Increasing(r)
    ensures forall w :: w in r <==> exists n :: n in files && Unified(n) && WeekOfName(n) == w
  {
    SortedSeqSpec(WeeksOf(UnifiedNames(files)));
    SortedSeq(WeeksOf(UnifiedNames(files)))
  }

  // ---------------------------------------------------------------------
  // The accumulator object

  /**
   * The scan of one file's lines: the fingerprints of the records read, and
   * the line decoding to JSON other than an object that stopped it, if any.
   */
  method HarvestLines(lines: seq<string>, decode: Decoder) returns (found: set<string>, stoppedAt: Option<nat>)
    ensures found <= LinesHashes(lines, decode)
    ensures stoppedAt.Some? ==> stoppedAt.value < |lines| && NonRecord(lines[stoppedAt.value], decode)
    ensures stoppedAt.None? ==> found == LinesHashes(lines, decode)
  {
    found := {};
    var i := 0;
    while i < |lines|
      invariant 0 <= i <= |lines|
      invariant found == LinesHashes(lines[..i], decode)
    {
      if NonRecord(lines[i], decode) {
        LinesHashesPrefix(lines, i, decode);
        return found, Some(i);
      }
      assert lines[..i + 1][..i] == lines[..i];
      found := found + LineHashSet(lines[i], decode);
      i := i + 1;
    }
    assert lines[..i] == lines;
    return found, None;
  }

  /**
   * The scan of the unified files, each in turn in no particular order; a
   * line that decodes to JSON other than an object stops the whole scan.
   */
  method ScanHashes(disk: map<string, string>, decode: Decoder) returns (loaded: set<string>)
    ensures loaded <= DiskHashes(disk, decode)
    ensures !HasNonRecordLine(disk, decode) ==> loaded == DiskHashes(disk, decode)
  {
    var names := UnifiedNames(disk);
    var pending := names;
    loaded := {};
    ghost var done: set<string> := {};
    while pending != {}
      invariant pending <= names && done == names - pending
      invariant loaded == HashesOf(disk, done, decode)
      decreases pending
    {
      var n :| n in pending;
      var found, stoppedAt := HarvestLines(NonBlankLines(disk[n]), decode);
      if stoppedAt.Some? {
        StoppedScan(disk, done, n, found, stoppedAt.value, decode);
        return loaded + found;
      }
      HashesOfAdd(disk, done, n, decode);
      loaded := loaded + found;
      pending := pending - {n};
      done := done + {n};
    }
  }

  class Accumulator {
    var files: map<string, string>
    var processed: set<string>
    var currentWeek: string

    /** The store the object holds. */
    function State(): Store
      reads this
    {
      Store(files, processed)
    }

    /**
     * `__init__`: the week of `today`, and the fingerprints of the records
     * already in the unified files. A stored line that decodes to JSON
     * other than an object aborts the scan, keeping what was loaded.
     */
    constructor (disk: map<string, string>, today: Date, decode: Decoder)
      requires ValidDate(today)
      ensures files == disk && currentWeek == WeekKey(today)
      ensures processed <= DiskHashes(disk, decode)
      ensures !HasNonRecordLine(disk, decode) ==> processed == DiskHashes(disk, decode)
    {
      files := disk;
      processed := {};
      currentWeek := WeekKey(today);
      new;
      LoadExistingHashes(decode);
    }

    /**
     * `_load_existing_log_hashes`. The fingerprints found before a scan is
     * stopped stay loaded.
     */
    method LoadExistingHashes(decode: Decoder)
      modifies this
      ensures files == old(files) && currentWeek == old(currentWeek)
      ensures old(processed) <= processed <= old(processed) + DiskHashes(files, decode)
      ensures !HasNonRecordLine(files, decode) ==> processed == old(processed) + DiskHashes(files, decode)
    {
      var loaded := ScanHashes(files, decode);
      processed := processed + loaded;
    }

    /** `_append_to_file`. */
    method AppendToFile(name: string, entry: Record, encode: Encoder)
      modifies this
      ensures State() == AppendEntry(old(State()), name, entry, encode)
      ensures currentWeek == old(currentWeek)
    {
      var h := Fingerprint(entry);
      if h in processed {
        return;
      }
      files := files[name := Content(files, name) + encode(entry) + "\n"];
      processed := processed + {h};
    }

    /**
     * `add_log` on the day `today` at time `now`; returns the record as the
     * caller's dict is left (with the timestamp it may have gained).
     */
    method AddLog(parsed: Record, today: Date, now: string, encode: Encoder) returns (stamped: Record)
      requires ValidDate(today)
      modifies this
      ensures Added(State(), stamped) == AddEntry(old(State()), parsed, WeekKey(today), now, encode)
      ensures currentWeek == old(currentWeek)
    {
      if AddRejected(parsed) {
        return parsed;
      }
      var week := WeekKey(today);
      stamped := Stamp(parsed, now);
      var source := Get(parsed, "source", Null);
      var filePath := Get(parsed, "file_path", Str("")).s;
      match Route(source, filePath) {
        case None =>
        case Some(category) =>
          AppendToFile(FileName(category, week), stamped, encode);
      }
    }

    /** `get_logs(log_type, level, week)`; `level == ""` stands for no filter and `week == None` for the current week. */
    method GetLogs(logType: string, level: string, week: Option<string>, decode: Decoder) returns (logs: seq<Value>)
      ensures logs == LogsOf(files, MatchingFiles(files, logType, week.GetOr(currentWeek)), level, decode)
    {
      var names := MatchingFiles(files, logType, week.GetOr(currentWeek));
      logs := [];
      var i := 0;
      while i < |names|
        invariant 0 <= i <= |names|
        invariant logs == LogsOf(files, names[..i], level, decode)
      {
        LogsOfStep(files, names, i, level, decode);
        var fileLogs := ReadFile(NonBlankLines(files[names[i]]), level, decode);
        logs := logs + fileLogs;
        i := i + 1;
      }
      assert names[..i] == names;
    }

    /** The inner loop of `get_logs` over one file's lines. */
    method ReadFile(lines: seq<string>, level: string, decode: Decoder) returns (logs: seq<Value>)
      ensures logs == FileLogs(lines, level, decode)
    {
      logs := [];
      var i := 0;
      while i < |lines|
        invariant 0 <= i <= |lines|
        invariant logs + FileLogs(lines[i..], level, decode) == FileLogs(lines, level, decode)
      {
        assert lines[i..][1..] == lines[i + 1..];
        match LineLogs(lines[i], level, decode) {
          case Raised =>
            return;
          case Ok(vs) =>
            logs := logs + vs;
        }
        i := i + 1;
      }
    }

    /** `get_available_weeks`: each unified file's week, collected in a set and sorted. */
    method GetAvailableWeeks() returns (weeks: seq<string>)
      ensures weeks == AvailableWeeks(files)
    {
      var found: set<string> := {};
      var names := UnifiedNames(files);
      var pending := names;
      ghost var done: set<string> := {};
      while pending != {}
        invariant pending <= names && done == names - pending
        invariant found == WeeksOf(done)
        decreases pending
      {
        var n :| n in pending;
        WeeksOfAdd(done, n);
        found := found + {WeekOfName(n)};
        pending := pending - {n};
        done := done + {n};
      }
      assert done == names;
      weeks := SortedSeq(found);
    }
  }
}
