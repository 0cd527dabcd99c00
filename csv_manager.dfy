/**
 * The pure parts of the backend `CSVManager`: the string conversion of a
 * record before export, the JSONL files one record is appended to, and
 * the SQL text and parameters of the filtered query.
 *
 * `json.dumps` is a parameter, the export date is a parameter, and the
 * files are a map from file name to their lines.
 */
module CsvManager {
  import opened Wrappers
  import opened Text
  import opened Values
  import opened LogParser

  /** `json.dumps(v, ensure_ascii=False)` of one value. */
  type Dumps = Value -> string

  /** JSONL files by name, each as its lines. */
  type Files = map<string, seq<string>>

  // ---------------------------------------------------------------------
  // _prepare_for_csv

  /** One value as `_prepare_for_csv` writes it: JSON text, "", `str(v)`, or the string itself. */
  function CsvText(v: Value, dumps: Dumps): string {
    match v
    case Dict(_) => dumps(v)
    case List(_) => dumps(v)
    case Null => ""
    case Str(s) => s
    case _ => Show(v)
  }

  /** The dict `_prepare_for_csv` returns. */
  function Prepared(log: Record, dumps: Dumps): Record {
    map k | k in log :: Str(CsvText(log[k], dumps))
  }

  /**
   * Preparing keeps the keys and leaves only strings, so a second pass
   * changes nothing: `add_to_csv` re-prepares what `add_log` prepared.
   */
  lemma PreparedIdempotent(log: Record, dumps: Dumps)
    ensures Prepared(log, dumps).Keys == log.Keys
    ensures forall k :: k in log ==> Prepared(log, dumps)[k].Str?
    ensures forall k :: k in log && log[k].Str? ==> Prepared(log, dumps)[k] == log[k]
    ensures Prepared(Prepared(log, dumps), dumps) == Prepared(log, dumps)
  {
    var p := Prepared(log, dumps);
    assert forall k :: k in p ==> CsvText(p[k], dumps) == p[k].s;
  }

  /** `_prepare_for_csv`: one pass over the items, filling a fresh dict. */
  method PrepareForCsv(log: Record, dumps: Dumps) returns (result: Record)
    ensures result == Prepared(log, dumps)
  {
    result := map[];
    var pending := log.Keys;
    while pending != {}
      invariant pending <= log.Keys
      invariant result.Keys == log.Keys - pending
      invariant forall k :: k in result ==> result[k] == Str(CsvText(log[k], dumps))
      decreases pending
    {
      var k :| k in pending;
      result := result[k := Str(CsvText(log[k], dumps))];
      pending := pending - {k};
    }
  }

  // ---------------------------------------------------------------------
  // add_to_csv

  /** The levels routed to the error export, and selected by `get_error_logs`. */
  const ErrorLogLevels: seq<string> := ["error", "warn", "warning", "fatal"]

  /** The `IN (...)` list of `get_error_logs` is the level set of the error export and of `is_error_log`. */
  lemma ErrorLevelsAgree()
    ensures forall l :: l in ErrorLogLevels <==> l in RecordErrorLevels
  {
  }

  /** An export level test on a prepared record: `csv_ready_log.get('level', '').lower()`. */
  predicate ExportsAsError(ready: Record) {
    var level := if "level" in ready && ready["level"].Str? then ready["level"].s else "";
    Lower(level) in ErrorLogLevels
  }

  /**
   * The JSONL files `add_to_csv` appends to, in order: every record goes to
   * "all_logs.jsonl"; then, unless the record has no "source" (a KeyError
   * that ends the call), to its source's file, to "error_logs.jsonl" for an
   * error level, and to the day's file.
   */
  function JsonlTargets(log: Record, dumps: Dumps, date: string): (r: seq<string>)
    ensures |r| >= 1 && r[0] == "all_logs.jsonl"
    ensures "source" !in log <==> |r| == 1
    ensures "source" in log ==>
      && |r| >= 3 && r[1] == CsvText(log["source"], dumps) + "_logs.jsonl"
      && r[|r| - 1] == "logs_" + date + ".jsonl"
    ensures "source" in log ==> |r| == (if ExportsAsError(Prepared(log, dumps)) then 4 else 3)
    ensures |r| == 4 ==> r[2] == "error_logs.jsonl"
  {
    var ready := Prepared(log, dumps);
    if "source" !in ready then ["all_logs.jsonl"]
    else
      ["all_logs.jsonl", ready["source"].s + "_logs.jsonl"]
      + (if ExportsAsError(ready) then ["error_logs.jsonl"] else [])
      + ["logs_" + date + ".jsonl"]
  }

  /** `append_to_jsonl` for each target in turn. */
  function AppendAll(files: Files, targets: seq<string>, line: string): Files
    decreases |targets|
  {
    if targets == [] then files
    else
      var f := AppendAll(files, targets[..|targets| - 1], line);
      var name := targets[|targets| - 1];
      f[name := (if name in f then f[name] else []) + [line]]
  }

  /** The lines of `name`, none when the file does not exist. */
  function Lines(files: Files, name: string): seq<string> {
    if name in files then files[name] else []
  }

  /** How often `name` occurs among `targets`. */
  function Occurrences(targets: seq<string>, name: string): (r: nat)
    ensures r <= |targets|
    decreases |targets|
  {
    if targets == [] then 0
    else Occurrences(targets[..|targets| - 1], name) + (if targets[|targets| - 1] == name then 1 else 0)
  }

  /** `line` repeated `n` times. */
  function Repeat(line: string, n: nat): (r: seq<string>)
    ensures |r| == n && forall i :: 0 <= i < n ==> r[i] == line
  {
    seq(n, _ => line)
  }

  /** Each file gains one copy of the line per time it is targeted, at its end; no other file changes. */
  lemma {:induction false} AppendAllEffect(files: Files, targets: seq<string>, line: string, name: string)
    ensures Lines(AppendAll(files, targets, line), name) == Lines(files, name) + Repeat(line, Occurrences(targets, name))
    ensures name in AppendAll(files, targets, line) <==> name in files || name in targets
    decreases |targets|
  {
    if targets == [] {
      assert Lines(files, name) + Repeat(line, 0) == Lines(files, name);
    } else {
      var init := targets[..|targets| - 1];
      AppendAllEffect(files, init, line, name);
      var n := Occurrences(init, name);
      if targets[|targets| - 1] == name {
        assert Repeat(line, n) + [line] == Repeat(line, n + 1);
      }
      assert targets == init + [targets[|targets| - 1]];
    }
  }

  /** `add_to_csv`'s JSONL side: the `json.dumps` line of the record, appended to each target. */
  function AddToCsv(files: Files, log: Record, dumps: Dumps, encode: Encoder, date: string): Files {
    AppendAll(files, JsonlTargets(log, dumps, date), encode(log))
  }

  /** `add_log` without the database: prepare, then export the prepared record. */
  function AddLog(files: Files, log: Record, dumps: Dumps, encode: Encoder, date: string): Files {
    AddToCsv(files, Prepared(log, dumps), dumps, encode, date)
  }

  lemma {:induction false} OccurrencesAbsent(targets: seq<string>, name: string)
    requires name !in targets
    ensures Occurrences(targets, name) == 0
    decreases |targets|
  {
    if targets != [] {
      OccurrencesAbsent(targets[..|targets| - 1], name);
    }
  }

  lemma SuffixCancel(a: string, b: string, suffix: string)
    requires a + suffix == b + suffix
    ensures a == b
  {
    assert a == (a + suffix)[..|a|];
    assert b == (b + suffix)[..|b|];
  }

  /**
   * The prepared record goes to the same files as the original would:
   * preparing twice is harmless. An error level lands in the error export
   * once, unless the source itself is named "error".
   */
  lemma AddLogTargets(files: Files, log: Record, dumps: Dumps, encode: Encoder, date: string)
    requires "source" in log && CsvText(log["source"], dumps) != "error"
    ensures JsonlTargets(Prepared(log, dumps), dumps, date) == JsonlTargets(log, dumps, date)
    ensures Lines(AddLog(files, log, dumps, encode, date), "error_logs.jsonl")
      == Lines(files, "error_logs.jsonl")
         + (if ExportsAsError(Prepared(log, dumps)) then [encode(Prepared(log, dumps))] else [])
  {
    PreparedIdempotent(log, dumps);
    var line := encode(Prepared(log, dumps));
    AppendAllEffect(files, JsonlTargets(log, dumps, date), line, "error_logs.jsonl");
    ErrorTargetOccurrences(log, dumps, date);
    assert Repeat(line, 1) == [line] && Repeat(line, 0) == [];
  }

  /** The error export is targeted once for an error level, and not at all otherwise. */
  lemma ErrorTargetOccurrences(log: Record, dumps: Dumps, date: string)
    requires "source" in log && CsvText(log["source"], dumps) != "error"
    ensures Occurrences(JsonlTargets(log, dumps, date), "error_logs.jsonl")
      == if ExportsAsError(Prepared(log, dumps)) then 1 else 0
  {
    var t := JsonlTargets(log, dumps, date);
    var name := "error_logs.jsonl";
    assert t[0] != name by { assert t[0][0] == 'a'; }
    assert t[1] != name by {
      if t[1] == name {
        assert "error" + "_logs.jsonl" == name;
        SuffixCancel(CsvText(log["source"], dumps), "error", "_logs.jsonl");
      }
    }
    assert t[|t| - 1] != name by { assert t[|t| - 1][0] == 'l'; }
    assert name !in t[..2];
    OccurrencesAbsent(t[..2], name);
    if |t| == 4 {
      assert t[..3][..2] == t[..2];
    } else {
      assert t[..2] == t[..|t| - 1];
    }
  }

  // ---------------------------------------------------------------------
  // get_logs

  const QueryHead := "SELECT * FROM logs WHERE 1=1"
  /** The conditions for the log type, level and source filters, in this order. */
  const Conditions: seq<string> := [" AND log_type = ?", " AND level = ?", " AND source = ?"]
  const QueryTail := " ORDER BY created_at DESC LIMIT ?"

  /** The SQL text of `get_logs`: a condition for each active filter, in a fixed order. */
  function QueryText(logType: Value, level: Value, source: Value): string {
    Assemble(QueryHead, Conditions, QueryTail, logType != Str("all"), level != Str("all"), Truthy(source))
  }

  /** A head, the conditions whose flags are set, and a tail. */
  function Assemble(head: string, conds: seq<string>, tail: string, x: bool, y: bool, z: bool): string
    requires |conds| == 3
  {
    head + Optional(x, conds[0]) + Optional(y, conds[1]) + Optional(z, conds[2]) + tail
  }

  /** The parameters of `get_logs`, in placeholder order. */
  function QueryParams(logType: Value, level: Value, limit: Value, source: Value): seq<Value> {
    (if logType != Str("all") then [logType] else [])
    + (if level != Str("all") then [level] else [])
    + (if Truthy(source) then [source] else [])
    + [limit]
  }

  lemma {:induction false} CountCharAbsent(s: string, c: char)
    requires c !in s
    ensures CountChar(s, c) == 0
    decreases |s|
  {
    if s != [] {
      assert c !in s[1..];
      CountCharAbsent(s[1..], c);
    }
  }

  /** `s` ends with the placeholder `?` and holds no other. */
  predicate OnePlaceholder(s: string) {
    s != [] && s[|s| - 1] == '?' && '?' !in s[..|s| - 1]
  }

  lemma OnePlaceholderCount(s: string)
    requires OnePlaceholder(s)
    ensures CountChar(s, '?') == 1
  {
    CountCharAbsent(s[..|s| - 1], '?');
    CountCharAppend(s[..|s| - 1], [s[|s| - 1]], '?');
    assert s[..|s| - 1] + [s[|s| - 1]] == s;
  }

  /** How many of the three filters take part in the query. */
  function ActiveFilters(logType: Value, level: Value, source: Value): nat {
    (if logType != Str("all") then 1 else 0) + (if level != Str("all") then 1 else 0) + (if Truthy(source) then 1 else 0)
  }

  /** A head without placeholders, conditions and a tail with one each: one `?` per set flag, plus one. */
  lemma AssemblePlaceholders(head: string, conds: seq<string>, tail: string, x: bool, y: bool, z: bool)
    requires |conds| == 3 && '?' !in head && OnePlaceholder(tail)
    requires forall k :: 0 <= k < 3 ==> OnePlaceholder(conds[k])
    ensures CountChar(Assemble(head, conds, tail, x, y, z), '?')
            == (if x then 1 else 0) + (if y then 1 else 0) + (if z then 1 else 0) + 1
  {
    CountCharAbsent(head, '?');
    OnePlaceholderCount(tail);
    OnePlaceholderCount(conds[0]);
    OnePlaceholderCount(conds[1]);
    OnePlaceholderCount(conds[2]);
    CountCharPieces(head, conds, tail, x, y, z);
  }

  /** The query has a placeholder per active filter and one for the limit. */
  lemma QueryTextPlaceholders(logType: Value, level: Value, source: Value)
    ensures CountChar(QueryText(logType, level, source), '?') == ActiveFilters(logType, level, source) + 1
  {
    var x, y, z := logType != Str("all"), level != Str("all"), Truthy(source);
    assert QueryText(logType, level, source) == Assemble(QueryHead, Conditions, QueryTail, x, y, z);
    AssemblePlaceholders(QueryHead, Conditions, QueryTail, x, y, z);
  }

  /** The parameters are one per active filter, then the limit. */
  lemma QueryParamsShape(logType: Value, level: Value, limit: Value, source: Value)
    ensures |QueryParams(logType, level, limit, source)| == ActiveFilters(logType, level, source) + 1
    ensures QueryParams(logType, level, limit, source)[ActiveFilters(logType, level, source)] == limit
  {
  }

  /** Every placeholder of the query has its parameter, and the limit is the last one. */
  lemma QueryPlaceholders(logType: Value, level: Value, limit: Value, source: Value)
    ensures CountChar(QueryText(logType, level, source), '?') == |QueryParams(logType, level, limit, source)|
    ensures QueryParams(logType, level, limit, source)[|QueryParams(logType, level, limit, source)| - 1] == limit
  {
    QueryTextPlaceholders(logType, level, source);
    QueryParamsShape(logType, level, limit, source);
  }

  /**
   * `get_logs`'s query building: the text and parameters grow together, a
   * condition per active filter, then the limit.
   */
  method LogsQuery(logType: Value, level: Value, limit: Value, source: Value) returns (query: string, params: seq<Value>)
    ensures query == QueryText(logType, level, source)
    ensures params == QueryParams(logType, level, limit, source)
  {
    query := QueryHead;
    params := [];
    if logType != Str("all") {
      query := query + Conditions[0];
      params := params + [logType];
    }
    assert query == QueryHead + Optional(logType != Str("all"), Conditions[0]);
    ghost var q1 := query;
    if level != Str("all") {
      query := query + Conditions[1];
      params := params + [level];
    }
    assert query == q1 + Optional(level != Str("all"), Conditions[1]);
    ghost var q2 := query;
    if Truthy(source) {
      query := query + Conditions[2];
      params := params + [source];
    }
    assert query == q2 + Optional(Truthy(source), Conditions[2]);
    query := query + QueryTail;
    params := params + [limit];
  }
}
