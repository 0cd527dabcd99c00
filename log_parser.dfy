/**
 * The backend `LogParser`: it classifies one raw line by the path of the
 * file it came from and by its level, and maps the field names of the
 * Node and Python services onto one record shape. It also has the
 * per-service parsers with a plain-text fallback.
 *
 * `json.loads`, `float()` and the clock are parameters: a `Decoder`
 * yields `None` where `json.loads` raises, a `FloatParser` yields the
 * float's `repr` or `None` where `float()` raises.
 */
module LogParser {
  import opened Wrappers
  import opened Text
  import opened Values

  /** One line taken from a watched file, as the monitor enqueues it. */
  datatype RawLine = RawLine(filePath: string, content: string)

  type FloatParser = string -> Option<string>

  // ---------------------------------------------------------------------
  // Classification

  /** The service a path belongs to. */
  function SourceOf(filePath: string): (r: string)
    ensures r == "node" <==> Contains(filePath, "node_logs")
    ensures r == "node" || r == "python"
  {
    if Contains(filePath, "node_logs") then "node" else "python"
  }

  /** `_is_request_log`: decided by the path alone. */
  predicate IsRequestLog(filePath: string) {
    Contains(filePath, "requestsLogs")
    || (Contains(filePath, "python_logs") && Contains(filePath, "access-"))
  }

  const ContentErrorLevels: set<string> := {"error", "warn", "warning"}
  const RecordErrorLevels: set<string> := {"error", "warn", "warning", "fatal"}

  /** `_is_error_log(content)`: the lowercased level, "" when absent, is an error level. */
  function IsErrorContent(content: Value): (r: Outcome<bool>)
    ensures content.Dict? && "level" !in content.fields ==> r == Ok(false)
    ensures content.Dict? && "level" in content.fields && content.fields["level"].Str? ==>
      r == Ok(Lower(content.fields["level"].s) in ContentErrorLevels)
    ensures r.Ok? <==> content.Dict? && ("level" in content.fields ==> content.fields["level"].Str?)
  {
    var level :- GetV(content, "level", Str(""));
    var l :- LowerOf(level);
    Ok(l in ContentErrorLevels)
  }

  /** `is_error_log(parsed)`: the same test on a parsed record, also accepting "fatal". */
  function IsErrorLog(parsed: Record): (r: Outcome<bool>)
    ensures "level" !in parsed ==> r == Ok(false)
    ensures "level" in parsed && parsed["level"].Str? ==>
      r == Ok(Lower(parsed["level"].s) in RecordErrorLevels)
    ensures r.Raised? <==> "level" in parsed && !parsed["level"].Str?
  {
    var l :- LowerOf(Get(parsed, "level", Str("")));
    Ok(l in RecordErrorLevels)
  }

  /** The category `parse_log` files a decoded line under; request wins over the level. */
  function Category(filePath: string, content: Value): Outcome<string> {
    if IsRequestLog(filePath) then Ok("request")
    else
      var e :- IsErrorContent(content);
      Ok(LeveledType(e))
  }

  // ---------------------------------------------------------------------
  // Extractors

  /** The text `key` followed by `=` or `:` and a digit starts at `i`. */
  predicate KeyedDigitsAt(key: string, s: string, i: nat) {
    i + |key| + 2 <= |s| && s[i..i + |key|] == key
    && (s[i + |key|] == '=' || s[i + |key|] == ':') && IsDigit(s[i + |key| + 1])
  }

  /** The leftmost `i >= from` at which `KeyedDigitsAt(key, s, i)` holds. */
  function KeyedDigitsFrom(key: string, s: string, from: nat): (r: Option<nat>)
    requires from <= |s|
    ensures r.Some? ==> from <= r.value <= |s| && KeyedDigitsAt(key, s, r.value)
    ensures r.Some? ==> forall j :: from <= j < r.value ==> !KeyedDigitsAt(key, s, j)
    ensures r.None? ==> forall j :: from <= j <= |s| ==> !KeyedDigitsAt(key, s, j)
    decreases |s| - from
  {
    if KeyedDigitsAt(key, s, from) then Some(from)
    else if from == |s| then None
    else KeyedDigitsFrom(key, s, from + 1)
  }

  /**
   * What `re.search(key + r'[=:](\d+)', s).group(1)` yields: the digit run
   * after the leftmost match, or `None` when there is no match.
   */
  function KeyedDigits(key: string, s: string): (r: Option<string>)
    ensures r.None? <==> forall i :: 0 <= i <= |s| ==> !KeyedDigitsAt(key, s, i)
    ensures r.Some? ==> AllDigits(r.value)
  {
    match KeyedDigitsFrom(key, s, 0)
    case None => None
    case Some(i) =>
      var run := DigitRun(s, i + |key| + 1);
      assert run[0] == s[i + |key| + 1];
      Some(run)
  }

  /** The digits `KeyedDigits` yields are the run after the leftmost match. */
  lemma KeyedDigitsLeftmost(key: string, s: string, i: nat)
    requires i <= |s| && KeyedDigitsAt(key, s, i)
    requires forall j :: 0 <= j < i ==> !KeyedDigitsAt(key, s, j)
    ensures KeyedDigits(key, s) == Some(DigitRun(s, i + |key| + 1))
  {
    var j := KeyedDigitsFrom(key, s, 0).value;
    assert j == i;
  }

  /** `_extract_user_id`: the digits after the leftmost `user_id=`/`user_id:`, else "-". */
  function ExtractUserId(message: string): (r: string)
    ensures r == "-" <==> forall i :: 0 <= i <= |message| ==> !KeyedDigitsAt("user_id", message, i)
    ensures r != "-" ==> AllDigits(r) && KeyedDigits("user_id", message) == Some(r)
  {
    match KeyedDigits("user_id", message)
    case None => "-"
    case Some(d) =>
      assert IsDigit(d[0]) && "-"[0] == '-';
      d
  }

  /** `_extract_error_details`: a validation_error record iff the message mentions one. */
  function ExtractErrorDetails(message: string): (r: Value)
    ensures r != Null <==> Contains(Lower(message), "validation error")
    ensures r != Null ==> (r.Dict? && r.fields.Keys == {"type", "details"}
      && r.fields["type"] == Str("validation_error") && r.fields["details"] == Str(message))
  {
    if Contains(Lower(message), "validation error") then
      Dict(map["type" := Str("validation_error"), "details" := Str(message)])
    else Null
  }

  // ---------------------------------------------------------------------
  // The three record shapes. Each `_parse_*_log` reads some fields with
  // `d[k]` (which raises when `k` is missing) and applies `.lower()`,
  // `.replace()`, `float()` or `re.search` to some of them (which raise on
  // a non-string); the `...Accepted` predicates collect exactly those
  // demands, and the record is built when they hold.

  /** The Node message's response time with "ms" removed, as `float()` reads it. */
  function ResponseTimeText(m: Record): string
    requires "response_time" in m && m["response_time"].Str?
  {
    ReplaceAll(m["response_time"].s, "ms", "")
  }

  /** What `_parse_request_log` demands of a Node line. */
  predicate NodeRequestAccepted(content: Value, toFloat: FloatParser) {
    content.Dict? && "message" in content.fields && "level" in content.fields
    && "timestamp" in content.fields && content.fields["message"].Dict?
    && var m := content.fields["message"].fields;
    && "endpoint" in m && "ip" in m && "method" in m && "status_code" in m && "response_time" in m
    && m["response_time"].Str? && toFloat(ResponseTimeText(m)).Some?
  }

  /** What `_parse_request_log` demands of a Python line. */
  predicate PythonRequestAccepted(content: Value) {
    content.Dict? && "level" in content.fields && "timestamp" in content.fields
    && "path" in content.fields && "method" in content.fields && "status_code" in content.fields
    && Get(content.fields, "user_agent", Str("-")).Str?
  }

  /** The service, the category and the source file a normalised record names. */
  predicate Tagged(r: Record, source: string, logType: string, filePath: string) {
    && "source" in r && r["source"] == Str(source)
    && "log_type" in r && r["log_type"] == Str(logType)
    && "file_path" in r && r["file_path"] == Str(filePath)
  }

  /** A Node request record; the request details come from the nested message. */
  function NodeRequestRecord(source: string, c: Record, m: Record, responseTime: string, filePath: string): Record
    requires "level" in c && "timestamp" in c
    requires "endpoint" in m && "ip" in m && "method" in m && "status_code" in m
  {
    map["original_level" := c["level"], "timestamp" := c["timestamp"],
        "method" := m["method"], "status_code" := m["status_code"],
        "user_agent" := Get(m, "user_agent", Str("-")),
        "endpoint" := m["endpoint"], "ip" := m["ip"],
        "user_id" := Get(m, "user_id", Str("-")), "req_id" := Get(m, "req_id", Str("-")),
        "response_time" := Float(responseTime),
        "source" := Str(source), "log_type" := Str("request"), "file_path" := Str(filePath)]
  }

  /** A Node request record is filed as a request of its service. */
  lemma NodeRequestTagged(source: string, c: Record, m: Record, responseTime: string, filePath: string)
    requires "level" in c && "timestamp" in c
    requires "endpoint" in m && "ip" in m && "method" in m && "status_code" in m
    ensures Tagged(NodeRequestRecord(source, c, m, responseTime, filePath), source, "request", filePath)
  {
  }

  /** A Node request record keeps the level as `original_level` and the parsed response time. */
  lemma NodeRequestTiming(source: string, c: Record, m: Record, responseTime: string, filePath: string)
    requires "level" in c && "timestamp" in c
    requires "endpoint" in m && "ip" in m && "method" in m && "status_code" in m
    ensures var r := NodeRequestRecord(source, c, m, responseTime, filePath);
      && "original_level" in r && r["original_level"] == c["level"]
      && "timestamp" in r && r["timestamp"] == c["timestamp"]
      && "response_time" in r && r["response_time"] == Float(responseTime)
  {
  }

  /** A Node request record takes endpoint and ids from the message, "-" where an id is missing. */
  lemma NodeRequestIds(source: string, c: Record, m: Record, responseTime: string, filePath: string)
    requires "level" in c && "timestamp" in c
    requires "endpoint" in m && "ip" in m && "method" in m && "status_code" in m
    ensures var r := NodeRequestRecord(source, c, m, responseTime, filePath);
      && "endpoint" in r && r["endpoint"] == m["endpoint"]
      && "ip" in r && r["ip"] == m["ip"]
      && "req_id" in r && r["req_id"] == Get(m, "req_id", Str("-"))
      && "user_id" in r && r["user_id"] == Get(m, "user_id", Str("-"))
  {
  }

  /** A Python request record: `path`, `client_ip` and `request_id` under the shared names. */
  function PythonRequestRecord(source: string, c: Record, filePath: string): Record
    requires "level" in c && "timestamp" in c && "path" in c && "method" in c && "status_code" in c
    requires Get(c, "user_agent", Str("-")).Str?
  {
    map["original_level" := c["level"], "timestamp" := c["timestamp"],
        "method" := c["method"], "status_code" := c["status_code"],
        "user_agent" := Str(StripChar(Get(c, "user_agent", Str("-")).s, '"')),
        "url" := Get(c, "url", Str("-")),
        "response_time" := Get(c, "duration_ms", Int(0)),
        "endpoint" := c["path"], "ip" := Get(c, "client_ip", Str("-")),
        "user_id" := Get(c, "user_id", Str("-")), "req_id" := Get(c, "request_id", Str("-")),
        "source" := Str(source), "log_type" := Str("request"), "file_path" := Str(filePath)]
  }

  /** A Python request record is filed as a request of its service. */
  lemma PythonRequestTagged(source: string, c: Record, filePath: string)
    requires "level" in c && "timestamp" in c && "path" in c && "method" in c && "status_code" in c
    requires Get(c, "user_agent", Str("-")).Str?
    ensures Tagged(PythonRequestRecord(source, c, filePath), source, "request", filePath)
  {
  }

  /** A Python request record keeps the level, the duration (0 when missing) and the unquoted user agent. */
  lemma PythonRequestDetails(source: string, c: Record, filePath: string)
    requires "level" in c && "timestamp" in c && "path" in c && "method" in c && "status_code" in c
    requires Get(c, "user_agent", Str("-")).Str?
    ensures var r := PythonRequestRecord(source, c, filePath);
      && "original_level" in r && r["original_level"] == c["level"]
      && "response_time" in r && r["response_time"] == Get(c, "duration_ms", Int(0))
      && "user_agent" in r && r["user_agent"] == Str(StripChar(Get(c, "user_agent", Str("-")).s, '"'))
      && "url" in r && r["url"] == Get(c, "url", Str("-"))
  {
  }

  /** A Python request record files `path`, `client_ip` and `request_id` under the shared names. */
  lemma PythonRequestIds(source: string, c: Record, filePath: string)
    requires "level" in c && "timestamp" in c && "path" in c && "method" in c && "status_code" in c
    requires Get(c, "user_agent", Str("-")).Str?
    ensures var r := PythonRequestRecord(source, c, filePath);
      && "endpoint" in r && r["endpoint"] == c["path"]
      && "ip" in r && r["ip"] == Get(c, "client_ip", Str("-"))
      && "req_id" in r && r["req_id"] == Get(c, "request_id", Str("-"))
      && "user_id" in r && r["user_id"] == Get(c, "user_id", Str("-"))
  {
  }

  /** `_parse_request_log`: a record when the fields it reads are there, else the exception. */
  function ParseRequestLog(source: string, content: Value, filePath: string, toFloat: FloatParser): (r: Outcome<Record>)
    ensures source == "node" ==> (r.Ok? <==> NodeRequestAccepted(content, toFloat))
    ensures source != "node" ==> (r.Ok? <==> PythonRequestAccepted(content))
    ensures r.Ok? ==> Tagged(r.value, source, "request", filePath)
    ensures r.Ok? && source == "node" ==> r.value == NodeRequestRecord(source, content.fields,
      content.fields["message"].fields, toFloat(ResponseTimeText(content.fields["message"].fields)).value, filePath)
    ensures r.Ok? && source != "node" ==> r.value == PythonRequestRecord(source, content.fields, filePath)
  {
    if source == "node" then
      if NodeRequestAccepted(content, toFloat) then
        var m := content.fields["message"].fields;
        var rt := toFloat(ResponseTimeText(m)).value;
        NodeRequestTagged(source, content.fields, m, rt, filePath);
        Ok(NodeRequestRecord(source, content.fields, m, rt, filePath))
      else Raised
    else if PythonRequestAccepted(content) then
      PythonRequestTagged(source, content.fields, filePath);
      Ok(PythonRequestRecord(source, content.fields, filePath))
    else Raised
  }

  /**
   * What `_parse_error_log`/`_parse_info_log` demand: a string level, a
   * timestamp and a message, which must be a string wherever a regex or
   * `.lower()` is applied to it.
   */
  predicate LeveledAccepted(source: string, content: Value, isError: bool) {
    content.Dict? && "level" in content.fields && content.fields["level"].Str?
    && "timestamp" in content.fields && "message" in content.fields
    && ((source == "node" || isError) ==> content.fields["message"].Str?)
  }

  /** The level lowercased, and the timestamp and message as the line gave them. */
  predicate LeveledBody(r: Record, c: Record)
    requires "level" in c && c["level"].Str? && "timestamp" in c && "message" in c
  {
    && "level" in r && r["level"] == Str(Lower(c["level"].s))
    && "timestamp" in r && r["timestamp"] == c["timestamp"]
    && "message" in r && r["message"] == c["message"]
  }

  /** The category an error or info record is filed under. */
  function LeveledType(isError: bool): string {
    if isError then "error" else "info"
  }

  /** A Node error or info record: ids under Node's names, user_id from the message. */
  function NodeLeveledRecord(source: string, c: Record, filePath: string, isError: bool): Record
    requires "level" in c && c["level"].Str? && "timestamp" in c && "message" in c && c["message"].Str?
  {
    var userId := ExtractUserId(c["message"].s);
    var base := map["function" := Str("-"), "filename" := Str("-"),
                    "req_id" := Get(c, "req_id", Str("-")), "ip" := Get(c, "ip", Str("-")),
                    "user_id" := Str(userId),
                    "level" := Str(Lower(c["level"].s)), "timestamp" := c["timestamp"], "message" := c["message"],
                    "source" := Str(source), "log_type" := Str(LeveledType(isError)), "file_path" := Str(filePath)];
    if isError then base["error_details" := Null] else base["duration_ms" := Null]
  }

  /** A Node error or info record is filed under its service and category. */
  lemma NodeLeveledTagged(source: string, c: Record, filePath: string, isError: bool)
    requires "level" in c && c["level"].Str? && "timestamp" in c && "message" in c && c["message"].Str?
    ensures Tagged(NodeLeveledRecord(source, c, filePath, isError), source, LeveledType(isError), filePath)
  {
  }

  /** A Node error or info record keeps the level (lowercased), the timestamp and the message. */
  lemma NodeLeveledBody(source: string, c: Record, filePath: string, isError: bool)
    requires "level" in c && c["level"].Str? && "timestamp" in c && "message" in c && c["message"].Str?
    ensures LeveledBody(NodeLeveledRecord(source, c, filePath, isError), c)
  {
  }

  /** A Node error or info record takes its ids under Node's names and the user id from the message. */
  lemma NodeLeveledIds(source: string, c: Record, filePath: string, isError: bool)
    requires "level" in c && c["level"].Str? && "timestamp" in c && "message" in c && c["message"].Str?
    ensures var r := NodeLeveledRecord(source, c, filePath, isError);
      && "req_id" in r && r["req_id"] == Get(c, "req_id", Str("-"))
      && "ip" in r && r["ip"] == Get(c, "ip", Str("-"))
      && "user_id" in r && r["user_id"] == Str(ExtractUserId(c["message"].s))
  {
  }

  /** A Python error or info record: `request_id` and `client_ip` under the shared names. */
  function PythonLeveledRecord(source: string, c: Record, filePath: string, isError: bool): Record
    requires "level" in c && c["level"].Str? && "timestamp" in c && "message" in c
    requires isError ==> c["message"].Str?
  {
    var base := map["path" := Get(c, "path", Str("-")), "function" := Get(c, "function", Str("-")),
                    "filename" := Get(c, "filename", Str("-")),
                    "req_id" := Get(c, "request_id", Str("-")), "user_id" := Get(c, "user_id", Str("-")),
                    "ip" := Get(c, "client_ip", Str("-")),
                    "level" := Str(Lower(c["level"].s)), "timestamp" := c["timestamp"], "message" := c["message"],
                    "source" := Str(source), "log_type" := Str(LeveledType(isError)), "file_path" := Str(filePath)];
    if isError then base["error_details" := ExtractErrorDetails(c["message"].s)]
    else base["status_code" := Get(c, "status_code", Null)]["duration_ms" := Get(c, "duration_ms", Null)]
  }

  /** A Python error or info record is filed under its service and category. */
  lemma PythonLeveledTagged(source: string, c: Record, filePath: string, isError: bool)
    requires "level" in c && c["level"].Str? && "timestamp" in c && "message" in c
    requires isError ==> c["message"].Str?
    ensures Tagged(PythonLeveledRecord(source, c, filePath, isError), source, LeveledType(isError), filePath)
  {
  }

  /** A Python error or info record keeps the level (lowercased), the timestamp and the message. */
  lemma PythonLeveledBody(source: string, c: Record, filePath: string, isError: bool)
    requires "level" in c && c["level"].Str? && "timestamp" in c && "message" in c
    requires isError ==> c["message"].Str?
    ensures LeveledBody(PythonLeveledRecord(source, c, filePath, isError), c)
  {
  }

  /** A Python error or info record takes its ids from the Python names; an error also its details. */
  lemma PythonLeveledIds(source: string, c: Record, filePath: string, isError: bool)
    requires "level" in c && c["level"].Str? && "timestamp" in c && "message" in c
    requires isError ==> c["message"].Str?
    ensures var r := PythonLeveledRecord(source, c, filePath, isError);
      && "req_id" in r && r["req_id"] == Get(c, "request_id", Str("-"))
      && "ip" in r && r["ip"] == Get(c, "client_ip", Str("-"))
      && "user_id" in r && r["user_id"] == Get(c, "user_id", Str("-"))
      && (isError ==> "error_details" in r && r["error_details"] == ExtractErrorDetails(c["message"].s))
  {
  }

  /** `_parse_error_log` (`isError`) and `_parse_info_log` (`!isError`). */
  function ParseLeveledLog(source: string, content: Value, filePath: string, isError: bool): (r: Outcome<Record>)
    ensures r.Ok? <==> LeveledAccepted(source, content, isError)
    ensures r.Ok? ==> Tagged(r.value, source, LeveledType(isError), filePath)
    ensures r.Ok? && source == "node" ==> r.value == NodeLeveledRecord(source, content.fields, filePath, isError)
    ensures r.Ok? && source != "node" ==> r.value == PythonLeveledRecord(source, content.fields, filePath, isError)
  {
    if !LeveledAccepted(source, content, isError) then Raised
    else if source == "node" then
      NodeLeveledTagged(source, content.fields, filePath, isError);
      Ok(NodeLeveledRecord(source, content.fields, filePath, isError))
    else
      PythonLeveledTagged(source, content.fields, filePath, isError);
      Ok(PythonLeveledRecord(source, content.fields, filePath, isError))
  }

  /** Which decoded lines `parse_log` turns into a record rather than `None`. */
  predicate Accepted(filePath: string, content: Value, toFloat: FloatParser) {
    if IsRequestLog(filePath) then
      if SourceOf(filePath) == "node" then NodeRequestAccepted(content, toFloat)
      else PythonRequestAccepted(content)
    else
      IsErrorContent(content).Ok? && LeveledAccepted(SourceOf(filePath), content, IsErrorContent(content).value)
  }

  /** The body of `parse_log` inside its `try`. */
  function ParseDecoded(filePath: string, content: Value, toFloat: FloatParser): (r: Outcome<Record>)
    ensures r.Ok? <==> Accepted(filePath, content, toFloat)
    ensures r.Ok? ==> (Category(filePath, content).Ok?
      && Tagged(r.value, SourceOf(filePath), Category(filePath, content).value, filePath))
  {
    var source := SourceOf(filePath);
    if IsRequestLog(filePath) then ParseRequestLog(source, content, filePath, toFloat)
    else
      var e :- IsErrorContent(content);
      ParseLeveledLog(source, content, filePath, e)
  }

  /**
   * `parse_log`: the normalised record, or `None` when decoding or any
   * field access raises.
   */
  function ParseLog(entry: RawLine, decode: Decoder, toFloat: FloatParser): (r: Option<Record>)
    ensures r.Some? <==> decode(entry.content).Some? && Accepted(entry.filePath, decode(entry.content).value, toFloat)
    ensures r.Some? ==> (Category(entry.filePath, decode(entry.content).value).Ok?
      && Tagged(r.value, SourceOf(entry.filePath), Category(entry.filePath, decode(entry.content).value).value, entry.filePath))
  {
    match decode(entry.content)
    case None => None
    case Some(content) =>
      match ParseDecoded(entry.filePath, content, toFloat)
      case Raised => None
      case Ok(rec) => Some(rec)
  }

  /** The line decodes to `content`. */
  predicate DecodesTo(entry: RawLine, decode: Decoder, content: Value) {
    decode(entry.content) == Some(content)
  }

  /** The causes of a `None` from `parse_log`. */
  lemma ParseLogNone(entry: RawLine, decode: Decoder, toFloat: FloatParser, content: Value)
    ensures decode(entry.content).None? ==> ParseLog(entry, decode, toFloat).None?
    ensures DecodesTo(entry, decode, content) && !content.Dict? ==> ParseLog(entry, decode, toFloat).None?
    ensures (DecodesTo(entry, decode, content) && content.Dict?
      && ("level" !in content.fields || "timestamp" !in content.fields)) ==> ParseLog(entry, decode, toFloat).None?
    ensures (DecodesTo(entry, decode, content) && content.Dict? && "message" !in content.fields
      && !(IsRequestLog(entry.filePath) && SourceOf(entry.filePath) == "python")) ==> ParseLog(entry, decode, toFloat).None?
    ensures (DecodesTo(entry, decode, content) && content.Dict? && "message" in content.fields
      && !content.fields["message"].Str? && SourceOf(entry.filePath) == "node" && !IsRequestLog(entry.filePath))
      ==> ParseLog(entry, decode, toFloat).None?
  {
  }

  /** A Node request whose response time `float()` rejects (after removing "ms") is dropped. */
  lemma ParseLogBadResponseTime(entry: RawLine, decode: Decoder, toFloat: FloatParser, content: Value, rt: string)
    requires DecodesTo(entry, decode, content) && SourceOf(entry.filePath) == "node" && IsRequestLog(entry.filePath)
    requires content.Dict? && "message" in content.fields && content.fields["message"].Dict?
    requires "response_time" in content.fields["message"].fields
    requires content.fields["message"].fields["response_time"] == Str(rt)
    requires toFloat(ReplaceAll(rt, "ms", "")).None?
    ensures ParseLog(entry, decode, toFloat).None?
  {
  }

  /** An error or info record carries the level lowercased and the timestamp and message as given. */
  lemma LeveledRecordFields(entry: RawLine, decode: Decoder, toFloat: FloatParser, content: Value)
    requires DecodesTo(entry, decode, content) && !IsRequestLog(entry.filePath)
    requires ParseLog(entry, decode, toFloat).Some?
    ensures content.Dict? && "level" in content.fields && content.fields["level"].Str?
      && "timestamp" in content.fields && "message" in content.fields
    ensures LeveledBody(ParseLog(entry, decode, toFloat).value, content.fields)
  {
    var e := IsErrorContent(content).value;
    if SourceOf(entry.filePath) == "node" {
      NodeLeveledBody("node", content.fields, entry.filePath, e);
    } else {
      PythonLeveledBody("python", content.fields, entry.filePath, e);
    }
  }

  /** A Node error or info record takes req_id and ip as given and the user id from the message. */
  lemma NodeLeveledLogIds(entry: RawLine, decode: Decoder, toFloat: FloatParser, content: Value)
    requires DecodesTo(entry, decode, content) && !IsRequestLog(entry.filePath)
    requires SourceOf(entry.filePath) == "node"
    requires ParseLog(entry, decode, toFloat).Some?
    ensures content.Dict? && "message" in content.fields && content.fields["message"].Str?
    ensures var r := ParseLog(entry, decode, toFloat).value; var c := content.fields;
      && "req_id" in r && r["req_id"] == Get(c, "req_id", Str("-"))
      && "ip" in r && r["ip"] == Get(c, "ip", Str("-"))
      && "user_id" in r && r["user_id"] == Str(ExtractUserId(c["message"].s))
  {
    NodeLeveledIds("node", content.fields, entry.filePath, IsErrorContent(content).value);
  }

  /** A Python error or info record takes its ids from `request_id`, `client_ip` and `user_id`. */
  lemma PythonLeveledLogIds(entry: RawLine, decode: Decoder, toFloat: FloatParser, content: Value)
    requires DecodesTo(entry, decode, content) && !IsRequestLog(entry.filePath)
    requires SourceOf(entry.filePath) == "python"
    requires ParseLog(entry, decode, toFloat).Some?
    ensures content.Dict?
    ensures var r := ParseLog(entry, decode, toFloat).value; var c := content.fields;
      && "req_id" in r && r["req_id"] == Get(c, "request_id", Str("-"))
      && "ip" in r && r["ip"] == Get(c, "client_ip", Str("-"))
      && "user_id" in r && r["user_id"] == Get(c, "user_id", Str("-"))
  {
    PythonLeveledIds("python", content.fields, entry.filePath, IsErrorContent(content).value);
  }

  /** A Python request line's path and ids land under the shared names, with their defaults. */
  lemma PythonRequestFields(entry: RawLine, decode: Decoder, toFloat: FloatParser, content: Value)
    requires DecodesTo(entry, decode, content)
    requires SourceOf(entry.filePath) == "python" && IsRequestLog(entry.filePath)
    requires ParseLog(entry, decode, toFloat).Some?
    ensures content.Dict? && "path" in content.fields
    ensures var r := ParseLog(entry, decode, toFloat).value; var c := content.fields;
      && "endpoint" in r && r["endpoint"] == c["path"]
      && "ip" in r && r["ip"] == Get(c, "client_ip", Str("-"))
      && "req_id" in r && r["req_id"] == Get(c, "request_id", Str("-"))
      && "user_id" in r && r["user_id"] == Get(c, "user_id", Str("-"))
  {
    PythonRequestIds("python", content.fields, entry.filePath);
  }

  /** A request-log path is filed as a request whatever its level says. */
  lemma RequestPrecedence(entry: RawLine, decode: Decoder, toFloat: FloatParser)
    requires IsRequestLog(entry.filePath)
    requires ParseLog(entry, decode, toFloat).Some?
    ensures Tagged(ParseLog(entry, decode, toFloat).value, SourceOf(entry.filePath), "request", entry.filePath)
  {
  }

  /** The two error tests agree except that only the record test accepts "fatal". */
  lemma ErrorTestsDiffer(level: string, content: Value, parsed: Record)
    requires content.Dict? && "level" in content.fields && content.fields["level"] == Str(level)
    requires "level" in parsed && parsed["level"] == Str(level)
    ensures IsErrorContent(content) == Ok(true) ==> IsErrorLog(parsed) == Ok(true)
    ensures IsErrorLog(parsed) == Ok(true) && IsErrorContent(content) == Ok(false) <==> Lower(level) == "fatal"
  {
  }

  // ---------------------------------------------------------------------
  // Plain-text fallback

  const TimestampTemplate: string := "DDDD-DD-DDSDD:DD:DD"

  /** The pattern `\d{4}-\d{2}-\d{2}[\sT]\d{2}:\d{2}:\d{2}` matches at `i`. */
  predicate TimestampAt(s: string, i: nat) {
    i + |TimestampTemplate| <= |s|
    && forall k :: 0 <= k < |TimestampTemplate| ==> FitsTemplate(s[i + k], TimestampTemplate[k])
  }

  const LevelWords: seq<string> := ["DEBUG", "INFO", "WARN", "WARNING", "ERROR", "FATAL", "TRACE"]

  /** `\b` between `s[i-1]` and `s[i]`. */
  predicate WordBoundaryAt(s: string, i: nat) {
    i <= |s| && ((0 < i && IsWordChar(s[i - 1])) != (i < |s| && IsWordChar(s[i])))
  }

  /** `w` occurs at `i` ignoring case and is followed by a word boundary. */
  predicate WordAt(s: string, w: string, i: nat) {
    i + |w| <= |s| && Lower(s[i..i + |w|]) == Lower(w) && WordBoundaryAt(s, i + |w|)
  }

  /** The first alternative, from the `k`-th on, that matches at `i` (regex alternation order). */
  function LevelWordFrom(s: string, i: nat, k: nat): (r: Option<string>)
    requires k <= |LevelWords|
    ensures r.Some? ==> r.value in LevelWords && WordAt(s, r.value, i)
    ensures r.None? ==> forall j :: k <= j < |LevelWords| ==> !WordAt(s, LevelWords[j], i)
    decreases |LevelWords| - k
  {
    if k == |LevelWords| then None
    else if WordAt(s, LevelWords[k], i) then Some(LevelWords[k])
    else LevelWordFrom(s, i, k + 1)
  }

  /** The level pattern `\b(DEBUG|...|TRACE)\b`, case-insensitive, matches at `i`. */
  predicate LevelAt(s: string, i: nat) {
    WordBoundaryAt(s, i) && LevelWordFrom(s, i, 0).Some?
  }

  const GenericLevels: set<string> := {"debug", "info", "warn", "warning", "error", "fatal", "trace"}

  lemma LevelWordsLower()
    ensures forall w :: w in LevelWords ==> Lower(w) in GenericLevels
  {
    assert Lower("DEBUG") == "debug";
    assert Lower("INFO") == "info";
    assert Lower("WARN") == "warn";
    assert Lower("WARNING") == "warning";
    assert Lower("ERROR") == "error";
    assert Lower("FATAL") == "fatal";
    assert Lower("TRACE") == "trace";
  }

  /** The level `parse_generic_log` reports: the leftmost level word, lowercased, else "info". */
  function GenericLevel(content: string): (r: string)
    ensures r in GenericLevels
    ensures (forall i :: 0 <= i <= |content| ==> !LevelAt(content, i)) ==> r == "info"
  {
    LevelWordsLower();
    match FirstWhere(content, 0, LevelAt)
    case None => "info"
    case Some(i) => Lower(LevelWordFrom(content, i, 0).value)
  }

  /** When a level word starts at `i` and at no earlier position, the level is that word, lowercased. */
  lemma GenericLevelLeftmost(content: string, i: nat)
    requires i <= |content| && LevelAt(content, i)
    requires forall j :: 0 <= j < i ==> !LevelAt(content, j)
    ensures GenericLevel(content) == Lower(LevelWordFrom(content, i, 0).value)
  {
    var f := FirstWhere(content, 0, LevelAt);
    assert f.Some?;
    assert !(f.value < i);
    assert !(f.value > i);
  }

  /** The timestamp `parse_generic_log` reports: the leftmost match, else `now`. */
  function GenericTimestamp(content: string, now: string): (r: string)
    ensures (forall i :: 0 <= i <= |content| ==> !TimestampAt(content, i)) ==> r == now
    ensures forall i :: (0 <= i <= |content| && TimestampAt(content, i)
      && (forall j :: 0 <= j < i ==> !TimestampAt(content, j))) ==> r == content[i..i + |TimestampTemplate|]
  {
    match FirstWhere(content, 0, TimestampAt)
    case None => now
    case Some(i) => content[i..i + |TimestampTemplate|]
  }

  /** `parse_generic_log`: the line itself as the message, with a guessed level and timestamp. */
  function ParseGenericLog(filePath: string, content: string, parsedAt: string, now: string): (r: Record)
    ensures "message" in r && r["message"] == Str(content)
    ensures "raw_content" in r && r["raw_content"] == Str(content)
    ensures "level" in r && r["level"] == Str(GenericLevel(content))
    ensures "timestamp" in r && r["timestamp"] == Str(GenericTimestamp(content, now))
    ensures Tagged(r, "generic", "unknown", filePath)
  {
    var level := GenericLevel(content);
    map["parsed_at" := Str(parsedAt), "raw_content" := Str(content),
        "timestamp" := Str(GenericTimestamp(content, now)), "message" := Str(content),
        "level" := Str(level),
        "source" := Str("generic"), "log_type" := Str("unknown"), "file_path" := Str(filePath)]
  }

  // ---------------------------------------------------------------------
  // Per-service parsers

  /**
   * `get_node_log_type`: the type of the first of accessLogs, errorLogs,
   * requestsLogs that occurs in the path, checked in that order, else "general".
   */
  function NodeLogType(filePath: string): (r: string)
    ensures r in {"access", "error", "requests", "general"}
    ensures r == "access" <==> Contains(filePath, "accessLogs")
    ensures r == "error" <==> !Contains(filePath, "accessLogs") && Contains(filePath, "errorLogs")
    ensures r == "requests" <==>
      !Contains(filePath, "accessLogs") && !Contains(filePath, "errorLogs") && Contains(filePath, "requestsLogs")
    ensures r == "general" <==>
      !Contains(filePath, "accessLogs") && !Contains(filePath, "errorLogs") && !Contains(filePath, "requestsLogs")
  {
    if Contains(filePath, "accessLogs") then "access"
    else if Contains(filePath, "errorLogs") then "error"
    else if Contains(filePath, "requestsLogs") then "requests"
    else "general"
  }

  /**
   * `get_python_log_type`: the type of the first of access, error, info,
   * warning that occurs in the file name (not the directories), checked in
   * that order, else "general".
   */
  function PythonLogType(filePath: string): (r: string)
    ensures r in {"access", "error", "info", "warning", "general"}
    ensures var name := Basename(filePath);
      && (r == "access" <==> Contains(name, "access"))
      && (r == "error" <==> !Contains(name, "access") && Contains(name, "error"))
      && (r == "info" <==> !Contains(name, "access") && !Contains(name, "error") && Contains(name, "info"))
      && (r == "warning" <==>
            !Contains(name, "access") && !Contains(name, "error") && !Contains(name, "info") && Contains(name, "warning"))
      && (r == "general" <==>
            !Contains(name, "access") && !Contains(name, "error") && !Contains(name, "info") && !Contains(name, "warning"))
  {
    var name := Basename(filePath);
    if Contains(name, "access") then "access"
    else if Contains(name, "error") then "error"
    else if Contains(name, "info") then "info"
    else if Contains(name, "warning") then "warning"
    else "general"
  }

  /** The directory part of the path plays no role in the Python log type. */
  lemma PythonLogTypeIgnoresDirectory(dir: string, name: string)
    requires '/' !in name
    ensures PythonLogType(dir + "/" + name) == PythonLogType(name)
  {
    AfterLastAppend(dir, '/', name);
    AfterLastNone(name, '/');
  }

  /** The fields every JSON line of either service gets. */
  function CommonFields(source: string, logType: string, d: Record, filePath: string, content: string, parsedAt: string, now: string): (r: Record)
    ensures r.Keys == CommonKeys
    ensures CommonShape(r, source, logType, d, filePath, content, parsedAt, now)
  {
    map["source" := Str(source), "log_type" := Str(logType),
        "level" := Get(d, "level", Str("info")), "message" := Get(d, "message", Str("")),
        "timestamp" := Get(d, "timestamp", Str(now)), "file_path" := Str(filePath),
        "parsed_at" := Str(parsedAt), "raw_content" := Str(content)]
  }

  /**
   * The eight fields every parsed JSON line has: service and type, the
   * line's level, message and timestamp with their defaults ("info", "",
   * the current time), the path, the parse time and the raw line.
   */
  predicate CommonShape(r: Record, source: string, logType: string, d: Record,
                        filePath: string, content: string, parsedAt: string, now: string) {
    && r.Keys >= CommonKeys
    && r["source"] == Str(source) && r["log_type"] == Str(logType)
    && r["level"] == Get(d, "level", Str("info"))
    && r["message"] == Get(d, "message", Str(""))
    && r["timestamp"] == Get(d, "timestamp", Str(now))
    && r["file_path"] == Str(filePath) && r["parsed_at"] == Str(parsedAt) && r["raw_content"] == Str(content)
  }

  /**
   * Where `parse_node_log` raises on a decoded line: not an object, or a
   * message that `in` cannot search, or one that mentions userId without
   * being a string that `re.search` accepts.
   */
  predicate NodeJsonRaises(v: Value) {
    !v.Dict? ||
    var m := Get(v.fields, "message", Str(""));
    InValue("userId", m).Raised? || (InValue("userId", m) == Ok(true) && !m.Str?)
  }

  /**
   * `parse_node_log`. A line that is not JSON falls back to the plain-text
   * parser; JSON that is not an object raises out of the method (only the
   * decode error is caught).
   */
  function ParseNodeLog(filePath: string, content: string, parsedAt: string, now: string, decode: Decoder): (r: Outcome<Record>)
    ensures decode(content).None? ==> r == Ok(ParseGenericLog(filePath, content, parsedAt, now))
    ensures decode(content).Some? ==> (r.Raised? <==> NodeJsonRaises(decode(content).value))
    ensures decode(content).Some? && r.Ok? ==> (decode(content).value.Dict?
      && CommonShape(r.value, "node", NodeLogType(filePath), decode(content).value.fields, filePath, content, parsedAt, now))
    ensures decode(content).Some? && r.Ok? ==>
      var d := decode(content).value.fields;
      && ("user_id" in r.value <==> ("message" in d && d["message"].Str? && Contains(d["message"].s, "userId")
        && KeyedDigits("userId", d["message"].s).Some?))
      && ("user_id" in r.value ==> r.value["user_id"] == Str(KeyedDigits("userId", d["message"].s).value))
      && r.value.Keys <= CommonKeys + {"user_id"}
  {
    match decode(content)
    case None => Ok(ParseGenericLog(filePath, content, parsedAt, now))
    case Some(v) =>
      if !v.Dict? then Raised
      else
        var d := v.fields;
        var parsed := CommonFields("node", NodeLogType(filePath), d, filePath, content, parsedAt, now);
        var mentions :- InValue("userId", Get(d, "message", Str("")));
        if !mentions then Ok(parsed)
        else
          var text :- AsStr(d["message"]);
          match KeyedDigits("userId", text)
          case None => Ok(parsed)
          case Some(uid) => Ok(parsed["user_id" := Str(uid)])
  }

  /** `exception.get(k)` for the three exception fields: the exception field must be a dict. */
  function ExceptionFields(exc: Value): (r: Outcome<Record>)
    ensures r.Ok? <==> exc.Dict?
    ensures r.Ok? ==> r.value.Keys == ExceptionKeys
    ensures r.Ok? ==> ExceptionCopied(r.value, exc.fields)
  {
    if !exc.Dict? then Raised
    else
      Ok(map["exception_type" := Get(exc.fields, "type", Null),
             "exception_message" := Get(exc.fields, "message", Null),
             "traceback" := Get(exc.fields, "traceback", Null)])
  }

  /** The HTTP fields `parse_python_log` adds when the line has a method. */
  function HttpFields(d: Record): (r: Record)
    ensures r.Keys == HttpKeys
    ensures HttpCopied(r, d)
  {
    map k | k in HttpKeys :: Get(d, k, Null)
  }

  /** The fields every Python JSON line gets: the common ones, then name, function and filename. */
  function PythonBase(logType: string, filePath: string, content: string, parsedAt: string, now: string, d: Record): Record {
    CommonFields("python", logType, d, filePath, content, parsedAt, now) + PythonExtraFields(d)
  }

  function PythonExtraFields(d: Record): (r: Record)
    ensures r.Keys == PythonKeys && PythonExtras(r, d)
  {
    map["name" := Get(d, "name", Str("")), "function" := Get(d, "function", Str("")),
        "filename" := Get(d, "filename", Str(""))]
  }

  /** The base record has the common shape. */
  lemma PythonBaseCommon(logType: string, filePath: string, content: string, parsedAt: string, now: string, d: Record)
    ensures CommonShape(PythonBase(logType, filePath, content, parsedAt, now, d), "python", logType, d, filePath, content, parsedAt, now)
  {
    KeySetsDisjoint();
    CommonShapeExtend(CommonFields("python", logType, d, filePath, content, parsedAt, now), PythonExtraFields(d),
                      "python", logType, d, filePath, content, parsedAt, now);
  }

  /** The base record has exactly the common and the Python-only fields, the latter with their values. */
  lemma PythonBaseKeys(logType: string, filePath: string, content: string, parsedAt: string, now: string, d: Record)
    ensures var r := PythonBase(logType, filePath, content, parsedAt, now, d);
      r.Keys == CommonKeys + PythonKeys && PythonExtras(r, d)
  {
  }

  const CommonKeys: set<string> := {"source", "log_type", "level", "message", "timestamp", "file_path", "parsed_at", "raw_content"}
  /** The fields only Python lines have. */
  const PythonKeys: set<string> := {"name", "function", "filename"}
  const HttpKeys: set<string> := {"method", "url", "status_code", "client_ip", "user_agent", "duration_ms", "request_id"}
  const ExceptionKeys: set<string> := {"exception_type", "exception_message", "traceback"}

  /** The common, Python-only, HTTP and exception field names are four disjoint sets. */
  lemma KeySetsDisjoint()
    ensures CommonKeys !! PythonKeys && HttpKeys !! CommonKeys + PythonKeys + ExceptionKeys
    ensures ExceptionKeys !! CommonKeys + PythonKeys
  {
  }

  /** Adding fields other than the common eight keeps the common shape. */
  lemma CommonShapeExtend(r: Record, extra: Record, source: string, logType: string, d: Record,
                          filePath: string, content: string, parsedAt: string, now: string)
    requires CommonShape(r, source, logType, d, filePath, content, parsedAt, now)
    requires extra.Keys !! CommonKeys
    ensures CommonShape(r + extra, source, logType, d, filePath, content, parsedAt, now)
  {
  }

  /** Name, function and filename of a Python line, "" when missing. */
  predicate PythonExtras(r: Record, d: Record) {
    && "name" in r && r["name"] == Get(d, "name", Str(""))
    && "function" in r && r["function"] == Get(d, "function", Str(""))
    && "filename" in r && r["filename"] == Get(d, "filename", Str(""))
  }

  /** Each HTTP field is the line's `.get` of it, None when missing. */
  predicate HttpCopied(r: Record, d: Record) {
    forall k :: k in HttpKeys ==> k in r && r[k] == Get(d, k, Null)
  }

  /** The exception fields are the exception's `.get("type")`, `.get("message")` and `.get("traceback")`. */
  predicate ExceptionCopied(r: Record, e: Record) {
    && "exception_type" in r && r["exception_type"] == Get(e, "type", Null)
    && "exception_message" in r && r["exception_message"] == Get(e, "message", Null)
    && "traceback" in r && r["traceback"] == Get(e, "traceback", Null)
  }

  /** Fields added after the Python extras, none of them an extra, keep the extras. */
  lemma PythonExtrasExtend(r: Record, extra: Record, d: Record)
    requires PythonExtras(r, d) && extra.Keys !! PythonKeys
    ensures PythonExtras(r + extra, d)
  {
  }

  /** Fields added after the HTTP fields, none of them an HTTP field, keep those. */
  lemma HttpCopiedExtend(r: Record, extra: Record, d: Record)
    requires extra.Keys !! HttpKeys
    ensures HttpCopied(r, d) ==> HttpCopied(r + extra, d)
  {
  }

  /** The HTTP fields merged on top of a record, when the line has a method, are there with their values. */
  lemma HttpCopiedMerge(base: Record, d: Record)
    ensures "method" in d ==> HttpCopied(base + HttpFields(d), d)
  {
  }

  /** Exception fields merged last keep their values. */
  lemma ExceptionCopiedMerge(r: Record, exc: Record, e: Record)
    requires ExceptionCopied(exc, e)
    ensures ExceptionCopied(r + exc, e)
  {
  }

  /** Where `parse_python_log` raises on a decoded line: not an object, or an exception field that is not one. */
  predicate PythonJsonRaises(v: Value) {
    !v.Dict? || ("exception" in v.fields && !v.fields["exception"].Dict?)
  }

  /** `parse_python_log` on a line that decoded to `v`; it raises on a line that is not an object or a non-object exception. */
  function ParsePythonJson(filePath: string, content: string, parsedAt: string, now: string, v: Value): (r: Outcome<Record>)
    ensures r.Raised? <==> PythonJsonRaises(v)
  {
    if !v.Dict? then Raised
    else PythonRecord(PythonLogType(filePath), filePath, content, parsedAt, now, v.fields)
  }

  /** The record `parse_python_log` builds from the object `d` of a file of type `logType`. */
  function PythonRecord(logType: string, filePath: string, content: string, parsedAt: string, now: string, d: Record): (r: Outcome<Record>)
    ensures r.Raised? <==> "exception" in d && !d["exception"].Dict?
  {
    var base := PythonBase(logType, filePath, content, parsedAt, now, d);
    var http := if "method" in d then HttpFields(d) else map[];
    if "exception" in d then
      var exc :- ExceptionFields(d["exception"]);
      Ok(base + http + exc)
    else Ok(base + http)
  }

  /** The fields of a record `PythonRecord` builds, with their values. */
  predicate PythonShape(r: Record, logType: string, filePath: string, content: string, parsedAt: string, now: string, d: Record) {
    && CommonShape(r, "python", logType, d, filePath, content, parsedAt, now)
    && PythonExtras(r, d)
    && r.Keys == CommonKeys + PythonKeys + (if "method" in d then HttpKeys else {})
                 + (if "exception" in d then ExceptionKeys else {})
    && ("method" in d ==> HttpCopied(r, d))
    && ("exception" in d && d["exception"].Dict? ==> ExceptionCopied(r, d["exception"].fields))
  }

  lemma PythonRecordFields(logType: string, filePath: string, content: string, parsedAt: string, now: string, d: Record)
    ensures var r := PythonRecord(logType, filePath, content, parsedAt, now, d);
      r.Ok? ==> PythonShape(r.value, logType, filePath, content, parsedAt, now, d)
  {
    var base := PythonBase(logType, filePath, content, parsedAt, now, d);
    var http: Record := if "method" in d then HttpFields(d) else map[];
    PythonBaseCommon(logType, filePath, content, parsedAt, now, d);
    PythonBaseKeys(logType, filePath, content, parsedAt, now, d);
    HttpCopiedMerge(base, d);
    MergeHttpShape(base, http, logType, filePath, content, parsedAt, now, d);
    if "exception" in d && d["exception"].Dict? {
      MergeExceptionShape(base + http, ExceptionFields(d["exception"]).value, logType, filePath, content, parsedAt, now, d);
    }
  }

  /** The base record with the HTTP fields (or none) merged on top has the shape of a line without exception. */
  lemma MergeHttpShape(base: Record, http: Record, logType: string, filePath: string, content: string,
                       parsedAt: string, now: string, d: Record)
    requires CommonShape(base, "python", logType, d, filePath, content, parsedAt, now)
    requires base.Keys == CommonKeys + PythonKeys && PythonExtras(base, d)
    requires http.Keys == (if "method" in d then HttpKeys else {})
    requires "method" in d ==> HttpCopied(base + http, d)
    ensures "exception" !in d ==> PythonShape(base + http, logType, filePath, content, parsedAt, now, d)
    ensures CommonShape(base + http, "python", logType, d, filePath, content, parsedAt, now)
    ensures PythonExtras(base + http, d)
    ensures (base + http).Keys == CommonKeys + PythonKeys + (if "method" in d then HttpKeys else {})
  {
    KeySetsDisjoint();
    CommonShapeExtend(base, http, "python", logType, d, filePath, content, parsedAt, now);
    PythonExtrasExtend(base, http, d);
  }

  /** The exception fields merged on top of a record of that shape give the shape of a line with an exception. */
  lemma MergeExceptionShape(r: Record, exc: Record, logType: string, filePath: string, content: string,
                            parsedAt: string, now: string, d: Record)
    requires "exception" in d && d["exception"].Dict?
    requires CommonShape(r, "python", logType, d, filePath, content, parsedAt, now) && PythonExtras(r, d)
    requires r.Keys == CommonKeys + PythonKeys + (if "method" in d then HttpKeys else {})
    requires "method" in d ==> HttpCopied(r, d)
    requires exc.Keys == ExceptionKeys && ExceptionCopied(exc, d["exception"].fields)
    ensures PythonShape(r + exc, logType, filePath, content, parsedAt, now, d)
  {
    KeySetsDisjoint();
    CommonShapeExtend(r, exc, "python", logType, d, filePath, content, parsedAt, now);
    PythonExtrasExtend(r, exc, d);
    HttpCopiedExtend(r, exc, d);
    ExceptionCopiedMerge(r, exc, d["exception"].fields);
  }

  /**
   * The record `parse_python_log` builds from a JSON object: the common
   * fields, name, function and filename (default ""), the seven HTTP
   * fields iff the line has a method and the three exception fields iff it
   * has an exception (each `.get`, so None when missing).
   */
  lemma ParsePythonJsonFields(filePath: string, content: string, parsedAt: string, now: string, v: Value)
    ensures var r := ParsePythonJson(filePath, content, parsedAt, now, v);
      r.Ok? ==> v.Dict? && PythonShape(r.value, PythonLogType(filePath), filePath, content, parsedAt, now, v.fields)
  {
    if v.Dict? {
      PythonRecordFields(PythonLogType(filePath), filePath, content, parsedAt, now, v.fields);
    }
  }

  /**
   * `parse_python_log`: the common fields plus name, function, filename,
   * HTTP and exception fields; a line that is not JSON falls back to the
   * plain-text parser.
   */
  function ParsePythonLog(filePath: string, content: string, parsedAt: string, now: string, decode: Decoder): (r: Outcome<Record>)
    ensures decode(content).None? ==> r == Ok(ParseGenericLog(filePath, content, parsedAt, now))
    ensures decode(content).Some? ==> r == ParsePythonJson(filePath, content, parsedAt, now, decode(content).value)
  {
    match decode(content)
    case None => Ok(ParseGenericLog(filePath, content, parsedAt, now))
    case Some(v) => ParsePythonJson(filePath, content, parsedAt, now, v)
  }
}
