/**
 * The Python backend's log parser (`PythonLogParser`): Apache-style access
 * lines read with one anchored pattern, JSON error lines decoded field by
 * field, whole files parsed line by line, and entries flattened into CSV
 * rows.
 */
module PythonParser {
  import opened Wrappers
  import opened Text
  import opened Values
  import opened Layout
  import opened StampFormat

  /**
   * `PythonLogEntry`. Every optional field is a value, `Null` standing for
   * `None`; fields copied out of a JSON line keep whatever type they had there.
   */
  datatype PyEntry = PyEntry(
    timestamp: string, level: Value, message: string, logType: string, sourceFile: string,
    ipAddress: Value, userId: Value, httpMethod: Value, url: Value, httpVersion: Value,
    statusCode: Value, responseSize: Value, referer: Value, userAgent: Value, responseTime: Value,
    loggerName: Value, functionName: Value, filename: Value, filePath: Value, stackInfo: Value,
    errorCategory: Value)

  // ---------------------------------------------------------------------
  // The access pattern

  /** `\S`. */
  predicate NotSpace(c: char) { !IsSpace(c) }

  /** `[^\]]`. */
  predicate NotBracket(c: char) { c != ']' }

  /** `[^"]`. */
  predicate NotQuote(c: char) { c != '"' }

  /** `[\d.]`. */
  predicate DigitOrDot(c: char) { IsDigit(c) || c == '.' }

  /**
   * The access pattern
   * `^(\S+) - (\S+) \[([^\]]+)\] "(\w+) ([^"]+) HTTP/([^"]+)" (\d+) (\d+) "([^"]*)" "([^"]*)" ([\d.]+) ms$`,
   * with the request `([^"]+) HTTP/([^"]+)` read as one capture of `[^"]`
   * and split afterwards by `SplitRequest`; written in five pieces of two
   * captures each.
   */
  const AccessLayout: seq<Seg> := ClientPart + (StampPart + (RequestPart + (SizePart + AgentPart)))

  /** `(\S+) - (\S+) \[` */
  const ClientPart: seq<Seg> := [Field(NotSpace, true), Lit(" - "), Field(NotSpace, true), Lit(" [")]

  /** `([^\]]+)\] "(\w+) ` */
  const StampPart: seq<Seg> := [Field(NotBracket, true), Lit("] \""), Field(IsWordChar, true), Lit(" ")]

  /** `([^"]+ HTTP/[^"]+)" (\d+) ` */
  const RequestPart: seq<Seg> := [Field(NotQuote, true), Lit("\" "), Field(IsDigit, true), Lit(" ")]

  /** `(\d+) "([^"]*)" "` */
  const SizePart: seq<Seg> := [Field(IsDigit, true), Lit(" \""), Field(NotQuote, false), Lit("\" \"")]

  /** `([^"]*)" ([\d.]+) ms` */
  const AgentPart: seq<Seg> := [Field(NotQuote, false), Lit("\" "), Field(DigitOrDot, true), Lit(" ms")]

  /** Each piece holds two captures and needs no backtracking. */
  lemma AccessPartsShape()
    ensures FieldCount(ClientPart) == 2 && Separated(ClientPart)
    ensures FieldCount(StampPart) == 2 && Separated(StampPart)
    ensures FieldCount(RequestPart) == 2 && Separated(RequestPart)
    ensures FieldCount(SizePart) == 2 && Separated(SizePart)
    ensures FieldCount(AgentPart) == 2 && Separated(AgentPart)
  {
    PairShape(ClientPart, "", "");
    PairShape(StampPart, "", "");
    PairShape(RequestPart, "", "");
    PairShape(SizePart, "", "");
    PairShape(AgentPart, "", "");
  }

  /** The access layout has ten captures and needs no backtracking. */
  lemma AccessLayoutShape()
    ensures FieldCount(AccessLayout) == 10 && Separated(AccessLayout)
  {
    AccessPartsShape();
    var tail := SizePart + AgentPart;
    SeparatedAppend(SizePart, AgentPart);
    AppendSegs(SizePart, AgentPart, ["", ""], ["", ""]);
    SeparatedAppend(RequestPart, tail);
    AppendSegs(RequestPart, tail, ["", ""], ["", "", "", ""]);
    tail := RequestPart + tail;
    SeparatedAppend(StampPart, tail);
    AppendSegs(StampPart, tail, ["", ""], ["", "", "", "", "", ""]);
    tail := StampPart + tail;
    SeparatedAppend(ClientPart, tail);
    AppendSegs(ClientPart, tail, ["", ""], ["", "", "", "", "", "", "", ""]);
  }

  /** Ten captures, grouped the way the five pieces of the layout hold them. */
  function Grouped(a: string, b: string, c: string, d: string, e: string,
                   f: string, g: string, h: string, i: string, j: string): (caps: seq<string>)
    ensures |caps| == 10
  {
    [a, b] + ([c, d] + ([e, f] + ([g, h] + [i, j])))
  }

  /** The layout's captures and rendering, piece by piece. */
  lemma AccessPieces(a: string, b: string, c: string, d: string, e: string,
                     f: string, g: string, h: string, i: string, j: string)
    ensures FieldCount(AccessLayout) == 10
    ensures FieldCount(ClientPart) == FieldCount(StampPart) == FieldCount(RequestPart) == 2
    ensures FieldCount(SizePart) == FieldCount(AgentPart) == 2
    ensures Fits(AccessLayout, Grouped(a, b, c, d, e, f, g, h, i, j)) <==>
      Fits(ClientPart, [a, b]) && Fits(StampPart, [c, d]) && Fits(RequestPart, [e, f])
      && Fits(SizePart, [g, h]) && Fits(AgentPart, [i, j])
    ensures Render(AccessLayout, Grouped(a, b, c, d, e, f, g, h, i, j))
      == Render(ClientPart, [a, b]) + (Render(StampPart, [c, d]) + (Render(RequestPart, [e, f])
         + (Render(SizePart, [g, h]) + Render(AgentPart, [i, j]))))
  {
    AccessPartsShape();
    AppendSegs(SizePart, AgentPart, [g, h], [i, j]);
    AppendSegs(RequestPart, SizePart + AgentPart, [e, f], [g, h] + [i, j]);
    AppendSegs(StampPart, RequestPart + (SizePart + AgentPart), [c, d], [e, f] + ([g, h] + [i, j]));
    AppendSegs(ClientPart, StampPart + (RequestPart + (SizePart + AgentPart)), [a, b], [c, d] + ([e, f] + ([g, h] + [i, j])));
  }

  /** Ten captures fit the access layout iff each is of its class. */
  lemma AccessFits(a: string, b: string, c: string, d: string, e: string,
                   f: string, g: string, h: string, i: string, j: string)
    ensures FieldCount(AccessLayout) == 10
    ensures Fits(AccessLayout, Grouped(a, b, c, d, e, f, g, h, i, j)) <==>
      && a != [] && Every(a, NotSpace) && b != [] && Every(b, NotSpace)
      && c != [] && Every(c, NotBracket) && d != [] && Every(d, IsWordChar)
      && e != [] && Every(e, NotQuote) && f != [] && Every(f, IsDigit)
      && g != [] && Every(g, IsDigit) && Every(h, NotQuote) && Every(i, NotQuote)
      && j != [] && Every(j, DigitOrDot)
  {
    AccessPieces(a, b, c, d, e, f, g, h, i, j);
    PairShape(ClientPart, a, b);
    PairShape(StampPart, c, d);
    PairShape(RequestPart, e, f);
    PairShape(SizePart, g, h);
    PairShape(AgentPart, i, j);
  }

  /** Ten captures render the line `<ip> - <user> [<time>] "<verb> <request>" <status> <size> "<referer>" "<agent>" <ms> ms`. */
  lemma AccessRender(a: string, b: string, c: string, d: string, e: string,
                     f: string, g: string, h: string, i: string, j: string)
    ensures FieldCount(AccessLayout) == 10
    ensures Render(AccessLayout, Grouped(a, b, c, d, e, f, g, h, i, j))
      == (a + " - " + b + " [") + ((c + "] \"" + d + " ") + ((e + "\" " + f + " ")
         + ((g + " \"" + h + "\" \"") + (i + "\" " + j + " ms"))))
  {
    AccessPieces(a, b, c, d, e, f, g, h, i, j);
    PairShape(ClientPart, a, b);
    PairShape(StampPart, c, d);
    PairShape(RequestPart, e, f);
    PairShape(SizePart, g, h);
    PairShape(AgentPart, i, j);
  }

  /** ` HTTP/` at `k` with at least one character after it. */
  predicate VersionAt(r: string, k: nat) {
    OccursAt(r, " HTTP/", k) && k + 6 < |r|
  }

  /**
   * `([^"]+) HTTP/([^"]+)` on the request text: the URL runs to the last
   * ` HTTP/` that leaves a version after it.
   */
  function SplitRequest(r: string): Option<(string, string)> {
    match LastWhere(r, 0, |r|, VersionAt)
    case None => None
    case Some(k) => Some((r[..k], r[k + 6..]))
  }

  /** A version with no ` HTTP/` followed by more text inside it. */
  predicate PlainVersion(v: string) {
    forall p: nat :: p < |v| ==> !VersionAt(v, p)
  }

  /** The split gives back a non-empty URL and version, joined by ` HTTP/`, the version plain. */
  lemma SplitRequestSound(r: string)
    ensures match SplitRequest(r)
      case Some((u, v)) => u != [] && v != [] && r == u + " HTTP/" + v && PlainVersion(v)
      case None => forall k: nat :: 0 < k <= |r| ==> !VersionAt(r, k)
  {
    LastWhereSpec(r, 0, |r|, VersionAt);
    match LastWhere(r, 0, |r|, VersionAt)
    case Some(k) =>
      var u, v := r[..k], r[k + 6..];
      assert r == u + r[k..k + 6] + v;
      forall p: nat | p < |v|
        ensures !VersionAt(v, p)
      {
        assert !VersionAt(r, k + 6 + p);
        if p + 6 <= |v| {
          assert r[k + 6 + p..k + 6 + p + 6] == v[p..p + 6];
        }
      }
    case None =>
  }

  /** A non-empty URL and a plain, non-empty version are split back apart. */
  lemma SplitRequestRoundTrip(u: string, v: string)
    requires u != [] && v != [] && PlainVersion(v)
    ensures SplitRequest(u + " HTTP/" + v) == Some((u, v))
  {
    var r := u + " HTTP/" + v;
    var m := |u|;
    assert r[m..m + 6] == " HTTP/";
    forall k | m < k <= |r|
      ensures !VersionAt(r, k)
    {
      if k < m + 6 {
        assert r[k] == " HTTP/"[k - m];
        assert r[k] != ' ';
      } else if k + 6 <= |r| {
        assert r[k..k + 6] == v[k - m - 6..k - m];
        assert !VersionAt(v, k - m - 6);
      }
    }
    LastWhereIs(r, 0, |r|, VersionAt, m);
    assert r[..m] == u && r[m + 6..] == v;
  }

  // ---------------------------------------------------------------------
  // Access lines

  /** The pieces of a matched access line, with the request's URL and version apart. */
  datatype AccessMatch = AccessMatch(
    ip: string, user: string, time: string, verb: string, url: string, version: string,
    status: string, size: string, referer: string, agent: string, millis: string)

  /** The request text between the quotes after the verb. */
  function Request(m: AccessMatch): string {
    m.url + " HTTP/" + m.version
  }

  /** The ten captures of the layout that hold `m`. */
  function CapsOf(m: AccessMatch): (caps: seq<string>)
    ensures |caps| == 10
  {
    Grouped(m.ip, m.user, m.time, m.verb, Request(m), m.status, m.size, m.referer, m.agent, m.millis)
  }

  /** The access-log line holding `m`, grouped by the pieces of the layout. */
  function AccessText(m: AccessMatch): string {
    (m.ip + " - " + m.user + " [") + ((m.time + "] \"" + m.verb + " ") + ((Request(m) + "\" " + m.status + " ")
      + ((m.size + " \"" + m.referer + "\" \"") + (m.agent + "\" " + m.millis + " ms"))))
  }

  /** Each piece is of the class its group in the pattern allows. */
  predicate WellFormed(m: AccessMatch) {
    && m.ip != [] && Every(m.ip, NotSpace) && m.user != [] && Every(m.user, NotSpace)
    && m.time != [] && Every(m.time, NotBracket) && m.verb != [] && Every(m.verb, IsWordChar)
    && m.url != [] && Every(m.url, NotQuote) && m.version != [] && Every(m.version, NotQuote)
    && PlainVersion(m.version)
    && m.status != [] && Every(m.status, IsDigit) && m.size != [] && Every(m.size, IsDigit)
    && Every(m.referer, NotQuote) && Every(m.agent, NotQuote)
    && m.millis != [] && Every(m.millis, DigitOrDot)
  }

  /** `access_pattern.match(line)`: the eleven groups, or `None`. */
  function MatchAccess(line: string): Option<AccessMatch> {
    AccessLayoutShape();
    match MatchFrom(AccessLayout, line, 0)
    case None => None
    case Some(c) =>
      match SplitRequest(c[4])
      case None => None
      case Some((u, v)) => Some(AccessMatch(c[0], c[1], c[2], c[3], u, v, c[5], c[6], c[7], c[8], c[9]))
  }

  /** The request is of class `[^"]` iff its URL and version are. */
  lemma RequestQuoteFree(m: AccessMatch)
    ensures Every(Request(m), NotQuote) <==> Every(m.url, NotQuote) && Every(m.version, NotQuote)
  {
    EveryAppend(m.url, " HTTP/", NotQuote);
    EveryAppend(m.url + " HTTP/", m.version, NotQuote);
  }

  /** A match is a well-formed record written as the line. */
  lemma MatchAccessSound(line: string)
    ensures var r := MatchAccess(line);
      r.Some? ==> WellFormed(r.value) && AccessText(r.value) == line
  {
    AccessLayoutShape();
    MatchSound(AccessLayout, line, 0);
    match MatchFrom(AccessLayout, line, 0)
    case None =>
    case Some(c) =>
      SplitRequestSound(c[4]);
      match SplitRequest(c[4])
      case None =>
      case Some((u, v)) =>
        var m := AccessMatch(c[0], c[1], c[2], c[3], u, v, c[5], c[6], c[7], c[8], c[9]);
        assert c == CapsOf(m);
        AccessFits(c[0], c[1], c[2], c[3], c[4], c[5], c[6], c[7], c[8], c[9]);
        AccessRender(c[0], c[1], c[2], c[3], c[4], c[5], c[6], c[7], c[8], c[9]);
        RequestQuoteFree(m);
        assert line[0..] == line;
  }

  /** A well-formed record's line matches and gives back the record. */
  lemma MatchAccessRoundTrip(m: AccessMatch)
    requires WellFormed(m)
    ensures MatchAccess(AccessText(m)) == Some(m)
  {
    var line := AccessText(m);
    AccessLayoutShape();
    RequestQuoteFree(m);
    AccessFits(m.ip, m.user, m.time, m.verb, Request(m), m.status, m.size, m.referer, m.agent, m.millis);
    AccessRender(m.ip, m.user, m.time, m.verb, Request(m), m.status, m.size, m.referer, m.agent, m.millis);
    assert line[0..] == line;
    MatchExact(AccessLayout, CapsOf(m), line, 0);
    SplitRequestRoundTrip(m.url, m.version);
  }

  /** The entry `parse_access_log_line` builds from a matched line. */
  function AccessEntry(m: AccessMatch, sourceFile: string): PyEntry {
    PyEntry(
      timestamp := AccessTimestamp(m.time), level := Str("INFO"),
      message := m.verb + " " + m.url + " - " + m.status, logType := "access", sourceFile := sourceFile,
      ipAddress := Str(m.ip), userId := if AllDigits(m.user) then Str(m.user) else Null,
      httpMethod := Str(m.verb), url := Str(m.url), httpVersion := Str(m.version),
      statusCode := Str(m.status), responseSize := Str(m.size),
      referer := if m.referer == "-" then Null else Str(m.referer),
      userAgent := Str(m.agent), responseTime := Str(m.millis),
      loggerName := Null, functionName := Null, filename := Null, filePath := Null, stackInfo := Null,
      errorCategory := Null)
  }

  /** `parse_access_log_line`: `None` for a blank line or one the pattern rejects. */
  function ParseAccessLine(line: string, sourceFile: string): Option<PyEntry> {
    var t := Strip(line);
    if t == [] then None
    else match MatchAccess(t)
      case None => None
      case Some(m) => Some(AccessEntry(m, sourceFile))
  }

  /**
   * A parsed access line is a well-formed record: the entry is at level
   * INFO, of type access, with the message `<verb> <url> - <status>`, the
   * pieces copied over, the user kept only when it is all digits and a
   * referer of `-` dropped.
   */
  lemma AccessLineSound(line: string, sourceFile: string)
    ensures var r := ParseAccessLine(line, sourceFile);
      r.Some? ==> exists m :: WellFormed(m) && AccessText(m) == Strip(line) && AccessFields(m, sourceFile, r.value)
  {
    var t := Strip(line);
    if t != [] {
      MatchAccessSound(t);
    }
  }

  /** The fields of an access entry, as the pieces of its line determine them. */
  predicate AccessFields(m: AccessMatch, sourceFile: string, e: PyEntry) {
    && e.timestamp == AccessTimestamp(m.time)
    && e.level == Str("INFO") && e.logType == "access" && e.sourceFile == sourceFile
    && e.message == m.verb + " " + m.url + " - " + m.status
    && e.ipAddress == Str(m.ip) && e.httpMethod == Str(m.verb) && e.url == Str(m.url)
    && e.httpVersion == Str(m.version) && e.statusCode == Str(m.status) && e.responseSize == Str(m.size)
    && e.userAgent == Str(m.agent) && e.responseTime == Str(m.millis)
    && (e.userId == Str(m.user) <==> AllDigits(m.user)) && (e.userId == Null <==> !AllDigits(m.user))
    && (e.referer == Null <==> m.referer == "-") && (e.referer != Null ==> e.referer == Str(m.referer))
    && e.errorCategory == Null && e.loggerName == Null
  }

  /** The line of a well-formed record parses to the record's entry, whatever the file. */
  lemma AccessLineRoundTrip(m: AccessMatch, sourceFile: string)
    requires WellFormed(m)
    ensures ParseAccessLine(AccessText(m), sourceFile) == Some(AccessEntry(m, sourceFile))
    ensures AccessFields(m, sourceFile, AccessEntry(m, sourceFile))
  {
    var t := AccessText(m);
    assert t[0] == m.ip[0];
    assert NotSpace(m.ip[0]);
    assert t[|t| - 1] == 's';
    StripUnchanged(t);
    MatchAccessRoundTrip(m);
  }

  // ---------------------------------------------------------------------
  // Error lines

  /** The keywords `_categorize_error` looks for, in the order it tries them, with their categories. */
  const Categories: seq<(string, string)> := [
    ("wikipedia", "API_ERROR"), ("rate_limit", "RATE_LIMIT"), ("validation", "VALIDATION_ERROR"),
    ("streaming", "STREAMING_ERROR"), ("authentication", "AUTH_ERROR"), ("database", "DB_ERROR"),
    ("network", "NETWORK_ERROR")]

  /** The category of the first keyword of `table`, from position `k` on, that the message has. */
  function CategoryFrom(has: string -> bool, table: seq<(string, string)>, k: nat): string
    requires k <= |table|
    decreases |table| - k
  {
    if k == |table| then "GENERAL_ERROR"
    else if has(table[k].0) then table[k].1
    else CategoryFrom(has, table, k + 1)
  }

  /** `_categorize_error`: the keywords are looked for in the lowered message. */
  function CategorizeError(message: string): string {
    var lowered := Lower(message);
    CategoryFrom(kw => Contains(lowered, kw), Categories, 0)
  }

  /** The category names differ from each other and from the fallback. */
  predicate DistinctCategories(table: seq<(string, string)>) {
    && (forall i, j :: 0 <= i < j < |table| ==> table[i].1 != table[j].1)
    && (forall i :: 0 <= i < |table| ==> table[i].1 != "GENERAL_ERROR")
  }

  lemma CategoriesDistinct()
    ensures DistinctCategories(Categories)
  {
  }

  /** From position `k` on: the fallback iff no keyword occurs, a category iff its keyword is the first that occurs. */
  lemma {:induction false} CategoryFromSpec(has: string -> bool, table: seq<(string, string)>, k: nat)
    requires k <= |table| && DistinctCategories(table)
    ensures CategoryFrom(has, table, k) == "GENERAL_ERROR" <==>
      forall j :: k <= j < |table| ==> !has(table[j].0)
    ensures forall i :: k <= i < |table| ==>
      (CategoryFrom(has, table, k) == table[i].1 <==>
        has(table[i].0) && forall j :: k <= j < i ==> !has(table[j].0))
    decreases |table| - k
  {
    if k < |table| {
      var r := CategoryFrom(has, table, k);
      if has(table[k].0) {
        assert r == table[k].1;
        forall i | k < i < |table|
          ensures r != table[i].1
        {
          assert table[k].1 != table[i].1;
        }
      } else {
        CategoryFromSpec(has, table, k + 1);
        assert r == CategoryFrom(has, table, k + 1);
        CategoryFromRange(has, table, k + 1);
        if r != "GENERAL_ERROR" {
          var m :| k + 1 <= m < |table| && r == table[m].1;
          assert table[k].1 != table[m].1;
        }
        assert r != table[k].1;
      }
    }
  }

  /** The category found is the fallback or the category of an entry from position `k` on. */
  lemma {:induction false} CategoryFromRange(has: string -> bool, table: seq<(string, string)>, k: nat)
    requires k <= |table|
    ensures var r := CategoryFrom(has, table, k);
      r == "GENERAL_ERROR" || exists i :: k <= i < |table| && r == table[i].1
    decreases |table| - k
  {
    if k < |table| && !has(table[k].0) {
      CategoryFromRange(has, table, k + 1);
    }
  }

  /**
   * The message gets the category of the first keyword, in the order
   * wikipedia, rate_limit, validation, streaming, authentication, database,
   * network, that its lowered text contains, and GENERAL_ERROR when it
   * contains none.
   */
  lemma CategorizeErrorSpec(message: string)
    ensures CategorizeError(message) == "GENERAL_ERROR" <==>
      forall j :: 0 <= j < |Categories| ==> !Contains(Lower(message), Categories[j].0)
    ensures forall i :: 0 <= i < |Categories| ==>
      (CategorizeError(message) == Categories[i].1 <==>
        Contains(Lower(message), Categories[i].0)
        && forall j :: 0 <= j < i ==> !Contains(Lower(message), Categories[j].0))
  {
    CategoriesDistinct();
    var lowered := Lower(message);
    CategoryFromSpec(kw => Contains(lowered, kw), Categories, 0);
  }

  /** The library calls the parser makes: `json.loads` and `datetime.fromisoformat`. */
  datatype Readers = Readers(decode: Decoder, fromIso: IsoReader)

  /** An entry with only the five fixed fields set. */
  function BareEntry(timestamp: string, level: Value, message: string, logType: string, sourceFile: string): PyEntry {
    PyEntry(timestamp, level, message, logType, sourceFile,
      Null, Null, Null, Null, Null, Null, Null, Null, Null, Null, Null, Null, Null, Null, Null, Null)
  }

  /**
   * The timestamp of a JSON error line: missing or falsy means `now`; a
   * string is read as ISO 8601 after `Z` becomes `+00:00`, reprinted when it
   * reads and kept as it was when it does not; anything else truthy has no
   * `.replace` and raises.
   */
  function ErrorTimestamp(ts: Value, fromIso: IsoReader, now: string): Outcome<string> {
    if !Truthy(ts) then Ok(now)
    else if !ts.Str? then Raised
    else match fromIso(ReplaceAll(ts.s, "Z", "+00:00"))
      case Some(st) => Ok(FormatStamp(st))
      case None => Ok(ts.s)
  }

  /** The entry of a decoded JSON error line whose timestamp and message came out as `timestamp` and `message`. */
  function JsonEntry(d: Record, timestamp: string, message: string, sourceFile: string): PyEntry {
    BareEntry(timestamp, Get(d, "level", Str("ERROR")), message, "error", sourceFile).(
      userId := if "user_id" in d then Str(Show(d["user_id"])) else Null,
      loggerName := Get(d, "name", Null), functionName := Get(d, "function", Null),
      filename := Get(d, "filename", Null), filePath := Get(d, "path", Null),
      stackInfo := Get(d, "stack_info", Null), errorCategory := Str(CategorizeError(message)))
  }

  /**
   * `parse_error_log_line`; `now` is the formatted time `datetime.now()`
   * gives while the line is parsed. A line that is not JSON becomes an
   * ERROR entry holding the line; a JSON value that is not an object, a
   * message that is not a string or a timestamp that is truthy but not a
   * string raises.
   */
  function ParseErrorLine(line: string, sourceFile: string, rd: Readers, now: string): Outcome<Option<PyEntry>> {
    var t := Strip(line);
    if t == [] then Ok(None)
    else match rd.decode(t)
      case None => Ok(Some(BareEntry(now, Str("ERROR"), t, "error", sourceFile)))
      case Some(data) =>
        if !data.Dict? then Raised
        else
          var d := data.fields;
          var timestamp :- ErrorTimestamp(Get(d, "timestamp", Str("")), rd.fromIso, now);
          var message := Get(d, "message", Str(""));
          if !message.Str? then Raised
          else Ok(Some(JsonEntry(d, timestamp, message.s, sourceFile)))
  }

  /** A blank line gives nothing; a line that is not JSON gives an ERROR entry whose message is the stripped line. */
  lemma ErrorLinePlain(line: string, sourceFile: string, rd: Readers, now: string)
    ensures var r := ParseErrorLine(line, sourceFile, rd, now);
      && (r == Ok(None) <==> Strip(line) == [])
      && (Strip(line) != [] && rd.decode(Strip(line)).None? ==>
            r.Ok? && r.value.Some? && var e := r.value.value;
            e.level == Str("ERROR") && e.logType == "error" && e.message == Strip(line)
            && e.timestamp == now && e.sourceFile == sourceFile && e.userId == Null && e.errorCategory == Null)
  {
  }

  /** A JSON line raises iff it is not an object, its message is not a string, or its timestamp is truthy but not a string. */
  lemma ErrorLineRaises(line: string, sourceFile: string, rd: Readers, now: string)
    ensures ParseErrorLine(line, sourceFile, rd, now).Raised? <==>
      var t := Strip(line);
      t != [] && rd.decode(t).Some? &&
      var v := rd.decode(t).value;
      (!v.Dict? || !Get(v.fields, "message", Str("")).Str?
       || (Truthy(Get(v.fields, "timestamp", Str(""))) && !Get(v.fields, "timestamp", Str("")).Str?))
  {
  }

  /**
   * An entry read from a JSON object: level from the line or ERROR when it
   * has none, the message's category, user_id as `str` of the value only
   * when the key is there, the other fields copied or `None`.
   */
  lemma ErrorLineJson(line: string, sourceFile: string, rd: Readers, now: string)
    requires Strip(line) != [] && rd.decode(Strip(line)).Some? && rd.decode(Strip(line)).value.Dict?
    ensures var d := rd.decode(Strip(line)).value.fields;
      var r := ParseErrorLine(line, sourceFile, rd, now);
      r.Ok? ==> r.value.Some? && var e := r.value.value;
        && Str(e.message) == Get(d, "message", Str("")) && e.logType == "error" && e.sourceFile == sourceFile
        && ("level" in d ==> e.level == d["level"]) && ("level" !in d ==> e.level == Str("ERROR"))
        && ("user_id" in d ==> e.userId == Str(Show(d["user_id"]))) && ("user_id" !in d ==> e.userId == Null)
        && e.errorCategory == Str(CategorizeError(e.message))
        && e.loggerName == Get(d, "name", Null) && e.stackInfo == Get(d, "stack_info", Null)
        && e.ipAddress == Null && e.url == Null
        && ErrorTimestamp(Get(d, "timestamp", Str("")), rd.fromIso, now) == Ok(e.timestamp)
  {
  }

  /** A JSON timestamp that reads as ISO 8601 is reprinted; one that does not is kept; none means now. */
  lemma ErrorTimestampSpec(ts: Value, fromIso: IsoReader, now: string)
    ensures var r := ErrorTimestamp(ts, fromIso, now);
      && (!Truthy(ts) ==> r == Ok(now))
      && (r.Raised? <==> Truthy(ts) && !ts.Str?)
      && (ts.Str? && ts.s != [] && fromIso(ReplaceAll(ts.s, "Z", "+00:00")).Some? ==>
            r == Ok(FormatStamp(fromIso(ReplaceAll(ts.s, "Z", "+00:00")).value)))
      && (ts.Str? && ts.s != [] && fromIso(ReplaceAll(ts.s, "Z", "+00:00")).None? ==> r == Ok(ts.s))
  {
  }

  // ---------------------------------------------------------------------
  // Dispatch, files and CSV rows

  /** `parse_line`: access and error lines go to their parser; any other log type gives `None`. */
  function ParseLine(line: string, logType: string, sourceFile: string, rd: Readers, now: string): Outcome<Option<PyEntry>> {
    if logType == "access" then Ok(ParseAccessLine(line, sourceFile))
    else if logType == "error" then ParseErrorLine(line, sourceFile, rd, now)
    else Ok(None)
  }

  /** Only access and error lines give entries, access lines never raise, and an entry carries the requested type and the file. */
  lemma ParseLineSpec(line: string, logType: string, sourceFile: string, rd: Readers, now: string)
    ensures var r := ParseLine(line, logType, sourceFile, rd, now);
      && (logType != "access" && logType != "error" ==> r == Ok(None))
      && (logType == "access" ==> r.Ok?)
      && (r.Ok? && r.value.Some? ==> r.value.value.logType == logType && r.value.value.sourceFile == sourceFile)
  {
  }

  /** What `parse_file` keeps of one call of `parse_line`: the entry, or nothing when there is none or it raised. */
  function Kept(r: Outcome<Option<PyEntry>>): Option<PyEntry> {
    if r.Ok? then r.value else None
  }

  /** What `parse_line` gives for each line; `clock(i)` is the time while the `i`-th line is parsed. */
  function LineResults(lines: seq<string>, logType: string, sourceFile: string, rd: Readers, clock: nat -> string): (r: seq<Option<PyEntry>>)
    ensures |r| == |lines|
  {
    seq(|lines|, i requires 0 <= i < |lines| => Kept(ParseLine(lines[i], logType, sourceFile, rd, clock(i))))
  }

  /** The entries of the lines, in order; lines with no entry or that raise are skipped. */
  function ParsedLines(lines: seq<string>, logType: string, sourceFile: string, rd: Readers, clock: nat -> string): seq<PyEntry> {
    Present(LineResults(lines, logType, sourceFile, rd, clock))
  }

  lemma ParsedLinesStep(lines: seq<string>, i: nat, logType: string, sourceFile: string, rd: Readers, clock: nat -> string)
    requires i < |lines|
    ensures var r := Kept(ParseLine(lines[i], logType, sourceFile, rd, clock(i)));
      ParsedLines(lines[..i + 1], logType, sourceFile, rd, clock)
        == ParsedLines(lines[..i], logType, sourceFile, rd, clock) + (if r.Some? then [r.value] else [])
  {
    var rs := LineResults(lines[..i + 1], logType, sourceFile, rd, clock);
    assert rs[..i] == LineResults(lines[..i], logType, sourceFile, rd, clock);
  }

  /** `parse_file`: the entries of the file's lines, tagged with its base name; a file that cannot be read (`None`) gives none. */
  function ParsedFile(content: Option<string>, filePath: string, logType: string, rd: Readers, clock: nat -> string): seq<PyEntry> {
    match content
    case None => []
    case Some(text) => ParsedLines(NonBlankLines(text), logType, Basename(filePath), rd, clock)
  }

  method ParseFile(content: Option<string>, filePath: string, logType: string, rd: Readers, clock: nat -> string)
    returns (entries: seq<PyEntry>)
    ensures entries == ParsedFile(content, filePath, logType, rd, clock)
  {
    entries := [];
    if content.None? {
      return;
    }
    var lines := NonBlankLines(content.value);
    var source := Basename(filePath);
    for i := 0 to |lines|
      invariant entries == ParsedLines(lines[..i], logType, source, rd, clock)
    {
      var r := ParseLine(lines[i], logType, source, rd, clock(i));
      ParsedLinesStep(lines, i, logType, source, rd, clock);
      if r.Ok? && r.value.Some? {
        entries := entries + [r.value.value];
      }
    }
    assert lines[..|lines|] == lines;
  }

  /**
   * An entry is kept iff some line parses to it without raising; there are
   * at most as many entries as lines; every entry has the requested type
   * and the file's name; a type other than access or error gives nothing.
   */
  lemma ParsedLinesSpec(lines: seq<string>, logType: string, sourceFile: string, rd: Readers, clock: nat -> string)
    ensures var es := ParsedLines(lines, logType, sourceFile, rd, clock);
      && |es| <= |lines|
      && (forall e :: e in es <==>
            exists i :: 0 <= i < |lines| && ParseLine(lines[i], logType, sourceFile, rd, clock(i)) == Ok(Some(e)))
      && (forall e :: e in es ==> e.logType == logType && e.sourceFile == sourceFile)
      && (logType != "access" && logType != "error" ==> es == [])
  {
    var rs := LineResults(lines, logType, sourceFile, rd, clock);
    PresentSpec(rs);
    forall i | 0 <= i < |lines|
      ensures forall e :: rs[i] == Some(e) <==> ParseLine(lines[i], logType, sourceFile, rd, clock(i)) == Ok(Some(e))
      ensures rs[i].Some? ==> rs[i].value.logType == logType && rs[i].value.sourceFile == sourceFile
      ensures logType != "access" && logType != "error" ==> rs[i] == None
    {
      ParseLineSpec(lines[i], logType, sourceFile, rd, clock(i));
    }
  }

  // ---------------------------------------------------------------------
  // CSV rows

  /** The columns `to_csv_format` fills, in the order it fills them. */
  const PyFieldnames: seq<string> :=
    ["timestamp", "level", "log_type", "source_file", "message",
     "ip_address", "user_id", "method", "url", "status_code", "response_time", "user_agent",
     "logger_name", "function_name", "filename", "error_category", "parsed_at"]

  /** A row as the dict `to_csv_format` builds: its (column, value) pairs in insertion order. */
  type PyRow = seq<(string, Value)>

  /** `x or ''`. */
  function OrEmpty(v: Value): Value {
    if Truthy(v) then v else Str("")
  }

  /** The CSV row of one entry; `parsedAt` is the time it was converted. */
  function CsvRow(e: PyEntry, parsedAt: string): PyRow {
    [("timestamp", Str(e.timestamp)), ("level", e.level), ("log_type", Str(e.logType)),
     ("source_file", Str(e.sourceFile)), ("message", Str(e.message)),
     ("ip_address", OrEmpty(e.ipAddress)), ("user_id", OrEmpty(e.userId)),
     ("method", OrEmpty(e.httpMethod)), ("url", OrEmpty(e.url)),
     ("status_code", OrEmpty(e.statusCode)), ("response_time", OrEmpty(e.responseTime)),
     ("user_agent", OrEmpty(e.userAgent)), ("logger_name", OrEmpty(e.loggerName)),
     ("function_name", OrEmpty(e.functionName)), ("filename", OrEmpty(e.filename)),
     ("error_category", OrEmpty(e.errorCategory)), ("parsed_at", Str(parsedAt))]
  }

  /** The column names of a row, in order. */
  function Columns(row: PyRow): seq<string> {
    seq(|row|, i requires 0 <= i < |row| => row[i].0)
  }

  /** The values of a row, in order. */
  function Cells(row: PyRow): seq<Value> {
    seq(|row|, i requires 0 <= i < |row| => row[i].1)
  }

  /**
   * `to_csv_format`: one row per entry, in order; `clock(i)` is what
   * `datetime.now().isoformat()` returns while the `i`-th row is built.
   */
  method ToCsvFormat(entries: seq<PyEntry>, clock: nat -> string) returns (rows: seq<PyRow>)
    ensures |rows| == |entries|
    ensures forall i :: 0 <= i < |rows| ==> rows[i] == CsvRow(entries[i], clock(i))
  {
    rows := [];
    for i := 0 to |entries|
      invariant |rows| == i
      invariant forall j :: 0 <= j < i ==> rows[j] == CsvRow(entries[j], clock(j))
    {
      rows := rows + [CsvRow(entries[i], clock(i))];
    }
  }

  /** An empty cell read back as a missing value. */
  function NullIfEmpty(v: Value): Value {
    if v == Str("") then Null else v
  }

  /** The entry that the values of a row, in `PyFieldnames` order, describe; the columns the row lacks are `None`. */
  function FromCells(cells: seq<Value>): PyEntry
    requires |cells| == |PyFieldnames|
  {
    BareEntry(Show(cells[0]), cells[1], Show(cells[4]), Show(cells[2]), Show(cells[3])).(
      ipAddress := NullIfEmpty(cells[5]), userId := NullIfEmpty(cells[6]),
      httpMethod := NullIfEmpty(cells[7]), url := NullIfEmpty(cells[8]),
      statusCode := NullIfEmpty(cells[9]), responseTime := NullIfEmpty(cells[10]),
      userAgent := NullIfEmpty(cells[11]), loggerName := NullIfEmpty(cells[12]),
      functionName := NullIfEmpty(cells[13]), filename := NullIfEmpty(cells[14]),
      errorCategory := NullIfEmpty(cells[15]))
  }

  /** A value `or ''` keeps: missing, or truthy. */
  predicate Unblanked(v: Value) { v == Null || Truthy(v) }

  /** Every optional column of the entry holds `None` or a truthy value, which `or ''` leaves alone. */
  predicate CleanFields(e: PyEntry) {
    Unblanked(e.ipAddress) && Unblanked(e.userId) && Unblanked(e.httpMethod) && Unblanked(e.url)
    && Unblanked(e.statusCode) && Unblanked(e.responseTime) && Unblanked(e.userAgent)
    && Unblanked(e.loggerName) && Unblanked(e.functionName) && Unblanked(e.filename) && Unblanked(e.errorCategory)
  }

  /** The entry with the fields `to_csv_format` drops set to `None`. */
  function Projected(e: PyEntry): PyEntry {
    e.(httpVersion := Null, responseSize := Null, referer := Null, filePath := Null, stackInfo := Null)
  }

  /**
   * A row has exactly the CSV columns in order and ends with the conversion
   * time, and reads back as its entry less the dropped fields when every
   * optional field is missing or truthy.
   */
  lemma CsvRowRoundTrip(e: PyEntry, parsedAt: string)
    ensures Columns(CsvRow(e, parsedAt)) == PyFieldnames
    ensures Cells(CsvRow(e, parsedAt))[16] == Str(parsedAt)
    ensures CleanFields(e) ==> FromCells(Cells(CsvRow(e, parsedAt))) == Projected(e)
  {
    var row := CsvRow(e, parsedAt);
    assert |Cells(row)| == 17;
  }
}
