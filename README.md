# LogMonitoring, modelled in Dafny

This project models the core of LogMonitoring, a system that watches the log
files of a Node.js and a Python service, turns each line into a structured
record, and serves those records to a dashboard.

Two pipelines are modelled.

- **The backend pipeline** (`backend/`). `LogMonitor` watches the log
  directories and reads the lines appended since its last read.
  `LogParser` turns each line into a record: JSON lines of the Node logs,
  and the access, error and JSON lines of the Python logs. `LogQueue` batches
  the records and emits them, together with alerts and statistics.
  `JsonAccumulator` files every record under its week key (the calendar
  year with the ISO week number) and its category.
  `CsvManager` holds the `csv_manager` helpers that prepare and store records
  and build the queries. `Api` holds the `app.py` helpers that filter,
  paginate, sort and count the logs for the HTTP endpoints.
- **The streaming pipeline** (`log_monitoring_system/`). `NodeParser` and
  `PythonParser` parse the lines of each service with their regular
  expressions. `LogStreamer` decides which files to follow, reads what was
  appended, and routes the parsed rows to the CSV file of their log type.

How the model stands in for the running system:

- The file system is a map from path to content (`Disk`). An exception is
  the `Raised` case of an `Outcome`.
- Collaborators the core calls but does not define are parameters. These
  are the JSON decoder and encoder, `float()`, `datetime.fromisoformat`,
  the clocks and the directory listings.
- Objects whose fields the source updates in place are classes with those
  fields: the accumulator, the queue, the file handler and monitor, and the
  streamer. Their methods are proved against functions of the old state, and
  the properties are proved about those functions.
- The regular expressions are modelled as functions over characters.
  `Layout` describes anchored patterns made of literal text and
  character-class captures, and proves when the greedy reading of such a
  pattern is its only match. `StampFormat` models the `strptime` and
  `strftime` formats the Python parser uses. `IsoWeek` models the ISO
  calendar week.

## Model

| member | source | states |
|---|---|---|
| LogParser.SourceOf | backend/log_parser.py:15 | "node" exactly when the path mentions "node_logs", otherwise "python" |
| LogParser.IsErrorContent | backend/log_parser.py:37-40 | true iff the lowercased level (missing counts as "") is error, warn or warning; raises when the content is no dict or the level no string |
| LogParser.IsErrorLog | backend/log_parser.py:292-295 | true iff the lowercased level is error, fatal, warn or warning; a missing level is false, a non-string level raises |
| LogParser.KeyedDigits | backend/log_parser.py:150 | none iff the key followed by "=" or ":" and a digit occurs nowhere; a result is all digits |
| LogParser.KeyedDigitsLeftmost | backend/log_parser.py:150-152 | the digits found are the digit run after the leftmost match (what `re.search(...).group(1)` returns) |
| LogParser.ExtractUserId | backend/log_parser.py:148-153 | "-" iff no `user_id=`/`user_id:` followed by a digit occurs; otherwise the digits of the first such match |
| LogParser.ExtractErrorDetails | backend/log_parser.py:155-162 | a dict {type: validation_error, details: message} iff the lowercased message mentions "validation error", else None |
| LogParser.NodeRequestTagged | backend/log_parser.py:44-60 | a Node request record carries source, log_type "request" and the file path |
| LogParser.NodeRequestTiming | backend/log_parser.py:49-55 | a Node request record keeps the level as original_level, the timestamp, and the float read from response_time without "ms" |
| LogParser.NodeRequestIds | backend/log_parser.py:51-58 | endpoint and ip come from the message object; req_id and user_id from it too, defaulting to "-" |
| LogParser.PythonRequestTagged | backend/log_parser.py:61-77 | a Python request record carries source, log_type "request" and the file path |
| LogParser.PythonRequestDetails | backend/log_parser.py:65-75 | original_level is the level, response_time is duration_ms (0 when missing), user_agent is stripped of quotes, url defaults to "-" |
| LogParser.PythonRequestIds | backend/log_parser.py:67-74 | endpoint is `path`; ip, req_id and user_id come from client_ip, request_id and user_id, defaulting to "-" |
| LogParser.ParseRequestLog | backend/log_parser.py:42-77 | succeeds exactly when every field the branch reads is present and usable (the response time parses as a float for Node); the result is the branch's record, tagged as a request |
| LogParser.NodeLeveledTagged | backend/log_parser.py:81-129 | a Node error or info record carries source, log_type error/info and the file path |
| LogParser.NodeLeveledBody | backend/log_parser.py:85-121 | a Node error or info record keeps the level lowercased, the timestamp and the message |
| LogParser.NodeLeveledIds | backend/log_parser.py:88-124 | req_id and ip default to "-", user_id is extracted from the message |
| LogParser.PythonLeveledTagged | backend/log_parser.py:96-146 | a Python error or info record carries source, log_type error/info and the file path |
| LogParser.PythonLeveledBody | backend/log_parser.py:100-136 | a Python error or info record keeps the level lowercased, the timestamp and the message |
| LogParser.PythonLeveledIds | backend/log_parser.py:106-144 | ids come from request_id, client_ip and user_id with "-" defaults; an error record also gets the error details of its message |
| LogParser.ParseLeveledLog | backend/log_parser.py:79-146 | succeeds exactly when level (a string), timestamp and message are present; the result is the Node or Python record of that kind |
| LogParser.ParseDecoded | backend/log_parser.py:13-23 | succeeds exactly when the decoded content is accepted by the branch its category selects; the record is tagged with the source and that category |
| LogParser.ParseLog | backend/log_parser.py:10-27 | a record iff the content decodes and its branch accepts it; the record is tagged with source, category and path |
| LogParser.ParseLogNone | backend/log_parser.py:12-27 | None for undecodable content, non-object JSON, a missing level or timestamp, or a missing message outside Node requests |
| LogParser.ParseLogBadResponseTime | backend/log_parser.py:55 | a Node request whose response time `float()` rejects after removing "ms" is dropped |
| LogParser.LeveledRecordFields | backend/log_parser.py:79-146 | any parsed non-request record came from a dict with a string level, a timestamp and a message, and keeps all three |
| LogParser.NodeLeveledLogIds | backend/log_parser.py:88-124 | through `parse_log`, a Node error/info record takes req_id and ip as given and the user id from its message |
| LogParser.PythonLeveledLogIds | backend/log_parser.py:106-144 | through `parse_log`, a Python error/info record takes its ids from request_id, client_ip and user_id |
| LogParser.PythonRequestFields | backend/log_parser.py:62-77 | through `parse_log`, a Python request line's path and ids land under the shared names with their defaults |
| LogParser.RequestPrecedence | backend/log_parser.py:18-35 | a request-log path is filed as a request whatever its level says |
| LogParser.ErrorTestsDiffer | backend/log_parser.py:37-40 | the two error tests agree except that only the parsed-record test accepts "fatal" |
| LogParser.LevelWordFrom | backend/log_parser.py:253-254 | the level word found at a position is the first alternative of the pattern that matches there |
| LogParser.GenericLevel | backend/log_parser.py:253-259 | always one of the seven lowercased level words; "info" when no level word occurs |
| LogParser.GenericLevelLeftmost | backend/log_parser.py:253-256 | the level is the level word of the leftmost match, lowercased |
| LogParser.GenericTimestamp | backend/log_parser.py:249-261 | the leftmost date-time match, or `now` when there is none |
| LogParser.ParseGenericLog | backend/log_parser.py:246-265 | message and raw_content are the line, the level is the guessed level, the timestamp the guessed one, tagged generic/unknown |
| LogParser.NodeLogType | backend/log_parser.py:267-276 | "access" iff the path holds accessLogs; "error" iff it holds errorLogs and not accessLogs; "requests" iff only requestsLogs of the three; "general" iff none |
| LogParser.PythonLogType | backend/log_parser.py:278-290 | the type of the first of access, error, info, warning found in the base name, in that order; "general" iff none |
| LogParser.PythonLogTypeIgnoresDirectory | backend/log_parser.py:278-290 | the Python log type depends on the base name only |
| LogParser.ParseNodeLog | backend/log_parser.py:164-194 | non-JSON falls back to the generic parser; JSON that is no object raises; otherwise source, log type, level (default "info"), message (default ""), timestamp (default now), path, parse time and line, plus user_id, the digits after the message's first `userId=`/`userId:`, exactly when there are some |
| LogParser.ExceptionFields | backend/log_parser.py:232-238 | succeeds iff the exception value is a dict, giving exactly exception_type, exception_message and traceback, each its `.get` of type, message, traceback |
| LogParser.HttpFields | backend/log_parser.py:220-229 | exactly the seven HTTP keys, each the line's `.get` of it (None when missing) |
| LogParser.HttpCopiedMerge | backend/log_parser.py:220-229 | after `parsed.update` with the HTTP fields each HTTP key holds the line's value |
| LogParser.CommonFields | backend/log_parser.py:173-182 | exactly the eight common fields: source, log type, level (default "info"), message (default ""), timestamp (default now), path, parse time, line |
| LogParser.PythonExtraFields | backend/log_parser.py:214-216 | name, function and filename, each defaulting to "" |
| LogParser.PythonBaseCommon | backend/log_parser.py:205-217 | the base of a Python JSON record has the common fields with their values |
| LogParser.PythonBaseKeys | backend/log_parser.py:205-217 | the base has exactly the common fields and name, function, filename |
| LogParser.CommonShapeExtend | backend/log_parser.py:221-234 | `parsed.update` with keys outside the common eight keeps the common fields |
| LogParser.ParsePythonJson | backend/log_parser.py:198-240 | raises exactly when the line is not an object or has an exception that is not one |
| LogParser.PythonRecord | backend/log_parser.py:205-240 | raises exactly when the exception field is present and not an object |
| LogParser.MergeHttpShape | backend/log_parser.py:219-229 | the base with the HTTP fields merged keeps common and Python fields and gains the HTTP ones iff the line has a method |
| LogParser.MergeExceptionShape | backend/log_parser.py:231-238 | merging the exception fields keeps all earlier fields and adds the three exception fields with their values |
| LogParser.PythonRecordFields | backend/log_parser.py:205-240 | the record built has the common fields, name/function/filename, the HTTP fields iff `method`, the exception fields iff `exception`, each with its value |
| LogParser.ParsePythonJsonFields | backend/log_parser.py:198-240 | a successful parse is of an object and has exactly those fields with those values |
| LogParser.ParsePythonLog | backend/log_parser.py:196-244 | non-JSON falls back to the generic parser; JSON goes through the Python JSON branch |
| IsoWeek.IsoCalendar | backend/json_accumulator.py:19-21 | the ISO year is the one whose week-1 Monday is the last not after the date (the previous, same or next calendar year); the date is `week - 1` weeks and `weekday - 1` days past that Monday, week 1 to 53, weekday 1 to 7 and the date's weekday |
| IsoWeek.IsoFromMondays | backend/json_accumulator.py:19-21 | from the week-1 Mondays around a day: the ISO year whose Monday interval holds the day, and the week and weekday counted from that Monday |
| IsoWeek.WeekKey | backend/json_accumulator.py:19-21 | the calendar year (not the ISO year), "_W", then the ISO week in two digits |
| IsoWeek.WeekKeyMidYear | backend/json_accumulator.py:20-21 | 1 July 2025 gives "2025_W27", the form the docstring shows |
| IsoWeek.WeekKeyYearEnd | backend/json_accumulator.py:21 | `%Y` with `%V` pairs the calendar year with the ISO week: 30 December 2024 (ISO week 1 of 2025) gives "2024_W01" |
| IsoWeek.WeekKeyNewYear | backend/json_accumulator.py:21 | 1 January 2024 also gives "2024_W01", so two dates a year apart share one file |
| JsonAccumulator.KeyFields | backend/json_accumulator.py:34-40 | the five key fields, in order, each `str` of the value or of "" when missing |
| JsonAccumulator.FingerprintKeyFieldsOnly | backend/json_accumulator.py:31-42 | records that agree on the five key fields get the same fingerprint, whatever else they hold |
| JsonAccumulator.FingerprintSeparates | backend/json_accumulator.py:41-42 | when no key field contains "\|", equal fingerprints mean equal key fields |
| JsonAccumulator.FileNameMatches | backend/json_accumulator.py:23-29 | every category file is matched by the start-up scan pattern and by the "all" pattern of its week |
| JsonAccumulator.AppendEntryEffect | backend/json_accumulator.py:44-65 | a duplicate fingerprint changes nothing; otherwise the file gains exactly the JSON line and the fingerprint is stored; other files are untouched |
| JsonAccumulator.Route | backend/json_accumulator.py:87-106 | the partition is request, error or info, and none for a source other than python or node |
| JsonAccumulator.RoutePython | backend/json_accumulator.py:88-100 | Python records: request iff the path has "access-", else error iff "error-" or "warning-", else info iff "info-" |
| JsonAccumulator.RouteNode | backend/json_accumulator.py:89-101 | Node records: request iff "requestsLogs", else error iff "errorLogs", else info iff "accessLogs" |
| JsonAccumulator.Stamp | backend/json_accumulator.py:83-85 | the record has a timestamp afterwards, and one that had it is unchanged |
| JsonAccumulator.AddEntryTwice | backend/json_accumulator.py:70-106 | adding the same (stamped) record again changes nothing, even in another week |
| JsonAccumulator.AddEntryDuplicate | backend/json_accumulator.py:49-54 | a record whose fingerprint is stored is written to no file |
| JsonAccumulator.AddEntryTarget | backend/json_accumulator.py:87-106 | a record that is written lands in its partition's file of the current week, never in an "all" file |
| JsonAccumulator.StoppedScan | backend/json_accumulator.py:111-133 | what a scan stopped early has loaded is part of the disk's fingerprints |
| JsonAccumulator.AppendedFileHashes | backend/json_accumulator.py:60-62 | appending a record whose JSON reads back as it adds exactly its fingerprint to what a scan of the file finds |
| JsonAccumulator.AppendEntryConsistent | backend/json_accumulator.py:44-65 | an append keeps the stored fingerprints equal to those on disk |
| JsonAccumulator.AddEntryConsistent | backend/json_accumulator.py:70-106 | `add_log` keeps the stored fingerprints equal to those on disk, given that `json.dumps` round-trips |
| JsonAccumulator.FileLogsUnfiltered | backend/json_accumulator.py:155-167 | without a level every decodable line is kept, and nothing else |
| JsonAccumulator.FileLogsFiltered | backend/json_accumulator.py:161-164 | with a level, every value kept is a record of that level (case-insensitively) decoded from a line |
| JsonAccumulator.MatchingFiles | backend/json_accumulator.py:144-152 | for "all" exactly the files of the week, each once; otherwise, for a type and week free of glob wildcards and path separators, the type's file of the week if it exists, else none |
| JsonAccumulator.AllReadsEveryCategory | backend/json_accumulator.py:27-28 | for "all", each category file of the week is read |
| JsonAccumulator.WeekOfFileName | backend/json_accumulator.py:183-184 | the listed week drops the year: the last "_" piece without ".jsonl" |
| JsonAccumulator.WeekOfFileNameExample | backend/json_accumulator.py:184 | "unified_info_logs_2025_W27.jsonl" is listed as "W27" |
| JsonAccumulator.AvailableWeeks | backend/json_accumulator.py:178-186 | sorted, no repeats, and a week is listed iff some unified file carries it |
| JsonAccumulator.HarvestLines | backend/json_accumulator.py:119-128 | the fingerprints of one file's records; a line decoding to JSON other than an object stops the scan at that line |
| JsonAccumulator.ScanHashes | backend/json_accumulator.py:111-133 | never more than the disk's fingerprints, and all of them when no line stops the scan |
| JsonAccumulator.Accumulator.constructor | backend/json_accumulator.py:9-17 | the week of today and the fingerprints already on disk (all of them unless the scan stopped) |
| JsonAccumulator.Accumulator.LoadExistingHashes | backend/json_accumulator.py:111-133 | adds the disk's fingerprints (those found before a stop) and nothing else |
| JsonAccumulator.Accumulator.AppendToFile | backend/json_accumulator.py:44-68 | the store after one append, as `AppendEntry` describes it |
| JsonAccumulator.Accumulator.AddLog | backend/json_accumulator.py:70-109 | the store after `add_log`, as `AddEntry` describes it |
| JsonAccumulator.Accumulator.GetLogs | backend/json_accumulator.py:135-176 | the records of the matching files in order, filtered by level |
| JsonAccumulator.Accumulator.ReadFile | backend/json_accumulator.py:155-167 | one file's kept records, in line order |
| JsonAccumulator.Accumulator.GetAvailableWeeks | backend/json_accumulator.py:178-186 | the sorted distinct weeks of the unified files |
| LogQueue.TakeBatch | backend/log_queue.py:47-58 | a batch is a prefix of the queue of at most ten entries, the whole queue when fewer are waiting |
| LogQueue.CountDisjoint | backend/log_queue.py:129-133 | counts by mutually exclusive criteria add up to at most the number of logs |
| LogQueue.CountMonotone | backend/log_queue.py:144-146 | a weaker criterion counts at least as many logs (the last-24-hours count is at least the last-hour count) |
| LogQueue.StatsBounds | backend/log_queue.py:127-148 | the total is the number of logs and every per-type, per-source, per-level and time count is bounded by it |
| LogQueue.StatsNeedRecords | backend/log_queue.py:130-146 | a stored value that is not a JSON object makes the statistics fail (`.get` raises), so no stats are sent |
| LogQueue.EmitOntoAppends | backend/log_queue.py:93-158 | emitting only appends to what was already sent |
| LogQueue.EmissionsStart | backend/log_queue.py:96-109 | the first two emissions are "new_log" and "new_<log_type>_log" (type defaulting to "info"), and every non-stats emission carries the log |
| LogQueue.EmissionsAlert | backend/log_queue.py:97-114 | "error_detected" is sent iff the level (default "info") lower-cased is "error", "warning" or "warn" |
| LogQueue.EmissionsStats | backend/log_queue.py:116-158 | "stats_update" is sent iff the level is a string and the statistics can be computed, and then it is the last emission |
| LogQueue.NewLogCountAppend | backend/log_queue.py:103 | the "new_log" count of two emission runs is the sum of their counts |
| LogQueue.EmissionsOneNewLog | backend/log_queue.py:103 | each emitted log goes to "new_log" exactly once |
| LogQueue.NoNewLog | backend/log_queue.py:103 | a run without "new_log" emissions counts zero |
| LogQueue.DrainCounts | backend/log_queue.py:67-86 | the processed count grows by the number of entries that parse, at most the batch size, and so does the number of "new_log" emissions |
| LogQueue.DuplicateBroadcast | backend/log_queue.py:72-77 | a parsed entry already stored leaves the store as it was but is still broadcast on "new_log" |
| LogQueue.Queue.constructor | backend/log_queue.py:9-17 | an empty queue, nothing emitted, not running |
| LogQueue.Queue.Start | backend/log_queue.py:19-25 | the queue runs afterwards; pending and emitted entries are kept |
| LogQueue.Queue.Stop | backend/log_queue.py:27-32 | the queue no longer runs; pending and emitted entries are kept |
| LogQueue.Queue.Add | backend/log_queue.py:34-40 | the entry is appended at the back of the queue |
| LogQueue.Queue.ProcessBatch | backend/log_queue.py:42-91 | a stopped queue does nothing; a running one takes the front batch and leaves store, emissions and count as `Drain` of that batch |
| LogQueue.Queue.TakeFront | backend/log_queue.py:47-58 | removes exactly the front batch from the queue |
| LogQueue.Queue.HandleEntry | backend/log_queue.py:69-84 | one entry's effect on store, emissions and count, as `Handle` describes it |
| LogQueue.Queue.EmitLog | backend/log_queue.py:93-158 | appends the emissions for the log computed over all logs of the current week |
| LogQueue.Queue.ReadAllLogs | backend/log_queue.py:117-121 | the logs of the info, error and request files of the week, in that order |
| LogMonitor.Entries | backend/log_monitor.py:52-57 | one queue entry per line, in order, each carrying the file path and the line |
| LogMonitor.EntriesAppend | backend/log_monitor.py:49-57 | the entries of two runs of lines are the entries of each, one after the other |
| LogMonitor.Unread | backend/log_monitor.py:33-47 | the text after the cursor; the whole file when it shrank below the cursor (rotation); empty exactly when the cursor is at the end or the file is empty |
| LogMonitor.TailRepeat | backend/log_monitor.py:26-61 | new entries are stripped non-empty lines of the file; a second read right after the first finds nothing and moves no cursor |
| LogMonitor.TailAfterGrowth | backend/log_monitor.py:33-61 | when a file read up to a line end grows, the lines read before plus the new entries are the lines of the whole file |
| LogMonitor.TailAfterRotation | backend/log_monitor.py:35-38 | a file shorter than its cursor is read again from the start, and the cursor moves to its end |
| LogMonitor.StartState | backend/log_monitor.py:125-166 | after the start-up read, a path is marked read iff it was marked before or it is a walked ".log" file that exists; each such file's cursor is at its end; other cursors stay |
| LogMonitor.StartEnqueues | backend/log_monitor.py:127-166 | the start-up read enqueues the lines of the walked ".log" files, in walk order |
| LogMonitor.StartUpToDate | backend/log_monitor.py:143-145 | a file read at start-up yields nothing new until it changes |
| LogMonitor.FileHandler.constructor | backend/log_monitor.py:8-11 | no cursors and no file marked as read |
| LogMonitor.FileHandler.OnModified | backend/log_monitor.py:13-24 | acts iff the event is for a ".log" file (not a directory) whose start-up read is complete; it then reads the new lines, and otherwise changes nothing |
| LogMonitor.FileHandler.ReadNewLines | backend/log_monitor.py:26-66 | enqueues exactly the new entries after the file's cursor and advances the cursor as `Advance` says |
| LogMonitor.FileHandler.ReadWhole | backend/log_monitor.py:127-150 | reads a whole file at start-up: enqueues its lines, sets the cursor to the end and marks it read; a missing file changes nothing |
| LogMonitor.FileHandler.EnqueueLines | backend/log_monitor.py:49-57 | appends the entries of the lines to the queue, in order |
| LogMonitor.Monitor.constructor | backend/log_monitor.py:69-73 | not running, with a fresh handler on the queue |
| LogMonitor.Monitor.Start | backend/log_monitor.py:84-103 | running afterwards; a monitor already running changes nothing, otherwise the existing files are read first |
| LogMonitor.Monitor.Stop | backend/log_monitor.py:110-120 | not running afterwards |
| LogMonitor.Monitor.ReadExistingFiles | backend/log_monitor.py:125-168 | the handler state after the start-up read of the walked files, as `StartRead` describes it |
| CsvManager.PreparedIdempotent | backend/csv_manager.py:60-72 | preparing keeps the keys, makes every value a string, leaves strings alone, and preparing twice is preparing once |
| CsvManager.PrepareForCsv | backend/csv_manager.py:60-72 | the record with objects and lists serialised, None as "" and other values as `str` |
| CsvManager.ErrorLevelsAgree | backend/csv_manager.py:136 | the export's error levels are the levels `get_error_logs` selects and the levels of the error-record test |
| CsvManager.JsonlTargets | backend/csv_manager.py:116-147 | "all_logs.jsonl" first; without a "source" nothing else (the lookup raises); otherwise three files, the source's second and the day's last, plus "error_logs.jsonl" third iff the prepared level is an error level |
| CsvManager.Occurrences | backend/csv_manager.py:116-147 | a file is named at most once per target |
| CsvManager.AppendAllEffect | backend/csv_manager.py:154-161 | each file gains one copy of the line per time it is a target, and nothing else changes |
| CsvManager.OccurrencesAbsent | backend/csv_manager.py:116-147 | a file that is not a target is not appended to |
| CsvManager.AddLogTargets | backend/csv_manager.py:74-83 | the prepared record has the same targets as the original, and "error_logs.jsonl" gains the record once iff its level is an error level (unless the source is itself named "error") |
| CsvManager.ErrorTargetOccurrences | backend/csv_manager.py:116-147 | when the source is not itself named "error", "error_logs.jsonl" is among the targets exactly once for an error level and not at all otherwise |
| CsvManager.QueryTextPlaceholders | backend/csv_manager.py:194-209 | the query has one `?` per active filter plus one for the limit |
| CsvManager.QueryParamsShape | backend/csv_manager.py:195-210 | one parameter per active filter, the limit last |
| CsvManager.QueryPlaceholders | backend/csv_manager.py:194-212 | the query's placeholders and its parameters agree in number, the limit filling the last |
| CsvManager.LogsQuery | backend/csv_manager.py:188-212 | the query text and parameters of `get_logs` for the given filters |
| Api.SliceBound | backend/app.py:62 | a Python slice bound: kept within the list, counted from the end when negative |
| Api.PySlice | backend/app.py:62 | a slice is never longer than the list |
| Api.PaginateRange | backend/app.py:58-62 | page `p` of size `n` is the logs from `(p-1)*n` to `p*n`, cut at the end, so never more than `n` |
| Api.PagesPrefix | backend/app.py:58-62 | the first `k` pages, one after the other, are the first `k*n` logs |
| Api.FloorDiv | backend/app.py:322 | `//` rounds toward negative infinity |
| Api.PerPage | backend/app.py:295 | the page size is at most 100, the requested one when that is not larger |
| Api.TotalPagesCeiling | backend/app.py:322 | a page size of 0 raises; otherwise the page count is the least `n` with `n * per_page >= total` |
| Api.PagesCoverAll | backend/app.py:315-322 | the reported number of pages, read one after the other, gives back every filtered log |
| Api.Where | backend/app.py:69-85 | a filter never lengthens the list |
| Api.WhereMembers | backend/app.py:69-85 | a log is kept iff it is in the list and passes |
| Api.WhereSubsequence | backend/app.py:69-85 | filtering keeps the order of the logs |
| Api.WhereWhere | backend/app.py:66-85 | two filters in a row are one filter by both tests |
| Api.WhereAll | backend/app.py:69-85 | a filter every log passes changes nothing |
| Api.Keep | backend/app.py:69-85 | a filter stage raises iff its test raises on some log, and otherwise keeps exactly the passing logs |
| Api.FilterNothing | backend/app.py:68-74 | with no source, level or search term the logs come back unchanged |
| Api.WhereSame | backend/app.py:69-85 | filters that agree on every log keep the same logs |
| Api.Stage | backend/app.py:68-85 | a stage that is switched off keeps everything; one switched on keeps what its test accepts |
| Api.FilterLogsStages | backend/app.py:64-85 | the result is the source, then level, then search stage |
| Api.FilterLogsSpec | backend/app.py:64-101 | the result is the logs that pass every filter, in their original order |
| Api.SourceFilterNeedsDicts | backend/app.py:68-69 | with a source filter, a log that is not a dict raises |
| Api.SearchTermMustBeString | backend/app.py:74-75 | a search term that is not a string raises (`.lower()`) |
| Api.InsertDesc | backend/app.py:312 | inserting adds exactly the one log |
| Api.SortDesc | backend/app.py:312 | the sorted logs are a permutation of the logs |
| Api.InsertDescSorted | backend/app.py:312 | inserting into a newest-first list keeps it newest first |
| Api.SortDescSorted | backend/app.py:312 | the sorted logs are newest first |
| Api.InsertDescStable | backend/app.py:312 | inserting keeps the order of the logs sharing a timestamp |
| Api.SortDescStable | backend/app.py:312 | the sort is stable: logs with equal timestamps keep their original order |
| Api.GetLogsSpec | backend/app.py:280-325 | the page is the requested run of the filtered logs sorted newest first; `per_page` is clamped to 100, `total` counts all filtered logs, and the page is no longer than `per_page` |
| Api.GetLogsZeroPerPage | backend/app.py:322-327 | a page size of 0 ends in the error reply |
| Api.TallyCounts | backend/app.py:476 | the tally has exactly the keys seen, each with the number of times it was seen |
| Api.MapSumPick | backend/app.py:476 | a tally's sum is one key's count plus the rest |
| Api.TallySum | backend/app.py:476 | the counts of a tally add up to the number of logs |
| Api.CountsOfSum | backend/app.py:524-527 | listing distinct names with their counts keeps the total |
| Api.CountsOfSame | backend/app.py:524-527 | listings from tallies that agree on the names are equal |
| Api.CountsOfItems | backend/app.py:524-527 | one `{name, count}` item per name, in order |
| Api.SortedCountsItems | backend/app.py:524-551 | each item is a tallied name with its count, the names strictly increasing |
| Api.SortedCountsCover | backend/app.py:524-551 | every tallied name is listed |
| Api.SortedCountsTotal | backend/app.py:524-551 | the listed counts add up to the tally's total |
| Api.SortedCountsSpec | backend/app.py:524-551 | `sorted(d.items())`: every key once, with its count, in increasing order, nothing lost |
| Api.ReportCounts | backend/app.py:518-551 | the report of a list of names: each distinct name once, sorted, with the number of times it occurs, the counts adding up to the list's length |
| Api.Project | backend/app.py:475 | one key per log |
| Api.WhereSnoc | backend/app.py:452-453 | filtering a list with one more log at the end adds that log iff it passes |
| Api.BucketClass | backend/app.py:479-487 | a status code bumps the bucket of its leading digit 2 to 5, and no bucket otherwise |
| Api.BucketsCount | backend/app.py:473-487 | each bucket counts the logs whose status text starts with its digit |
| Api.TallyStep | backend/app.py:475-476 | one more log bumps its method's count |
| Api.StatsStep | backend/app.py:473-487 | one more log keeps the methods hashable iff its method is, and bumps its status bucket |
| Api.CountStatus | backend/app.py:479-487 | the buckets after counting one status code |
| Api.GetRequestStats | backend/app.py:442-506 | the request statistics of the logs, or the error reply |
| Api.CountRequests | backend/app.py:473-487 | the per-method tally and the status buckets, or a raise when a method cannot be a dict key |
| Api.ClassPartition | backend/app.py:480-487 | every log is in exactly one status bucket or in none |
| Api.WhereLength | backend/app.py:452-453 | the count of passing logs, split at the first log |
| Api.DisjointCounts | backend/app.py:452-453 | logs counted under two exclusive sources number at most the total |
| Api.BucketsPartition | backend/app.py:456-487 | the four buckets plus the unclassified logs are all the logs |
| Api.RequestStatsSpec | backend/app.py:442-506 | the method counts add up to the total, list exactly the methods seen with their counts; the status buckets plus the logs without a 2-5 status are all the logs; node and python counts together do not exceed the total |
| Api.SourcesCountableStep | backend/app.py:519-521 | one more log stays countable iff it is a dict with a string source |
| Api.GetSources | backend/app.py:509-530 | the sources reply for the logs |
| Api.SourcesSpec | backend/app.py:509-530 | the source counts are sorted by name, each name once, each the number of logs with that source, adding up to the number of logs |
| Api.LevelsCountableStep | backend/app.py:543-545 | one more log stays countable iff it is a dict with a string level |
| Api.GetLevels | backend/app.py:533-554 | the levels reply for the logs |
| Api.LevelsSpec | backend/app.py:533-554 | the level counts are sorted by name, lower-case, each the number of logs with that level, adding up to the number of logs |
| Api.LevelKeysLower | backend/app.py:544 | every level key is lower-case |
| NodeParser.MatchBasic | log_monitoring_system/parsers/node_parser.py:27-56 | a match cuts the line into a timestamp of the `\d{4}-\d{2}-\d{2} \d{2}:\d{2}:\d{2}` shape, a word level and a non-empty message that put back together give the line |
| NodeParser.MatchBasicRoundTrip | log_monitoring_system/parsers/node_parser.py:27-56 | every well-formed timestamp, level and message put together as a line is matched back into exactly those pieces |
| NodeParser.OneAtSound | log_monitoring_system/parsers/node_parser.py:30 | a one-capture pattern's match at a position is text at that position of the capture's class |
| NodeParser.TwoAtSound | log_monitoring_system/parsers/node_parser.py:31-42 | a two-capture pattern's match is its two captures, of their classes, around the separator at that position |
| NodeParser.GreedyAtSound | log_monitoring_system/parsers/node_parser.py:36-37 | a pattern opening with `(.+)` matches its captures and separator at that position |
| NodeParser.GreedyTail | log_monitoring_system/parsers/node_parser.py:36-37 | a separator found inside the line with a capture after it gives a match of `(.+)` up to it |
| NodeParser.GreedyPieces | log_monitoring_system/parsers/node_parser.py:36-37 | the pieces of a `(.+)` match fit their classes and sit where they were found |
| NodeParser.ShapeAtSound | log_monitoring_system/parsers/node_parser.py:30-42 | any pattern's match at a position fits its shape and is the pattern's text at that position |
| NodeParser.OneAtExact | log_monitoring_system/parsers/node_parser.py:30 | a maximal run of the capture's class is what the one-capture pattern captures |
| NodeParser.TwoAtExact | log_monitoring_system/parsers/node_parser.py:31-42 | text made of two fitting captures around the separator is matched back into exactly those captures |
| NodeParser.GreedyAtExact | log_monitoring_system/parsers/node_parser.py:36-37 | a line ending in such a text is matched back into exactly its captures |
| NodeParser.GreedyAtIs | log_monitoring_system/parsers/node_parser.py:36-37 | `(.+)` backtracks to the last place on the line where the separator and the second capture follow |
| NodeParser.RestOfLine | log_monitoring_system/parsers/node_parser.py:36-37 | `.` runs to the end of a line without line breaks |
| NodeParser.GreedyLast | log_monitoring_system/parsers/node_parser.py:36-37 | at the end of the text, the separator with its capture is the last place it follows |
| NodeParser.ShapeAtRoundTrip | log_monitoring_system/parsers/node_parser.py:30-42 | a message made of any pattern's fitting captures (and a closing suffix) is matched back into them at its start |
| NodeParser.PatternsWellShaped | log_monitoring_system/parsers/node_parser.py:30-42 | each of the eight message patterns has separators starting outside the class of the capture before them |
| NodeParser.SearchFromSpec | log_monitoring_system/parsers/node_parser.py:79-130 | `search` from a position finds nothing iff no position at or after it matches, and otherwise the first that does |
| NodeParser.SearchSpec | log_monitoring_system/parsers/node_parser.py:79-130 | `search` finds the leftmost match, and none iff no position matches |
| NodeParser.SearchAtStart | log_monitoring_system/parsers/node_parser.py:79-130 | a pattern that matches at the start is found there |
| NodeParser.ExtractFromSpec | log_monitoring_system/parsers/node_parser.py:78-135 | trying the patterns from a given one on finds the first that searches successfully, or none when none does |
| NodeParser.WithInfoKeeps | log_monitoring_system/parsers/node_parser.py:75-135 | extraction never changes the timestamp, level, message, log type or source file |
| NodeParser.ExtractSpecificInfo | log_monitoring_system/parsers/node_parser.py:75-135 | the entry with the fields of the first matching pattern filled in |
| NodeParser.ExtractLaterInfo | log_monitoring_system/parsers/node_parser.py:108-135 | the entry with the fields of the first matching pattern from the JWT error on |
| NodeParser.ExtractSkip | log_monitoring_system/parsers/node_parser.py:78-135 | a pattern that does not match passes the message on to the next |
| NodeParser.ExtractionFirstMatch | log_monitoring_system/parsers/node_parser.py:78-135 | the first pattern in order that matches wins, none matching leaves the entry as it was, and the winning captures are that pattern's search result |
| NodeParser.SearchFits | log_monitoring_system/parsers/node_parser.py:79-130 | what `search` finds fits the pattern's shape |
| NodeParser.MatcherFits | log_monitoring_system/parsers/node_parser.py:30-42 | a matcher built from a shape only yields fitting captures |
| NodeParser.PatternSearchFits | log_monitoring_system/parsers/node_parser.py:79-130 | each pattern's search result fits its shape |
| NodeParser.ExtractedValues | log_monitoring_system/parsers/node_parser.py:75-135 | the action is set iff some pattern matched and is one of the eight actions; ids and token counts are digit strings, emails have no comma, error types are word characters |
| NodeParser.ParseLine | log_monitoring_system/parsers/node_parser.py:45-73 | the entry of one line, as `ParsedLine` describes it |
| NodeParser.ParsedLineSpec | log_monitoring_system/parsers/node_parser.py:45-73 | no entry iff the basic pattern rejects the stripped line; an entry is that line in three pieces, carries the source file, and is of type "error" iff the level is error or warn in any case |
| NodeParser.ParsedLineSource | log_monitoring_system/parsers/node_parser.py:62-68 | an entry carries the file it came from |
| NodeParser.ParsedLineRoundTrip | log_monitoring_system/parsers/node_parser.py:45-73 | a well-formed line is parsed into its pieces with the information its message carries |
| NodeParser.LineResults | log_monitoring_system/parsers/node_parser.py:143-147 | one result per line |
| NodeParser.ParsedLinesStep | log_monitoring_system/parsers/node_parser.py:143-147 | one more line adds its entry, if any, at the end |
| NodeParser.ParseFile | log_monitoring_system/parsers/node_parser.py:137-155 | the entries of the file's lines, in order; none for a file that cannot be read |
| NodeParser.ParsedLinesSpec | log_monitoring_system/parsers/node_parser.py:139-155 | at most one entry per line, and an entry is listed iff some line parses to it |
| NodeParser.ParsedLinesSource | log_monitoring_system/parsers/node_parser.py:145 | every entry of a file carries its base name |
| NodeParser.ParsedLinesAppend | log_monitoring_system/parsers/node_parser.py:143-147 | the entries of two runs of lines are those of each, one after the other |
| NodeParser.ParsedFileGrows | log_monitoring_system/parsers/node_parser.py:137-155 | a file that grows after a line break has the old entries followed by those of the added text |
| NodeParser.ToCsvFormat | log_monitoring_system/parsers/node_parser.py:157-177 | one row per entry, in order, each stamped with its own clock reading |
| NodeParser.CsvRowRoundTrip | log_monitoring_system/parsers/node_parser.py:162-174 | the row has the eleven columns in order, `parsed_at` last; an entry without empty optional fields is read back from its cells |
| NodeParser.ParsedLineNoEmptyFields | log_monitoring_system/parsers/node_parser.py:75-135 | a parsed entry never has an empty optional field, so its row reads back |
| Layout.MatchFrom | log_monitoring_system/parsers/python_parser.py:44-64 | a match yields one capture per capture group of the pattern |
| Layout.MatchSound | log_monitoring_system/parsers/python_parser.py:44-64 | a match's captures fit their classes, and the pattern rendered with them is the matched text |
| Layout.MatchExact | log_monitoring_system/parsers/python_parser.py:44-64 | text rendered from fitting captures by a separated pattern is matched back into exactly those captures |
| Layout.FieldExact | log_monitoring_system/parsers/python_parser.py:44 | in a separated pattern the first capture is the longest run of its class, so a capture never swallows the literal after it |
| Layout.RenderEndsWith | log_monitoring_system/parsers/python_parser.py:44 | a pattern ending in literal text (" ms") renders text ending in it |
| Layout.PairShape | log_monitoring_system/parsers/python_parser.py:44 | two captures each followed by literal text: separated, and their fit and rendering spelled out |
| Layout.AppendSegs | log_monitoring_system/parsers/python_parser.py:44 | a pattern made of two parts captures, fits and renders as the two parts side by side |
| Layout.SeparatedAppend | log_monitoring_system/parsers/python_parser.py:44 | joining separated parts at a literal keeps the pattern separated |
| StampFormat.FormatStampShape | log_monitoring_system/parsers/python_parser.py:75-127 | `strftime("%Y-%m-%d %H:%M:%S")` of a moment from year 1000 on has the `dddd-dd-dd dd:dd:dd` shape |
| StampFormat.DigitCharValue | log_monitoring_system/parsers/python_parser.py:75 | a printed digit reads back as its value |
| StampFormat.NatToStringValue | log_monitoring_system/parsers/python_parser.py:75 | a printed number reads back as itself |
| StampFormat.YearDigits | log_monitoring_system/parsers/python_parser.py:74-75 | a year from 1000 to 9999 prints as four digits |
| StampFormat.Pad2Value | log_monitoring_system/parsers/python_parser.py:75 | a zero-padded two-digit field reads back as its value |
| StampFormat.SplitBy | log_monitoring_system/parsers/python_parser.py:74 | splitting at the format's separators gives one piece more than there are separators |
| StampFormat.SplitJoined | log_monitoring_system/parsers/python_parser.py:74 | pieces joined by separators they do not contain are split back into those pieces |
| StampFormat.SplitStep | log_monitoring_system/parsers/python_parser.py:74 | splitting takes the text up to the first separator as the first piece |
| StampFormat.MonthFrom | log_monitoring_system/parsers/python_parser.py:74 | a month number found from a point on is after it, and its abbreviation is the text in lower case |
| StampFormat.MonthOf | log_monitoring_system/parsers/python_parser.py:74 | `%b` reads a month 1 to 12 whose abbreviation is the text, in any case |
| StampFormat.MonthFromFinds | log_monitoring_system/parsers/python_parser.py:74 | every month abbreviation, in any case, is read as its month |
| StampFormat.SmallNumber | log_monitoring_system/parsers/python_parser.py:74 | `%H`, `%M`, `%S` read a value no larger than their maximum |
| StampFormat.DayNumber | log_monitoring_system/parsers/python_parser.py:74 | `%d` reads a day from 1 to 31 |
| StampFormat.MonthTextPlain | log_monitoring_system/parsers/python_parser.py:74 | a month abbreviation contains no "/" |
| StampFormat.ApachePieces | log_monitoring_system/parsers/python_parser.py:71-74 | an Apache time stamp splits into day, month, year, hour, minute and second |
| StampFormat.DayValue | log_monitoring_system/parsers/python_parser.py:74 | a printed day reads back as itself |
| StampFormat.ClockValue | log_monitoring_system/parsers/python_parser.py:74 | a printed hour, minute or second reads back as itself |
| StampFormat.YearValue | log_monitoring_system/parsers/python_parser.py:74 | a four-digit year reads back as itself |
| StampFormat.ApacheStampRoundTrip | log_monitoring_system/parsers/python_parser.py:70-77 | an Apache time stamp of a valid moment (month in any case) is read as that moment and converted to `YYYY-MM-DD HH:MM:SS` |
| PythonParser.AccessPartsShape | log_monitoring_system/parsers/python_parser.py:44 | each two-capture part of the access pattern is separated |
| PythonParser.AccessLayoutShape | log_monitoring_system/parsers/python_parser.py:44 | the access pattern has ten captures (the request's URL and version read apart) and no capture can swallow the literal after it |
| PythonParser.Grouped | log_monitoring_system/parsers/python_parser.py:44-68 | the captures in the pattern's order, ten of them |
| PythonParser.AccessPieces | log_monitoring_system/parsers/python_parser.py:44 | the pattern's fit and rendering are those of its five parts |
| PythonParser.AccessFits | log_monitoring_system/parsers/python_parser.py:44 | each capture fits iff it is a (non-empty where `+`) run of its class: non-space, not `]`, word, not `"`, digits, digits and dots |
| PythonParser.AccessRender | log_monitoring_system/parsers/python_parser.py:44 | the text the pattern describes, literal by literal |
| PythonParser.SplitRequestSound | log_monitoring_system/parsers/python_parser.py:44 | the request text splits at the last " HTTP/" followed by a version up to the quote, or nowhere when no such place exists |
| PythonParser.SplitRequestRoundTrip | log_monitoring_system/parsers/python_parser.py:44 | a URL and a plain version put together are split back into them |
| PythonParser.CapsOf | log_monitoring_system/parsers/python_parser.py:68 | a match has ten captures in the layout |
| PythonParser.RequestQuoteFree | log_monitoring_system/parsers/python_parser.py:44 | the request text has no quote iff neither URL nor version has one |
| PythonParser.MatchAccessSound | log_monitoring_system/parsers/python_parser.py:44-68 | a match is a well-formed access line's pieces, and rendering them gives the line |
| PythonParser.MatchAccessRoundTrip | log_monitoring_system/parsers/python_parser.py:44-68 | every well-formed access line is matched back into exactly its pieces |
| PythonParser.AccessLineSound | log_monitoring_system/parsers/python_parser.py:58-101 | an access entry comes from a well-formed stripped line and carries its pieces as the code fills them |
| PythonParser.AccessLineRoundTrip | log_monitoring_system/parsers/python_parser.py:58-101 | a well-formed line is parsed into the entry built from its pieces: level INFO, message "METHOD URL - STATUS", a user id only when it is all digits, no referer for "-" |
| PythonParser.CategoriesDistinct | log_monitoring_system/parsers/python_parser.py:48-56 | the seven keywords differ and no category is "GENERAL_ERROR" |
| PythonParser.CategoryFromSpec | log_monitoring_system/parsers/python_parser.py:159-167 | scanning the table from a row on gives the category of the first keyword found, and "GENERAL_ERROR" iff none is |
| PythonParser.CategoryFromRange | log_monitoring_system/parsers/python_parser.py:159-167 | the result is "GENERAL_ERROR" or a category of the table |
| PythonParser.CategorizeErrorSpec | log_monitoring_system/parsers/python_parser.py:48-56 | a message gets the category of the first keyword (in table order) its lower-case text contains, "GENERAL_ERROR" iff it contains none |
| PythonParser.ErrorLinePlain | log_monitoring_system/parsers/python_parser.py:103-119 | no entry iff the stripped line is blank; a line that is not JSON is an ERROR entry with the line as message, stamped now |
| PythonParser.ErrorLineRaises | log_monitoring_system/parsers/python_parser.py:109-135 | the line raises iff it is JSON but not an object, its message is not a string, or its timestamp is truthy but not a string |
| PythonParser.ErrorLineJson | log_monitoring_system/parsers/python_parser.py:121-157 | a JSON object line gives an error entry with its message, its level or "ERROR", `str` of its user id when present, and its category |
| PythonParser.ErrorTimestampSpec | log_monitoring_system/parsers/python_parser.py:121-131 | a falsy timestamp becomes now; a string is read as ISO (after "Z" becomes "+00:00") and reformatted, or kept as written when that fails; anything else raises |
| PythonParser.ParseLineSpec | log_monitoring_system/parsers/python_parser.py:169-176 | another log type gives no entry, access lines never raise, and an entry carries the log type and source file |
| PythonParser.LineResults | log_monitoring_system/parsers/python_parser.py:184-191 | one result per line |
| PythonParser.ParsedLinesStep | log_monitoring_system/parsers/python_parser.py:184-191 | one more line adds its entry, if any, at the end; a line that raises is skipped |
| PythonParser.ParseFile | log_monitoring_system/parsers/python_parser.py:178-196 | the entries of the file's lines, in order; none for a file that cannot be read |
| PythonParser.ParsedLinesSpec | log_monitoring_system/parsers/python_parser.py:178-196 | at most one entry per line; an entry is listed iff some line parses to it; every entry has the file's log type and base name; another log type gives none |
| PythonParser.ToCsvFormat | log_monitoring_system/parsers/python_parser.py:198-224 | one row per entry, in order, each stamped with its own clock reading |
| PythonParser.CsvRowRoundTrip | log_monitoring_system/parsers/python_parser.py:203-221 | the row has the seventeen columns in order, `parsed_at` last; an entry without empty optional fields is read back from its cells, except the five fields the row leaves out |
| LogStreamer.MatchPatternGlob | log_monitoring_system/streaming/log_streamer.py:144-148 | a name matches `prefix*suffix` iff it begins with the prefix and ends with the suffix; when it is long enough for both, iff it is the prefix, some middle and the suffix |
| LogStreamer.MatchPatternSplit | log_monitoring_system/streaming/log_streamer.py:146-148 | the split at the first `*` tests `startswith` and `endswith` |
| LogStreamer.MatchPatternOverlap | log_monitoring_system/streaming/log_streamer.py:146-148 | prefix and suffix may overlap: "a" matches "a*a" |
| LogStreamer.ExactPattern | log_monitoring_system/streaming/log_streamer.py:149 | a pattern without `*` matches exactly its own name |
| LogStreamer.AnyPatternSpec | log_monitoring_system/streaming/log_streamer.py:139-141 | a name matches a list of patterns iff it matches one of them |
| LogStreamer.AnyLogTypeSpec | log_monitoring_system/streaming/log_streamer.py:138-142 | a name is watched iff some log type has a pattern it matches |
| LogStreamer.ShouldMonitorFileSpec | log_monitoring_system/streaming/log_streamer.py:134-142 | a path is watched iff its base name matches some pattern of some log type |
| LogStreamer.AnyPatternOne | log_monitoring_system/streaming/log_streamer.py:139-141 | one pattern: the name matches it |
| LogStreamer.AnyPatternThree | log_monitoring_system/streaming/log_streamer.py:139-141 | three patterns: the name matches one of them |
| LogStreamer.AnyLogTypeFour | log_monitoring_system/streaming/log_streamer.py:138-142 | four log types: the name matches a pattern of one of them |
| LogStreamer.PlainDefaults | log_monitoring_system/streaming/log_streamer.py:73-74 | the default Python patterns match only their own names |
| LogStreamer.GlobDefaults | log_monitoring_system/streaming/log_streamer.py:71-72 | "access-*.log" and "error-*.log" match the names with that start and ".log" at the end |
| LogStreamer.DefaultMonitored | log_monitoring_system/streaming/log_streamer.py:70-75 | with the default patterns a path is watched iff its name is access-….log, error-….log or one of the four velocity logs |
| LogStreamer.GetLogTypeSpec | log_monitoring_system/streaming/log_streamer.py:151-170 | node_access iff the lower-cased path has "node_backend_logs" and "access"; node_error iff it has "error" instead; python_access iff (not node and) it has "python_backend_logs" and the base name, as written, has "access"; python_error for other such paths; a type found is a configured one |
| LogStreamer.PythonLogType | log_monitoring_system/streaming/log_streamer.py:164-168 | under the Python directory the type depends only on "access" in the base name |
| LogStreamer.NoAccess | log_monitoring_system/streaming/log_streamer.py:165 | a name without "ac" in it does not contain "access" |
| LogStreamer.PythonFileTypes | log_monitoring_system/streaming/log_streamer.py:73-74 | of the four velocity logs only velocity_access.log is python_access; the others are python_error |
| LogStreamer.VelocityNames | log_monitoring_system/streaming/log_streamer.py:73-74 | of the four velocity names only velocity_access.log contains "access" |
| LogStreamer.NodeFields | log_monitoring_system/streaming/log_streamer.py:211-212 | a Node CSV row is carried over column by column |
| LogStreamer.LookupMissing | log_monitoring_system/streaming/log_streamer.py:253 | `entry.get(header, '')` gives the default for a missing key |
| LogStreamer.LookupLast | log_monitoring_system/streaming/log_streamer.py:253 | a key present gives its value |
| LogStreamer.Projection | log_monitoring_system/streaming/log_streamer.py:251-253 | one cell per header |
| LogStreamer.ProjectionSpec | log_monitoring_system/streaming/log_streamer.py:247-254 | the row has exactly the file's headers, in order; a header the entry lacks is "", and one it has holds that value's text |
| LogStreamer.ProjectionOwnHeaders | log_monitoring_system/streaming/log_streamer.py:247-254 | with the entry's own keys as headers the row is the entry |
| LogStreamer.Projections | log_monitoring_system/streaming/log_streamer.py:249-254 | one row per entry, in order |
| LogStreamer.RoutedSpec | log_monitoring_system/streaming/log_streamer.py:229-237 | the rows go once to the log type's file and once to the combined file when they are configured, and no other file changes |
| LogStreamer.ParserLogType | log_monitoring_system/streaming/log_streamer.py:215 | the parser is asked for "access" iff the log type contains "access", else for "error" |
| LogStreamer.LineFieldsAll | log_monitoring_system/streaming/log_streamer.py:206-223 | one result per line |
| LogStreamer.NewFieldsStep | log_monitoring_system/streaming/log_streamer.py:206-223 | one more line adds its row, if any, at the end |
| LogStreamer.NewFieldsSpec | log_monitoring_system/streaming/log_streamer.py:201-223 | at most one row per line, and a row is produced iff some line parses to it |
| LogStreamer.NewFieldsKeys | log_monitoring_system/streaming/log_streamer.py:208-219 | node types give rows with the Node columns, python types rows with the Python columns, any other type no rows |
| LogStreamer.LineFieldsKeys | log_monitoring_system/streaming/log_streamer.py:208-219 | one line's row has the columns of its parser |
| LogStreamer.NodeKeys | log_monitoring_system/streaming/log_streamer.py:211 | a carried-over Node row keeps the Node columns |
| LogStreamer.Unread | log_monitoring_system/streaming/log_streamer.py:184-190 | the text after the position; nothing when the file is shorter than the position |
| LogStreamer.EndPosition | log_monitoring_system/streaming/log_streamer.py:193 | the position after a read is the end of the file, or the old position when that is past the end |
| LogStreamer.InitialPositionsSpec | log_monitoring_system/streaming/log_streamer.py:290-307 | every walked, watched file that exists gets its length as position; all other positions stay |
| LogStreamer.NoReplay | log_monitoring_system/streaming/log_streamer.py:290-307 | after start-up, a file that grows is read for exactly the added lines, never its old content |
| LogStreamer.TailSpec | log_monitoring_system/streaming/log_streamer.py:179-193 | lines read before plus the new lines are the lines of the whole file, and reading again at once finds nothing |
| LogStreamer.AfterChangeReachesEnd | log_monitoring_system/streaming/log_streamer.py:184-196 | processing a change to a readable file of a log type leaves its position at or past the end of the file, and never before the old position |
| LogStreamer.AfterChangeAtEnd | log_monitoring_system/streaming/log_streamer.py:172-196 | a change notification for a file already read to its end appends no row and leaves the position where it is, so a second notification for an unchanged file changes nothing |
| LogStreamer.ReadToEnd | log_monitoring_system/streaming/log_streamer.py:184-196 | a position at or past the end reads no entries |
| LogStreamer.Streamer.constructor | log_monitoring_system/streaming/log_streamer.py:37-52 | no positions and every configured CSV file empty |
| LogStreamer.Streamer.AppendToFile | log_monitoring_system/streaming/log_streamer.py:239-257 | the named file grows by the entries' rows, in order; positions stay |
| LogStreamer.Streamer.ProjectRow | log_monitoring_system/streaming/log_streamer.py:251-253 | the row of one entry for the headers |
| LogStreamer.Streamer.AppendToCsv | log_monitoring_system/streaming/log_streamer.py:229-237 | the files after routing the rows |
| LogStreamer.Streamer.ProcessNewLines | log_monitoring_system/streaming/log_streamer.py:201-227 | the parsed rows of the lines are routed when there are any; otherwise nothing changes |
| LogStreamer.Streamer.ProcessFileChanges | log_monitoring_system/streaming/log_streamer.py:172-199 | positions and files after the change, as `AfterChange` describes it |
| LogStreamer.Streamer.InitializeFilePositions | log_monitoring_system/streaming/log_streamer.py:290-307 | the positions after start-up, as `InitialPositions` describes them; no file is written |
| LogStreamer.Streamer.OnModified | log_monitoring_system/streaming/log_streamer.py:26-32 | a directory or an unwatched file changes nothing; any other file is processed as `AfterChange` says |

## Left out

- JSON, numbers and dates: `json.loads`, `json.dumps`, `float()` and `datetime.fromisoformat` are parameters (`Decoder`, `Encoder`, `FloatParser`, `Instant`/`IsoReader`). Their behaviour is not modelled. Where a property needs it, the lemma assumes that decoding what was encoded gives the value back.
- Clocks: `datetime.now()` and `time.time()` are parameters, given as integer seconds. A comparison that would raise between naive and aware datetimes is not modelled.
- JsonAccumulator.Fingerprint: keeps the joined text that `md5` is applied to, not the digest. Hash collisions are therefore not modelled.
- Text rendering: `str()` of a dict is rendered with its keys in order, and the escapes of `repr` are not modelled.
- Character classes: `\d`, `\w` (and so `\b`), `isdigit` and `lower` are modelled on ASCII characters only. `\s`, `isspace` and `strip` use the whitespace set of `str.isspace`. Unicode case folding of the `re.IGNORECASE` month match is not modelled.
- StampFormat.FormatStamp: prints `%Y` without padding, as the C library on Linux does. Platforms whose `strftime` pads the year to four digits print years before 1000 differently. The `YYYY-MM-DD HH:MM:SS` layout is proved for years from 1000 on only.
- Line splitting: lines are split on `\n` and `\r`. Other universal-newline separators are not modelled. A `$` that matches before a final newline does not matter, because lines are stripped first.
- The `payment_error` pattern of the Node parser is compiled but never used, so it has no counterpart.
- Concurrency: threads, locks, the watchdog `Observer` and its event delivery are not modelled. Each handler call is one atomic step.
- LogQueue.TakeBatch: always takes `min(10, len(queue))` records. The 0.1 s `batch_timeout`, which can end a batch earlier, is not modelled.
- File positions are offsets into the content as characters. Byte offsets and the cookies of `tell()` are not modelled.
- The order of `os.walk` results is taken as a given sequence.
- JsonAccumulator.MatchingFiles: takes `type` and `week` as literal parts of a file name. The code passes them into a `glob.glob` pattern, where `*`, `?` and `[...]` are wildcards and `/` or `..` lead out of the directory. So a request such as type "*" reads other files there, and the model reads none.
- JsonAccumulator.MatchingFiles: for "all" the week's files are read in name order. `glob.glob` returns them in directory order, which is not modelled. This changes the order of the logs `get_logs` returns, not which logs they are.
- I/O errors other than a missing file are not modelled.
- Transport: Flask routing and Socket.IO are not modelled. Emissions are appended to a list.
- SQLite: only the query text and the parameters are modelled. `add_to_database`, `get_statistics` and the execution of the queries are not modelled. The failures that `get_logs` and `get_error_logs` swallow are modelled as their `[]` result.
- Export: the xlsx and pandas export, `save_to_csv` and `get_summary_stats` are not modelled.
- Streamer set-up: `load_config` is modelled only through its default patterns. The creation of the CSV files and their headers (`setup_csv_files`, including the combined headers built from `list(set(...))`) and the creation of directories are not modelled.
- Streamer lifecycle: `start_monitoring`, `stop_monitoring` and `process_existing_files` drive the observer and sleep, and are not modelled. What they do per file is modelled by the file handlers.
- Api.FilterLogs: the `start_time` and `end_time` filters are left out. They compare `fromisoformat` results, which are parameters here.
- Api.SortByTimestamp: raises whenever two or more logs are sorted and some timestamp is not a string. Python raises only when such a timestamp is actually compared with a string.
- Api.SourcesOf: a source that is not a string is taken to raise.
- Api.CountRequests: `1`, `1.0` and `True` are counted under separate keys, whereas Python's dict would merge them.
- Api.GetRequestStats: the floating-point `avg`, `min` and `max` of the response times are not computed.
- NodeParser: the parser adds fields to its entry dict in place. The model returns the extended entry as a new value instead.
- CSV rows: the dicts written by `csv.DictWriter` are modelled as ordered lists of key and value pairs.
- LogStreamer: file paths are keys exactly as given. Two spellings of the same file count as two files.
- LogStreamer.ProjectionSpec: states the value of each column only for entries whose keys are distinct.
