/**
 * The backend `LogQueue`: raw lines wait in a FIFO queue; the processing
 * thread drains them in batches of at most ten, parses each, hands every
 * parsed record to the accumulator and then broadcasts it on a fixed
 * sequence of Socket.IO channels, followed by a statistics update.
 *
 * A broadcast is modelled as appending a channel name and its payload to
 * the `emitted` list. Everything the thread reads from outside (JSON, the
 * float parser, the clock) comes in as an `Env`.
 */
module LogQueue {
  import opened Wrappers
  import opened Text
  import opened Values
  import opened IsoWeek
  import opened LogParser
  import opened JsonAccumulator

  /** `datetime.fromisoformat(v).replace(tzinfo=None)` in seconds, `None` where it raises. */
  type Instant = Value -> Option<int>

  /**
   * What the processing thread takes from its surroundings: `json.loads`,
   * `json.dumps`, `float()`, `fromisoformat`, and the clock (today's date,
   * `datetime.now().isoformat()` and `datetime.now()` in seconds).
   */
  datatype Env = Env(decode: Decoder, encode: Encoder, toFloat: FloatParser, instant: Instant,
                     today: Date, now: string, nowSeconds: int)

  /** The `stats_update` payload; the last two fields are `time_based`. */
  datatype Stats = Stats(
    total: nat,
    typeInfo: nat, typeError: nat, typeRequest: nat,
    sourceNode: nat, sourcePython: nat,
    levelInfo: nat, levelError: nat, levelWarning: nat, levelAccess: nat,
    lastHour: nat, last24h: nat)

  datatype Payload = Log(record: Record) | Summary(stats: Stats)

  /** One `socketio.emit(channel, payload)`. */
  datatype Emission = Emission(channel: string, payload: Payload)

  function Channels(e: seq<Emission>): (r: seq<string>)
    ensures |r| == |e| && forall i :: 0 <= i < |e| ==> r[i] == e[i].channel
  {
    seq(|e|, i requires 0 <= i < |e| => e[i].channel)
  }

  // ---------------------------------------------------------------------
  // Batches

  /** `batch_size`. */
  const BatchSize: nat := 10

  /** The batch the fill loop takes: the queue's first entries, as many as fit. */
  function TakeBatch(q: seq<RawLine>): (r: seq<RawLine>)
    ensures |r| <= BatchSize && r <= q
    ensures |r| < BatchSize ==> r == q
  {
    if |q| <= BatchSize then q else q[..BatchSize]
  }

  // ---------------------------------------------------------------------
  // Statistics

  /** The number of values in `logs` that satisfy `p`. */
  function Count(logs: seq<Value>, p: Value -> bool): (r: nat)
    ensures r <= |logs|
    decreases |logs|
  {
    if logs == [] then 0 else Count(logs[..|logs| - 1], p) + (if p(logs[|logs| - 1]) then 1 else 0)
  }

  /** Three tests that no value passes twice are counted at most once per value. */
  lemma {:induction false} CountDisjoint(logs: seq<Value>, p: Value -> bool, q: Value -> bool, r: Value -> bool)
    requires forall v :: !(p(v) && q(v)) && !(p(v) && r(v)) && !(q(v) && r(v))
    ensures Count(logs, p) + Count(logs, q) + Count(logs, r) <= |logs|
    decreases |logs|
  {
    if logs != [] {
      CountDisjoint(logs[..|logs| - 1], p, q, r);
    }
  }

  /** A weaker test counts at least as many values. */
  lemma {:induction false} CountMonotone(logs: seq<Value>, p: Value -> bool, q: Value -> bool)
    requires forall v :: p(v) ==> q(v)
    ensures Count(logs, p) <= Count(logs, q)
    decreases |logs|
  {
    if logs != [] {
      CountMonotone(logs[..|logs| - 1], p, q);
    }
  }

  /** `l.get(k) == v`. */
  predicate FieldIs(l: Value, k: string, v: Value) {
    l.Dict? && Get(l.fields, k, Null) == v
  }

  /** `l.get('level', '').lower() == level`. */
  predicate LevelIs(l: Value, level: string) {
    LevelOf(l) == Ok(level)
  }

  /** The timestamp of `l` is no earlier than `since`. */
  predicate Since(l: Value, instant: Instant, since: int) {
    l.Dict? && instant(Get(l.fields, "timestamp", Str(""))).Some?
    && instant(Get(l.fields, "timestamp", Str(""))).value >= since
  }

  /**
   * Every comprehension of the payload runs without raising: each value is
   * a dict, with a level that has `lower` and a timestamp `fromisoformat`
   * accepts.
   */
  predicate StatsComputable(logs: seq<Value>, instant: Instant) {
    forall i :: 0 <= i < |logs| ==>
      logs[i].Dict? && LevelOf(logs[i]).Ok? && instant(Get(logs[i].fields, "timestamp", Str(""))).Some?
  }

  /** The `stats` dict of `_emit_log`; `None` where building it raises. */
  function ComputeStats(logs: seq<Value>, instant: Instant, now: int): Option<Stats> {
    if !StatsComputable(logs, instant) then None
    else Some(Stats(
      |logs|,
      Count(logs, l => FieldIs(l, "log_type", Str("info"))),
      Count(logs, l => FieldIs(l, "log_type", Str("error"))),
      Count(logs, l => FieldIs(l, "log_type", Str("request"))),
      Count(logs, l => FieldIs(l, "source", Str("node"))),
      Count(logs, l => FieldIs(l, "source", Str("python"))),
      Count(logs, l => LevelIs(l, "info")),
      Count(logs, l => LevelIs(l, "error")),
      Count(logs, l => LevelIs(l, "warn") || LevelIs(l, "warning")),
      Count(logs, l => LevelIs(l, "access")),
      Count(logs, l => Since(l, instant, now - 3600)),
      Count(logs, l => Since(l, instant, now - 86400))))
  }

  /**
   * The payload's counts are consistent: the per-type, per-source and
   * per-level counts never exceed the total, and the last hour is part of
   * the last day.
   */
  lemma StatsBounds(logs: seq<Value>, instant: Instant, now: int)
    requires ComputeStats(logs, instant, now).Some?
    ensures var s := ComputeStats(logs, instant, now).value;
      && s.total == |logs|
      && s.typeInfo + s.typeError + s.typeRequest <= s.total
      && s.sourceNode + s.sourcePython <= s.total
      && s.levelInfo + s.levelError + s.levelWarning <= s.total
      && s.levelAccess <= s.total
      && s.lastHour <= s.last24h <= s.total
  {
    CountDisjoint(logs, l => FieldIs(l, "log_type", Str("info")), l => FieldIs(l, "log_type", Str("error")),
      l => FieldIs(l, "log_type", Str("request")));
    CountDisjoint(logs, l => FieldIs(l, "source", Str("node")), l => FieldIs(l, "source", Str("python")), l => false);
    CountDisjoint(logs, l => LevelIs(l, "info"), l => LevelIs(l, "error"), l => LevelIs(l, "warn") || LevelIs(l, "warning"));
    CountMonotone(logs, l => Since(l, instant, now - 3600), l => Since(l, instant, now - 86400));
  }

  /** Whatever the stats are computed from, a dict that is not a dict stops them. */
  lemma StatsNeedRecords(logs: seq<Value>, instant: Instant, now: int, i: int)
    requires 0 <= i < |logs| && !logs[i].Dict?
    ensures ComputeStats(logs, instant, now).None?
  {
  }

  // ---------------------------------------------------------------------
  // The emissions of one record

  /** The levels that raise an `error_detected` broadcast. */
  const AlertLevels: set<string> := {"error", "warning", "warn"}

  /** The partitions the statistics read, in order. */
  const StatsTypes: seq<string> := ["info", "error", "request"]

  /** `get_logs(t, None, week)` for each `t` of `types` in turn, concatenated. */
  function LogsOfTypes(files: map<string, string>, types: seq<string>, week: string, decode: Decoder): seq<Value>
    decreases |types|
  {
    if types == [] then []
    else
      LogsOfTypes(files, types[..|types| - 1], week, decode)
      + LogsOf(files, MatchingFiles(files, types[|types| - 1], week), "", decode)
  }

  /** The current week's records the statistics are computed from. */
  function AllLogs(files: map<string, string>, week: string, decode: Decoder): seq<Value> {
    LogsOfTypes(files, StatsTypes, week, decode)
  }

  /** The first two broadcasts: the general channel, then the one of the record's type. */
  function Announce(log: Record): seq<Emission> {
    [Emission("new_log", Log(log)), Emission("new_" + Show(Get(log, "log_type", Str("info"))) + "_log", Log(log))]
  }

  /** The `error_detected` broadcast, for an error or warning level. */
  function Alert(log: Record, level: string): seq<Emission> {
    if Lower(level) in AlertLevels then [Emission("error_detected", Log(log))] else []
  }

  /** The `stats_update` broadcast, when the statistics can be built. */
  function StatsUpdate(logs: seq<Value>, instant: Instant, now: int): seq<Emission> {
    match ComputeStats(logs, instant, now)
    case None => []
    case Some(stats) => [Emission("stats_update", Summary(stats))]
  }

  /**
   * The broadcasts of `_emit_log(log)`, given the records of the current
   * week: a level without `lower` stops it after the first two.
   */
  function Emissions(log: Record, logs: seq<Value>, instant: Instant, now: int): seq<Emission> {
    var level := Get(log, "level", Str("info"));
    if !level.Str? then Announce(log)
    else Announce(log) + Alert(log, level.s) + StatsUpdate(logs, instant, now)
  }

  /**
   * `_emit_log` as it runs, one `emit` after another onto the broadcasts
   * `sent` so far.
   */
  function EmitOnto(sent: seq<Emission>, log: Record, logs: seq<Value>, instant: Instant, now: int): seq<Emission> {
    var level := Get(log, "level", Str("info"));
    var sent1 := sent + [Emission("new_log", Log(log))];
    var sent2 := sent1 + [Emission("new_" + Show(Get(log, "log_type", Str("info"))) + "_log", Log(log))];
    if !level.Str? then sent2
    else
      var sent3 := if Lower(level.s) in AlertLevels then sent2 + [Emission("error_detected", Log(log))] else sent2;
      match ComputeStats(logs, instant, now)
      case None => sent3
      case Some(stats) => sent3 + [Emission("stats_update", Summary(stats))]
  }

  /** Running `_emit_log` adds exactly its broadcasts after the ones already sent. */
  lemma EmitOntoAppends(sent: seq<Emission>, log: Record, logs: seq<Value>, instant: Instant, now: int)
    ensures EmitOnto(sent, log, logs, instant, now) == sent + Emissions(log, logs, instant, now)
  {
    var level := Get(log, "level", Str("info"));
    if level.Str? {
      var a, b, c := Announce(log), Alert(log, level.s), StatsUpdate(logs, instant, now);
      assert sent + (a + b + c) == sent + a + b + c;
    }
  }

  /**
   * The channel sequence starts with "new_log" and "new_<log_type>_log"
   * (log_type defaulting to "info"), and every broadcast but the
   * statistics carries the record itself.
   */
  lemma EmissionsStart(log: Record, logs: seq<Value>, instant: Instant, now: int)
    ensures var e := Emissions(log, logs, instant, now);
      && |e| >= 2
      && Channels(e)[..2] == ["new_log", "new_" + Show(Get(log, "log_type", Str("info"))) + "_log"]
      && forall i :: 0 <= i < |e| && e[i].channel != "stats_update" ==> e[i].payload == Log(log)
  {
    var e := Emissions(log, logs, instant, now);
    assert e[..2] == Announce(log);
    assert Channels(e)[..2] == [e[0].channel, e[1].channel];
  }

  /** "error_detected" is broadcast exactly for a string level that lowercases to error, warning or warn. */
  lemma EmissionsAlert(log: Record, logs: seq<Value>, instant: Instant, now: int)
    ensures var level := Get(log, "level", Str("info"));
      "error_detected" in Channels(Emissions(log, logs, instant, now)) <==> level.Str? && Lower(level.s) in AlertLevels
  {
    var e := Emissions(log, logs, instant, now);
    var typed := "new_" + Show(Get(log, "log_type", Str("info"))) + "_log";
    assert typed[0] == 'n';
    var level := Get(log, "level", Str("info"));
    if level.Str? {
      if Lower(level.s) in AlertLevels {
        assert Channels(e)[2] == "error_detected";
      }
    }
  }

  /** "stats_update" is broadcast exactly when the level has `lower` and the statistics can be built, and it comes last. */
  lemma EmissionsStats(log: Record, logs: seq<Value>, instant: Instant, now: int)
    ensures var e := Emissions(log, logs, instant, now);
      var level := Get(log, "level", Str("info"));
      && ("stats_update" in Channels(e) <==> level.Str? && ComputeStats(logs, instant, now).Some?)
      && ("stats_update" in Channels(e) ==> Channels(e)[|e| - 1] == "stats_update")
  {
    var e := Emissions(log, logs, instant, now);
    var typed := "new_" + Show(Get(log, "log_type", Str("info"))) + "_log";
    assert typed[0] == 'n';
    var level := Get(log, "level", Str("info"));
    if level.Str? && ComputeStats(logs, instant, now).Some? {
      assert Channels(e)[|e| - 1] == "stats_update";
    }
  }

  /** The number of "new_log" broadcasts in `e`. */
  function NewLogCount(e: seq<Emission>): nat
    decreases |e|
  {
    if e == [] then 0 else NewLogCount(e[..|e| - 1]) + (if e[|e| - 1].channel == "new_log" then 1 else 0)
  }

  lemma {:induction false} NewLogCountAppend(a: seq<Emission>, b: seq<Emission>)
    ensures NewLogCount(a + b) == NewLogCount(a) + NewLogCount(b)
    decreases |b|
  {
    if b == [] {
      assert a + b == a;
    } else {
      assert (a + b)[..|a + b| - 1] == a + b[..|b| - 1];
      NewLogCountAppend(a, b[..|b| - 1]);
    }
  }

  /** Each record is announced on "new_log" exactly once. */
  lemma EmissionsOneNewLog(log: Record, logs: seq<Value>, instant: Instant, now: int)
    ensures NewLogCount(Emissions(log, logs, instant, now)) == 1
  {
    var head := Announce(log);
    var typed := "new_" + Show(Get(log, "log_type", Str("info"))) + "_log";
    assert |typed| >= 8;
    assert head[..|head| - 1] == [head[0]];
    assert [head[0]][..0] == [];
    assert NewLogCount([head[0]]) == 1;
    assert head[1].channel != "new_log";
    assert NewLogCount(head) == 1;
    var level := Get(log, "level", Str("info"));
    if level.Str? {
      var rest := Alert(log, level.s) + StatsUpdate(logs, instant, now);
      assert Emissions(log, logs, instant, now) == head + rest;
      NoNewLog(rest);
      NewLogCountAppend(head, rest);
    }
  }

  lemma {:induction false} NoNewLog(e: seq<Emission>)
    requires forall i :: 0 <= i < |e| ==> e[i].channel != "new_log"
    ensures NewLogCount(e) == 0
    decreases |e|
  {
    if e != [] {
      NoNewLog(e[..|e| - 1]);
    }
  }

  // ---------------------------------------------------------------------
  // Draining a batch

  /** The accumulator's store, the broadcasts so far and `processed_count`. */
  datatype Progress = Progress(store: Store, emitted: seq<Emission>, count: nat)

  /**
   * One entry of the batch: a line `parse_log` rejects is skipped; a parsed
   * record is added to the accumulator and then broadcast (as `add_log`
   * left it), whether or not it was a duplicate.
   */
  function Handle(p: Progress, entry: RawLine, week: string, env: Env): Progress
    requires ValidDate(env.today)
  {
    match ParseLog(entry, env.decode, env.toFloat)
    case None => p
    case Some(parsed) =>
      var a := AddEntry(p.store, parsed, WeekKey(env.today), env.now, env.encode);
      Progress(a.store, EmitOnto(p.emitted, a.stamped, AllLogs(a.store.files, week, env.decode), env.instant, env.nowSeconds),
               p.count + 1)
  }

  /** The entries of a batch, in batch order; `week` is the accumulator's `current_week`. */
  function Drain(p: Progress, batch: seq<RawLine>, week: string, env: Env): Progress
    requires ValidDate(env.today)
    decreases |batch|
  {
    if batch == [] then p
    else Handle(Drain(p, batch[..|batch| - 1], week, env), batch[|batch| - 1], week, env)
  }

  /** The entries of `batch` that `parse_log` accepts. */
  function ParsedCount(batch: seq<RawLine>, env: Env): nat
    decreases |batch|
  {
    if batch == [] then 0
    else ParsedCount(batch[..|batch| - 1], env) + (if ParseLog(batch[|batch| - 1], env.decode, env.toFloat).Some? then 1 else 0)
  }

  /**
   * `processed_count` counts exactly the entries that parsed, so it never
   * exceeds the batch; and each of them is announced on "new_log", so a
   * duplicate the accumulator skipped is still broadcast.
   */
  lemma {:induction false} DrainCounts(p: Progress, batch: seq<RawLine>, week: string, env: Env)
    requires ValidDate(env.today)
    ensures var d := Drain(p, batch, week, env);
      && d.count == p.count + ParsedCount(batch, env)
      && ParsedCount(batch, env) <= |batch|
      && NewLogCount(d.emitted) == NewLogCount(p.emitted) + ParsedCount(batch, env)
    decreases |batch|
  {
    if batch != [] {
      var q := Drain(p, batch[..|batch| - 1], week, env);
      DrainCounts(p, batch[..|batch| - 1], week, env);
      var entry := batch[|batch| - 1];
      match ParseLog(entry, env.decode, env.toFloat)
      case None =>
      case Some(parsed) =>
        var a := AddEntry(q.store, parsed, WeekKey(env.today), env.now, env.encode);
        var e := Emissions(a.stamped, AllLogs(a.store.files, week, env.decode), env.instant, env.nowSeconds);
        EmitOntoAppends(q.emitted, a.stamped, AllLogs(a.store.files, week, env.decode), env.instant, env.nowSeconds);
        NewLogCountAppend(q.emitted, e);
        EmissionsOneNewLog(a.stamped, AllLogs(a.store.files, week, env.decode), env.instant, env.nowSeconds);
    }
  }

  /** An entry whose record is already stored changes no file, yet is broadcast. */
  lemma DuplicateBroadcast(p: Progress, entry: RawLine, week: string, env: Env, parsed: Record)
    requires ValidDate(env.today)
    requires ParseLog(entry, env.decode, env.toFloat) == Some(parsed)
    requires Fingerprint(Stamp(parsed, env.now)) in p.store.processed
    ensures Handle(p, entry, week, env).store == p.store
    ensures NewLogCount(Handle(p, entry, week, env).emitted) == NewLogCount(p.emitted) + 1
  {
    var a := AddEntry(p.store, parsed, WeekKey(env.today), env.now, env.encode);
    AddEntryDuplicate(p.store, parsed, WeekKey(env.today), env.now, env.encode);
    var e := Emissions(a.stamped, AllLogs(a.store.files, week, env.decode), env.instant, env.nowSeconds);
    EmitOntoAppends(p.emitted, a.stamped, AllLogs(a.store.files, week, env.decode), env.instant, env.nowSeconds);
    NewLogCountAppend(p.emitted, e);
    EmissionsOneNewLog(a.stamped, AllLogs(a.store.files, week, env.decode), env.instant, env.nowSeconds);
  }

  // ---------------------------------------------------------------------
  // The queue object

  class Queue {
    /** The entries waiting in `queue.Queue`, front first. */
    var pending: seq<RawLine>
    /** Every broadcast so far, in order. */
    var emitted: seq<Emission>
    var running: bool
    const acc: Accumulator

    constructor (acc: Accumulator)
      ensures this.acc == acc && pending == [] && emitted == [] && !running
    {
      this.acc := acc;
      pending := [];
      emitted := [];
      running := false;
    }

    /** `start`: only a stopped queue starts (the thread itself is not modelled). */
    method Start()
      modifies this
      ensures running
      ensures pending == old(pending) && emitted == old(emitted)
    {
      if !running {
        running := true;
      }
    }

    /** `stop`. */
    method Stop()
      modifies this
      ensures !running
      ensures pending == old(pending) && emitted == old(emitted)
    {
      running := false;
    }

    /** `add_log`: `queue.put`. */
    method Add(entry: RawLine)
      modifies this
      ensures pending == old(pending) + [entry]
      ensures emitted == old(emitted) && running == old(running)
    {
      pending := pending + [entry];
    }

    /**
     * One pass of `_process_logs` while the queue runs: take a batch from
     * the front, then handle its entries in order.
     */
    method ProcessBatch(env: Env) returns (batch: seq<RawLine>, processedCount: nat)
      requires ValidDate(env.today)
      modifies this, acc
      ensures running == old(running) && acc.currentWeek == old(acc.currentWeek)
      ensures !running ==> batch == [] && pending == old(pending) && emitted == old(emitted) && acc.State() == old(acc.State())
      ensures running ==> batch == TakeBatch(old(pending)) && pending == old(pending)[|batch|..]
      ensures Progress(acc.State(), emitted, processedCount)
        == Drain(Progress(old(acc.State()), old(emitted), 0), batch, acc.currentWeek, env)
    {
      if !running {
        return [], 0;
      }
      batch := TakeFront();
      processedCount := 0;
      var i := 0;
      while i < |batch|
        invariant 0 <= i <= |batch|
        invariant running && acc.currentWeek == old(acc.currentWeek) && pending == old(pending)[|batch|..]
        invariant Progress(acc.State(), emitted, processedCount)
          == Drain(Progress(old(acc.State()), old(emitted), 0), batch[..i], acc.currentWeek, env)
      {
        assert batch[..i + 1][..i] == batch[..i];
        processedCount := HandleEntry(batch[i], env, processedCount);
        i := i + 1;
      }
      assert batch[..i] == batch;
    }

    /** The `queue.get` calls that fill a batch: at most `BatchSize` entries from the front. */
    method TakeFront() returns (batch: seq<RawLine>)
      modifies this
      ensures batch == TakeBatch(old(pending)) && pending == old(pending)[|batch|..]
      ensures emitted == old(emitted) && running == old(running)
    {
      batch := [];
      while |batch| < BatchSize && pending != []
        invariant batch + pending == old(pending) && |batch| <= BatchSize
        invariant emitted == old(emitted) && running == old(running)
      {
        batch := batch + [pending[0]];
        pending := pending[1..];
      }
      assert old(pending)[..|batch|] == batch;
    }

    /** One entry of the batch: `parse_log`, then `add_log` and `_emit_log` when it parsed. */
    method HandleEntry(entry: RawLine, env: Env, count: nat) returns (newCount: nat)
      requires ValidDate(env.today)
      modifies this, acc
      ensures running == old(running) && pending == old(pending) && acc.currentWeek == old(acc.currentWeek)
      ensures Progress(acc.State(), emitted, newCount)
        == Handle(Progress(old(acc.State()), old(emitted), count), entry, acc.currentWeek, env)
    {
      newCount := count;
      var parsed := ParseLog(entry, env.decode, env.toFloat);
      if parsed.Some? {
        var stamped := acc.AddLog(parsed.value, env.today, env.now, env.encode);
        EmitLog(stamped, env);
        newCount := count + 1;
      }
    }

    /** `_emit_log`. */
    method EmitLog(log: Record, env: Env)
      modifies this
      ensures emitted == EmitOnto(old(emitted), log, AllLogs(acc.files, acc.currentWeek, env.decode), env.instant, env.nowSeconds)
      ensures pending == old(pending) && running == old(running)
    {
      var logType := Get(log, "log_type", Str("info"));
      var level := Get(log, "level", Str("info"));
      emitted := emitted + [Emission("new_log", Log(log))];
      emitted := emitted + [Emission("new_" + Show(logType) + "_log", Log(log))];
      if !level.Str? {
        return;
      }
      if Lower(level.s) in AlertLevels {
        emitted := emitted + [Emission("error_detected", Log(log))];
      }
      var allLogs := ReadAllLogs(acc.currentWeek, env.decode);
      var stats := ComputeStats(allLogs, env.instant, env.nowSeconds);
      if stats.Some? {
        emitted := emitted + [Emission("stats_update", Summary(stats.value))];
      }
    }

    /** The stats' reading of the current week: `get_logs(t, None, week)` for info, error and request. */
    method ReadAllLogs(week: string, decode: Decoder) returns (allLogs: seq<Value>)
      ensures allLogs == AllLogs(acc.files, week, decode)
    {
      allLogs := [];
      for k := 0 to |StatsTypes|
        invariant allLogs == LogsOfTypes(acc.files, StatsTypes[..k], week, decode)
      {
        assert StatsTypes[..k + 1][..k] == StatsTypes[..k];
        var logs := acc.GetLogs(StatsTypes[k], "", Some(week), decode);
        allLogs := allLogs + logs;
      }
      assert StatsTypes[..|StatsTypes|] == StatsTypes;
    }
  }
}
