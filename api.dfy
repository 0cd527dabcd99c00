/**
 * The request helpers of the dashboard back end (`backend/app.py`):
 * pagination, the staged log filter, the newest-first sort, the page
 * arithmetic of `get_logs`, and the counting loops behind the request,
 * source and level statistics. The logs arrive as the decoded JSON values
 * the accumulator reads back; every Python exception the handlers catch is
 * an `Outcome.Raised`.
 */
module Api {
  import opened Wrappers
  import opened Text
  import opened Order
  import opened Values

  function Min(a: int, b: int): int { if a <= b then a else b }

  // ---------------------------------------------------------------------
  // paginate_logs

  /** A Python slice bound: negative counts from the end, then clamped into `[0, n]`. */
  function SliceBound(i: int, n: nat): (r: nat)
    ensures r <= n
    ensures 0 <= i <= n ==> r == i
    ensures i > n ==> r == n
    ensures i < 0 ==> r == if i + n < 0 then 0 else i + n
  {
    if i < 0 then (if i + n < 0 then 0 else i + n) else if i > n then n else i
  }

  /** `xs[start:end]`. */
  function PySlice<T>(xs: seq<T>, start: int, end: int): (r: seq<T>)
    ensures |r| <= |xs|
  {
    var s, e := SliceBound(start, |xs|), SliceBound(end, |xs|);
    if s < e then xs[s..e] else []
  }

  /** `paginate_logs`: the `page`-th run of `perPage` logs, counting pages from 1. */
  function Paginate(logs: seq<Value>, page: int, perPage: int): seq<Value> {
    var start := (page - 1) * perPage;
    PySlice(logs, start, start + perPage)
  }

  /** From page 1 on, a page is the run of logs from `(page - 1) * perPage`, at most `perPage` long. */
  lemma PaginateRange(logs: seq<Value>, page: int, perPage: int)
    requires page >= 1 && perPage >= 0
    ensures Paginate(logs, page, perPage)
         == logs[Min((page - 1) * perPage, |logs|)..Min(page * perPage, |logs|)]
    ensures |Paginate(logs, page, perPage)| <= perPage
  {
    var start := (page - 1) * perPage;
    ProductNonnegative(page - 1, perPage);
    PreviousMultiple(page, perPage);
    PySliceRange(logs, start, start + perPage);
  }

  /** A slice between two non-negative bounds is the run between them, cut at the end of the list. */
  lemma PySliceRange<T>(xs: seq<T>, start: int, end: int)
    requires 0 <= start <= end
    ensures PySlice(xs, start, end) == xs[Min(start, |xs|)..Min(end, |xs|)]
  {
  }

  lemma ProductNonnegative(a: int, b: int)
    requires a >= 0 && b >= 0
    ensures a * b >= 0
  {
  }

  /** Pages 1 to `count` one after the other. */
  function Pages(logs: seq<Value>, perPage: nat, count: nat): seq<Value>
    decreases count
  {
    if count == 0 then [] else Pages(logs, perPage, count - 1) + Paginate(logs, count, perPage)
  }

  /** The first `count` pages are exactly the first `count * perPage` logs: nothing is skipped or repeated. */
  lemma {:induction false} PagesPrefix(logs: seq<Value>, perPage: nat, count: nat)
    ensures Pages(logs, perPage, count) == logs[..Min(count * perPage, |logs|)]
    decreases count
  {
    if count > 0 {
      PagesPrefix(logs, perPage, count - 1);
      PaginateRange(logs, count, perPage);
      PreviousMultiple(count, perPage);
      ProductNonnegative(count - 1, perPage);
      JoinRuns(logs, (count - 1) * perPage, count * perPage);
    }
  }

  /** The logs before `m` followed by those from `m` to `n` are the logs before `n`. */
  lemma JoinRuns(logs: seq<Value>, m: int, n: int)
    requires 0 <= m <= n
    ensures logs[..Min(m, |logs|)] + logs[Min(m, |logs|)..Min(n, |logs|)] == logs[..Min(n, |logs|)]
  {
  }

  lemma PreviousMultiple(c: int, p: int)
    ensures (c - 1) * p + p == c * p
  {
  }

  // ---------------------------------------------------------------------
  // The page arithmetic of handle_get_logs

  /** Python's `a // b`: the floor of the quotient, for either sign of `b`. */
  function FloorDiv(a: int, b: int): (q: int)
    requires b != 0
    ensures b > 0 ==> q * b <= a < q * b + b
    ensures b < 0 ==> q * b >= a > q * b + b
  {
    if b > 0 then a / b else (-a) / (-b)
  }

  /** `per_page = min(requested, 100)`. */
  function PerPage(requested: int): (r: int)
    ensures r <= 100
    ensures r == requested || (r == 100 && requested > 100)
  {
    Min(requested, 100)
  }

  /** `(total + per_page - 1) // per_page`, a ZeroDivisionError when `per_page` is 0. */
  function TotalPages(total: nat, perPage: int): Outcome<int> {
    if perPage == 0 then Raised else Ok(FloorDiv(total + perPage - 1, perPage))
  }

  /** For a positive page size the page count is the ceiling: the fewest pages that hold every log. */
  lemma TotalPagesCeiling(total: nat, perPage: int)
    ensures TotalPages(total, perPage).Raised? <==> perPage == 0
    ensures perPage > 0 ==> var n := TotalPages(total, perPage).value;
      n >= 0 && n * perPage >= total && (n == 0 || (n - 1) * perPage < total)
  {
    if perPage > 0 {
      var n := TotalPages(total, perPage).value;
      assert n * perPage <= total + perPage - 1 < n * perPage + perPage;
      assert (n - 1) * perPage == n * perPage - perPage;
      assert total + perPage - 1 >= 0;
    }
  }

  /** With a positive page size, pages 1 to `total_pages` give back the whole sorted list. */
  lemma PagesCoverAll(logs: seq<Value>, perPage: nat)
    requires perPage > 0
    ensures TotalPages(|logs|, perPage).Ok?
    ensures var n := TotalPages(|logs|, perPage).value; n >= 0 && Pages(logs, perPage, n) == logs
  {
    TotalPagesCeiling(|logs|, perPage);
    var n := TotalPages(|logs|, perPage).value;
    PagesPrefix(logs, perPage, n);
  }

  // ---------------------------------------------------------------------
  // filter_logs

  /** The filter fields `handle_get_logs` passes on (the time filters are not modelled). */
  datatype Filters = Filters(source: Value, level: Value, searchTerm: Value, searchType: Value)

  /** The logs satisfying `p`, in their order. */
  function Where(logs: seq<Value>, p: Value -> bool): (r: seq<Value>)
    ensures |r| <= |logs|
  {
    if logs == [] then [] else (if p(logs[0]) then [logs[0]] else []) + Where(logs[1..], p)
  }

  /** `Where` keeps exactly the logs that satisfy the condition. */
  lemma {:induction false} WhereMembers(logs: seq<Value>, p: Value -> bool)
    ensures forall x :: x in Where(logs, p) <==> x in logs && p(x)
    decreases |logs|
  {
    if logs != [] {
      WhereMembers(logs[1..], p);
      assert logs == [logs[0]] + logs[1..];
    }
  }

  /** `a` is `b` with some items left out, the rest in their order. */
  predicate Subsequence(a: seq<Value>, b: seq<Value>)
    decreases |b|
  {
    a == [] || (b != [] && ((a[0] == b[0] && Subsequence(a[1..], b[1..])) || Subsequence(a, b[1..])))
  }

  lemma {:induction false} WhereSubsequence(logs: seq<Value>, p: Value -> bool)
    ensures Subsequence(Where(logs, p), logs)
    decreases |logs|
  {
    if logs != [] {
      WhereSubsequence(logs[1..], p);
      var w := Where(logs[1..], p);
      if p(logs[0]) {
        assert Where(logs, p) == [logs[0]] + w;
        assert ([logs[0]] + w)[1..] == w;
      } else {
        assert Where(logs, p) == w;
      }
    }
  }

  /** Both conditions. */
  function Both(p: Value -> bool, q: Value -> bool): Value -> bool {
    x => p(x) && q(x)
  }

  /** Filtering twice is filtering once by both conditions. */
  lemma {:induction false} WhereWhere(logs: seq<Value>, p: Value -> bool, q: Value -> bool)
    ensures Where(Where(logs, p), q) == Where(logs, Both(p, q))
    decreases |logs|
  {
    if logs != [] {
      WhereWhere(logs[1..], p, q);
      var w := Where(logs[1..], p);
      if p(logs[0]) {
        assert Where(logs, p) == [logs[0]] + w;
        assert ([logs[0]] + w)[1..] == w;
      } else {
        assert Where(logs, p) == w;
      }
    }
  }

  lemma {:induction false} WhereAll(logs: seq<Value>, p: Value -> bool)
    requires forall x :: x in logs ==> p(x)
    ensures Where(logs, p) == logs
    decreases |logs|
  {
    if logs != [] {
      WhereAll(logs[1..], p);
      assert [logs[0]] + logs[1..] == logs;
    }
  }

  /** The logs on which a test that may raise evaluates to true. */
  function Accepts(test: Value -> Outcome<bool>): Value -> bool {
    x => test(x) == Ok(true)
  }

  /**
   * `[log for log in logs if test(log)]` where the test may raise: the first
   * raising test aborts the whole comprehension.
   */
  function Keep(logs: seq<Value>, test: Value -> Outcome<bool>): (r: Outcome<seq<Value>>)
    ensures r.Raised? <==> exists i :: 0 <= i < |logs| && test(logs[i]).Raised?
    ensures r.Ok? ==> r.value == Where(logs, Accepts(test))
    decreases |logs|
  {
    if logs == [] then Ok([])
    else
      match test(logs[0])
      case Raised => Raised
      case Ok(b) =>
        match Keep(logs[1..], test)
        case Raised =>
          assert forall i :: 0 <= i < |logs| - 1 ==> logs[1..][i] == logs[i + 1];
          Raised
        case Ok(rest) =>
          assert forall i :: 1 <= i < |logs| ==> logs[i] == logs[1..][i - 1];
          Ok(if b then [logs[0]] + rest else rest)
  }

  /** The source stage: `log.get('source') == filters['source']`. */
  function SourceTest(f: Filters): Value -> Outcome<bool> {
    log => match GetV(log, "source", Null)
      case Raised => Raised
      case Ok(v) => Ok(v == f.source)
  }

  /** The level stage: `log.get('level', '').lower() == filters['level'].lower()`. */
  function LevelTest(f: Filters): Value -> Outcome<bool> {
    log => match GetV(log, "level", Str(""))
      case Raised => Raised
      case Ok(v) =>
        if !v.Str? || !f.level.Str? then Raised else Ok(Lower(v.s) == Lower(f.level.s))
  }

  /** `term in str(log.get(key, '')).lower()`. */
  function Mentions(log: Value, key: string, term: string): Outcome<bool> {
    match GetV(log, key, Str(""))
    case Raised => Raised
    case Ok(v) => Ok(Contains(Lower(Show(v)), term))
  }

  /** The search stage, with the search term already lowercased. */
  function SearchTest(f: Filters, term: string): Value -> Outcome<bool> {
    log =>
      if f.searchType == Str("req_id") then
        match Mentions(log, "req_id", term)
        case Raised => Raised
        case Ok(b) => if b then Ok(true) else Mentions(log, "request_id", term)
      else Mentions(log, "message", term)
  }

  /** `filter_logs`: the source, level and search stages, each applied only when its filter is set. */
  function FilterLogs(logs: seq<Value>, f: Filters): Outcome<seq<Value>> {
    var bySource :- if Truthy(f.source) then Keep(logs, SourceTest(f)) else Ok(logs);
    var byLevel :- if Truthy(f.level) then Keep(bySource, LevelTest(f)) else Ok(bySource);
    if !Truthy(f.searchTerm) then Ok(byLevel)
    else if !f.searchTerm.Str? then Raised
    else Keep(byLevel, SearchTest(f, Lower(f.searchTerm.s)))
  }

  /** Whether one log gets through the source stage, when it is active. */
  predicate SourcePasses(f: Filters, log: Value) {
    Truthy(f.source) ==> SourceTest(f)(log) == Ok(true)
  }

  /** Whether one log gets through the level stage, when it is active. */
  predicate LevelPasses(f: Filters, log: Value) {
    Truthy(f.level) ==> LevelTest(f)(log) == Ok(true)
  }

  /** Whether one log gets through the search stage, when it is active. */
  predicate SearchPasses(f: Filters, log: Value) {
    Truthy(f.searchTerm) && f.searchTerm.Str? ==> SearchTest(f, Lower(f.searchTerm.s))(log) == Ok(true)
  }

  /** Whether one log gets through every active stage. */
  predicate Passes(f: Filters, log: Value) {
    SourcePasses(f, log) && LevelPasses(f, log) && SearchPasses(f, log)
  }

  function SourceFilter(f: Filters): Value -> bool { x => SourcePasses(f, x) }
  function LevelFilter(f: Filters): Value -> bool { x => LevelPasses(f, x) }
  function SearchFilter(f: Filters): Value -> bool { x => SearchPasses(f, x) }
  function PassFilter(f: Filters): Value -> bool { x => Passes(f, x) }

  /** With no filter set, `filter_logs` hands back its input unchanged. */
  lemma FilterNothing(logs: seq<Value>, f: Filters)
    requires !Truthy(f.source) && !Truthy(f.level) && !Truthy(f.searchTerm)
    ensures FilterLogs(logs, f) == Ok(logs)
  {
  }

  lemma {:induction false} WhereSame(logs: seq<Value>, p: Value -> bool, q: Value -> bool)
    requires forall x :: x in logs ==> p(x) == q(x)
    ensures Where(logs, p) == Where(logs, q)
    decreases |logs|
  {
    if logs != [] {
      WhereSame(logs[1..], p, q);
    }
  }

  /** One stage, active or not, keeps what `p` accepts. */
  lemma Stage(logs: seq<Value>, active: bool, test: Value -> Outcome<bool>, p: Value -> bool)
    requires forall x :: p(x) == (active ==> test(x) == Ok(true))
    ensures var r := if active then Keep(logs, test) else Ok(logs);
      r.Ok? ==> r.value == Where(logs, p)
  {
    if active {
      if Keep(logs, test).Ok? {
        WhereSame(logs, Accepts(test), p);
      }
    } else {
      WhereAll(logs, p);
    }
  }

  /** A successful `filter_logs` is the three stages' conditions applied one after the other. */
  lemma FilterLogsStages(logs: seq<Value>, f: Filters)
    ensures FilterLogs(logs, f).Ok? ==>
      FilterLogs(logs, f).value == Where(Where(Where(logs, SourceFilter(f)), LevelFilter(f)), SearchFilter(f))
  {
    if FilterLogs(logs, f).Ok? {
      Stage(logs, Truthy(f.source), SourceTest(f), SourceFilter(f));
      var s1 := Where(logs, SourceFilter(f));
      Stage(s1, Truthy(f.level), LevelTest(f), LevelFilter(f));
      var s2 := Where(s1, LevelFilter(f));
      if Truthy(f.searchTerm) {
        Stage(s2, true, SearchTest(f, Lower(f.searchTerm.s)), SearchFilter(f));
      } else {
        WhereAll(s2, SearchFilter(f));
      }
    }
  }

  /**
   * A successful `filter_logs` keeps exactly the logs that pass every active
   * stage, in their original order: a subsequence of the input.
   */
  lemma FilterLogsSpec(logs: seq<Value>, f: Filters)
    ensures FilterLogs(logs, f).Ok? ==> FilterLogs(logs, f).value == Where(logs, PassFilter(f))
    ensures FilterLogs(logs, f).Ok? ==> Subsequence(FilterLogs(logs, f).value, logs)
  {
    FilterLogsStages(logs, f);
    var ps, pl, pt := SourceFilter(f), LevelFilter(f), SearchFilter(f);
    WhereWhere(logs, ps, pl);
    WhereWhere(logs, Both(ps, pl), pt);
    WhereSame(logs, Both(Both(ps, pl), pt), PassFilter(f));
    WhereSubsequence(logs, PassFilter(f));
  }

  /** The source stage sees every log, so one that is not a dict makes an active source filter raise. */
  lemma SourceFilterNeedsDicts(logs: seq<Value>, f: Filters, i: int)
    requires Truthy(f.source) && 0 <= i < |logs| && !logs[i].Dict?
    ensures FilterLogs(logs, f).Raised?
  {
    assert SourceTest(f)(logs[i]).Raised?;
  }

  /** A search term that is set but not a string raises, whatever the logs (`.lower()` on it). */
  lemma SearchTermMustBeString(logs: seq<Value>, f: Filters)
    requires Truthy(f.searchTerm) && !f.searchTerm.Str?
    ensures FilterLogs(logs, f).Raised?
  {
  }

  // ---------------------------------------------------------------------
  // The newest-first sort of handle_get_logs

  /** The sort key of a log whose timestamp is a string. */
  function Stamp(log: Value): string {
    if log.Dict? && "timestamp" in log.fields && log.fields["timestamp"].Str? then log.fields["timestamp"].s else ""
  }

  /** Largest key first: every key is at least the ones after it. */
  predicate Descending(s: seq<Value>, key: Value -> string) {
    forall i, j :: 0 <= i < j < |s| ==> Below(key(s[j]), key(s[i]))
  }

  /** Puts `x` in front of the first log whose key is not larger than its own. */
  function InsertDesc(x: Value, s: seq<Value>, key: Value -> string): (r: seq<Value>)
    ensures multiset(r) == multiset(s) + multiset{x}
  {
    if s == [] || Below(key(s[0]), key(x)) then [x] + s
    else
      assert s == [s[0]] + s[1..];
      [s[0]] + InsertDesc(x, s[1..], key)
  }

  /** `list.sort(key=key, reverse=True)`, as an insertion sort from the back. */
  function SortDesc(xs: seq<Value>, key: Value -> string): (r: seq<Value>)
    ensures multiset(r) == multiset(xs)
  {
    if xs == [] then []
    else
      assert xs == [xs[0]] + xs[1..];
      InsertDesc(xs[0], SortDesc(xs[1..], key), key)
  }

  lemma {:induction false} InsertDescSorted(x: Value, s: seq<Value>, key: Value -> string)
    requires Descending(s, key)
    ensures Descending(InsertDesc(x, s, key), key)
    decreases |s|
  {
    var r := InsertDesc(x, s, key);
    if s == [] || Below(key(s[0]), key(x)) {
      forall j | 1 <= j < |r|
        ensures Below(key(r[j]), key(x))
      {
        if j > 1 { BelowTransitive(key(s[j - 1]), key(s[0]), key(x)); }
      }
    } else {
      BelowTotal(key(s[0]), key(x));
      InsertDescSorted(x, s[1..], key);
      var rest := InsertDesc(x, s[1..], key);
      forall j | 0 <= j < |rest|
        ensures Below(key(rest[j]), key(s[0]))
      {
        assert rest[j] in multiset(rest);
        if rest[j] != x {
          assert rest[j] in multiset(s[1..]);
          var k :| 0 <= k < |s[1..]| && s[1..][k] == rest[j];
          assert s[k + 1] == rest[j];
        }
      }
    }
  }

  /** The sort puts the logs in descending key order. */
  lemma {:induction false} SortDescSorted(xs: seq<Value>, key: Value -> string)
    ensures Descending(SortDesc(xs, key), key)
    decreases |xs|
  {
    if xs != [] {
      SortDescSorted(xs[1..], key);
      InsertDescSorted(xs[0], SortDesc(xs[1..], key), key);
    }
  }

  /** The logs whose key is `t`, in their order. */
  function WithKey(s: seq<Value>, key: Value -> string, t: string): seq<Value> {
    if s == [] then [] else (if key(s[0]) == t then [s[0]] else []) + WithKey(s[1..], key, t)
  }

  lemma {:induction false} InsertDescStable(x: Value, s: seq<Value>, key: Value -> string, t: string)
    ensures WithKey(InsertDesc(x, s, key), key, t) == (if key(x) == t then [x] else []) + WithKey(s, key, t)
    decreases |s|
  {
    if s == [] || Below(key(s[0]), key(x)) {
      assert ([x] + s)[0] == x && ([x] + s)[1..] == s;
    } else {
      InsertDescStable(x, s[1..], key, t);
      assert s == [s[0]] + s[1..];
      InsertBehindStable(x, s[0], s[1..], key, t);
    }
  }

  /** Inserting behind a log with a smaller key keeps it first, and its key differs from that of `x`. */
  lemma InsertBehindStable(x: Value, v: Value, r: seq<Value>, key: Value -> string, t: string)
    requires !Below(key(v), key(x))
    requires WithKey(InsertDesc(x, r, key), key, t) == (if key(x) == t then [x] else []) + WithKey(r, key, t)
    ensures WithKey(InsertDesc(x, [v] + r, key), key, t) == (if key(x) == t then [x] else []) + WithKey([v] + r, key, t)
  {
    var rest := InsertDesc(x, r, key);
    var mine := if key(x) == t then [x] else [];
    var head := if key(v) == t then [v] else [];
    assert head == [] || mine == [] by {
      BelowReflexive(key(x));
    }
    assert ([v] + r)[0] == v && ([v] + r)[1..] == r;
    assert InsertDesc(x, [v] + r, key) == [v] + rest;
    WithKeyCons(v, rest, key, t);
    WithKeyCons(v, r, key, t);
    SwapEmpty(head, mine, WithKey(r, key, t));
  }

  lemma SwapEmpty(a: seq<Value>, b: seq<Value>, w: seq<Value>)
    requires a == [] || b == []
    ensures a + (b + w) == b + (a + w)
  {
  }

  lemma WithKeyCons(v: Value, r: seq<Value>, key: Value -> string, t: string)
    ensures WithKey([v] + r, key, t) == (if key(v) == t then [v] else []) + WithKey(r, key, t)
  {
    assert ([v] + r)[0] == v && ([v] + r)[1..] == r;
  }

  /** The sort is stable: logs with equal keys keep their original order. */
  lemma {:induction false} SortDescStable(xs: seq<Value>, key: Value -> string, t: string)
    ensures WithKey(SortDesc(xs, key), key, t) == WithKey(xs, key, t)
    decreases |xs|
  {
    if xs != [] {
      SortDescStable(xs[1..], key, t);
      InsertDescStable(xs[0], SortDesc(xs[1..], key), key, t);
    }
  }

  /**
   * The sort as the handler runs it: the key `x.get('timestamp', '')` raises
   * on a log that is not a dict, and comparing keys raises unless they are
   * strings (there is no comparison with fewer than two logs).
   */
  function SortByTimestamp(logs: seq<Value>): Outcome<seq<Value>> {
    if exists i :: 0 <= i < |logs| && !logs[i].Dict? then Raised
    else if |logs| >= 2 && exists i :: 0 <= i < |logs| && !Get(logs[i].fields, "timestamp", Str("")).Str? then Raised
    else Ok(SortDesc(logs, Stamp))
  }

  // ---------------------------------------------------------------------
  // handle_get_logs

  /** The `logs_response` payload, without the week fields. */
  datatype LogsPage = LogsPage(logs: seq<Value>, total: nat, page: int, perPage: int, totalPages: int)

  /** `handle_get_logs` on the logs of the requested type and week: clamp, filter, sort, paginate, count pages. */
  function GetLogs(logs: seq<Value>, f: Filters, page: int, requestedPerPage: int): Outcome<LogsPage> {
    var perPage := PerPage(requestedPerPage);
    var filtered :- FilterLogs(logs, f);
    var sorted :- SortByTimestamp(filtered);
    var pages :- TotalPages(|sorted|, perPage);
    Ok(LogsPage(Paginate(sorted, page, perPage), |sorted|, page, perPage, pages))
  }

  /**
   * A page of `get_logs` is the `page`-th run of the logs that pass every
   * filter, sorted newest first; it holds at most `per_page` logs, itself at
   * most 100, and `total` counts every log that passes.
   */
  lemma GetLogsSpec(logs: seq<Value>, f: Filters, page: int, requestedPerPage: int)
    requires GetLogs(logs, f, page, requestedPerPage).Ok?
    ensures var r := GetLogs(logs, f, page, requestedPerPage).value;
      && r.perPage == PerPage(requestedPerPage)
      && r.total == |Where(logs, PassFilter(f))|
      && r.logs == Paginate(SortDesc(Where(logs, PassFilter(f)), Stamp), page, r.perPage)
      && (page >= 1 && r.perPage > 0 ==> |r.logs| <= r.perPage)
  {
    FilterLogsSpec(logs, f);
    var perPage := PerPage(requestedPerPage);
    var filtered := Where(logs, PassFilter(f));
    assert FilterLogs(logs, f) == Ok(filtered);
    var sorted := SortByTimestamp(filtered).value;
    assert sorted == SortDesc(filtered, Stamp);
    assert |sorted| == |filtered| by {
      assert |multiset(sorted)| == |multiset(filtered)|;
    }
    assert GetLogs(logs, f, page, requestedPerPage).value
      == LogsPage(Paginate(sorted, page, perPage), |sorted|, page, perPage, TotalPages(|sorted|, perPage).value);
    if page >= 1 && perPage > 0 {
      PaginateRange(sorted, page, perPage);
    }
  }

  /** A zero page size is the one request that always fails once filtering and sorting succeed. */
  lemma GetLogsZeroPerPage(logs: seq<Value>, f: Filters, page: int)
    ensures GetLogs(logs, f, page, 0).Raised?
  {
  }

  // ---------------------------------------------------------------------
  // Counting: `counts[k] = counts.get(k, 0) + 1`

  /** One count added for `k`. */
  function Bump<K>(t: map<K, nat>, k: K): map<K, nat> {
    t[k := (if k in t then t[k] else 0) + 1]
  }

  /** The counts dict after the keys went through `Bump` one by one. */
  function Tally<K>(keys: seq<K>): map<K, nat>
    decreases |keys|
  {
    if keys == [] then map[] else Bump(Tally(keys[..|keys| - 1]), keys[|keys| - 1])
  }

  /** Every key seen is counted, nothing else, and its count is how often it occurs. */
  lemma {:induction false} TallyCounts<K>(keys: seq<K>)
    ensures forall k :: k in Tally(keys) <==> k in keys
    ensures forall k :: k in Tally(keys) ==> Tally(keys)[k] == multiset(keys)[k]
    decreases |keys|
  {
    if keys != [] {
      var init, last := keys[..|keys| - 1], keys[|keys| - 1];
      TallyCounts(init);
      assert keys == init + [last];
    }
  }

  /** The sum of a dict's counts. */
  ghost function MapSum<K>(t: map<K, nat>): nat
    decreases |t.Keys|
  {
    if t == map[] then 0
    else
      var k :| k in t;
      assert t.Keys - {k} == (t - {k}).Keys;
      t[k] + MapSum(t - {k})
  }

  lemma {:induction false} MapSumPick<K>(t: map<K, nat>, k: K)
    requires k in t
    ensures MapSum(t) == t[k] + MapSum(t - {k})
    decreases |t.Keys|
  {
    var j :| j in t && MapSum(t) == t[j] + MapSum(t - {j});
    if j != k {
      assert (t - {j}).Keys == t.Keys - {j};
      assert (t - {k}).Keys == t.Keys - {k};
      MapSumPick(t - {j}, k);
      MapSumPick(t - {k}, j);
      assert t - {j} - {k} == t - {k} - {j};
    }
  }

  /** The counts add up to the number of keys counted. */
  lemma {:induction false} TallySum<K>(keys: seq<K>)
    ensures MapSum(Tally(keys)) == |keys|
    decreases |keys|
  {
    if keys != [] {
      var init, k := keys[..|keys| - 1], keys[|keys| - 1];
      TallySum(init);
      var t := Tally(init);
      var u := Bump(t, k);
      MapSumPick(u, k);
      assert u - {k} == t - {k};
      if k in t {
        MapSumPick(t, k);
      } else {
        assert t - {k} == t;
      }
    }
  }

  /** One `{'name': ..., 'count': ...}` item of a sources or levels response. */
  datatype Count = Count(name: string, count: nat)

  function CountsOf(names: seq<string>, t: map<string, nat>): seq<Count>
    requires forall n :: n in names ==> n in t
  {
    if names == [] then [] else [Count(names[0], t[names[0]])] + CountsOf(names[1..], t)
  }

  /** `[{'name': k, 'count': c} for k, c in sorted(t.items())]`. */
  function SortedCounts(t: map<string, nat>): seq<Count> {
    SortedSeqSpec(t.Keys);
    CountsOf(SortedSeq(t.Keys), t)
  }

  function SumCounts(cs: seq<Count>): nat {
    if cs == [] then 0 else cs[0].count + SumCounts(cs[1..])
  }

  lemma {:induction false} CountsOfSum(names: seq<string>, t: map<string, nat>)
    requires forall i, j :: 0 <= i < j < |names| ==> names[i] != names[j]
    requires forall n :: n in names <==> n in t
    ensures SumCounts(CountsOf(names, t)) == MapSum(t)
    decreases |names|
  {
    if names != [] {
      var n := names[0];
      MapSumPick(t, n);
      var u := t - {n};
      forall m | m in names[1..] ensures m != n {
        var i :| 0 <= i < |names[1..]| && names[1..][i] == m;
        assert names[i + 1] == m;
      }
      CountsOfSum(names[1..], u);
      CountsOfSame(names[1..], t, u);
    } else {
      assert t == map[];
    }
  }

  lemma {:induction false} CountsOfSame(names: seq<string>, t: map<string, nat>, u: map<string, nat>)
    requires forall n :: n in names ==> n in t && n in u && t[n] == u[n]
    ensures CountsOf(names, t) == CountsOf(names, u)
    decreases |names|
  {
    if names != [] { CountsOfSame(names[1..], t, u); }
  }

  lemma {:induction false} CountsOfItems(names: seq<string>, t: map<string, nat>)
    requires forall n :: n in names ==> n in t
    ensures |CountsOf(names, t)| == |names|
    ensures forall i :: 0 <= i < |names| ==> CountsOf(names, t)[i] == Count(names[i], t[names[i]])
    decreases |names|
  {
    if names != [] { CountsOfItems(names[1..], t); }
  }

  lemma SortedCountsItems(t: map<string, nat>)
    ensures var cs := SortedCounts(t);
      && (forall i :: 0 <= i < |cs| ==> cs[i].name in t && cs[i].count == t[cs[i].name])
      && (forall i, j :: 0 <= i < j < |cs| ==> Below(cs[i].name, cs[j].name) && cs[i].name != cs[j].name)
  {
    SortedSeqSpec(t.Keys);
    CountsOfItems(SortedSeq(t.Keys), t);
  }

  lemma SortedCountsCover(t: map<string, nat>)
    ensures forall k :: k in t ==> exists i :: 0 <= i < |SortedCounts(t)| && SortedCounts(t)[i].name == k
  {
    var names := SortedSeq(t.Keys);
    SortedSeqSpec(t.Keys);
    CountsOfItems(names, t);
    forall k | k in t ensures exists i :: 0 <= i < |names| && SortedCounts(t)[i].name == k {
      var i :| 0 <= i < |names| && names[i] == k;
      assert SortedCounts(t)[i].name == k;
    }
  }

  lemma SortedCountsTotal(t: map<string, nat>)
    ensures SumCounts(SortedCounts(t)) == MapSum(t)
  {
    SortedSeqSpec(t.Keys);
    CountsOfSum(SortedSeq(t.Keys), t);
  }

  /**
   * The sorted items list names every counted key once, in increasing order,
   * with its count, and the counts add up to the dict's total.
   */
  lemma SortedCountsSpec(t: map<string, nat>)
    ensures var cs := SortedCounts(t);
      && (forall i :: 0 <= i < |cs| ==> cs[i].name in t && cs[i].count == t[cs[i].name])
      && (forall k :: k in t ==> exists i :: 0 <= i < |cs| && cs[i].name == k)
      && (forall i, j :: 0 <= i < j < |cs| ==> Below(cs[i].name, cs[j].name) && cs[i].name != cs[j].name)
      && SumCounts(cs) == MapSum(t)
  {
    SortedCountsItems(t);
    SortedCountsCover(t);
    SortedCountsTotal(t);
  }

  /**
   * What the handlers report about a list of keys: each distinct key once,
   * in increasing order, with the number of times it occurs, the counts
   * adding up to the number of keys.
   */
  lemma ReportCounts(keys: seq<string>)
    ensures var cs := SortedCounts(Tally(keys));
      && (forall i :: 0 <= i < |cs| ==> cs[i].name in keys && cs[i].count == multiset(keys)[cs[i].name])
      && (forall k :: k in keys ==> exists i :: 0 <= i < |cs| && cs[i].name == k)
      && (forall i, j :: 0 <= i < j < |cs| ==> Below(cs[i].name, cs[j].name) && cs[i].name != cs[j].name)
      && SumCounts(cs) == |keys|
  {
    TallyCounts(keys);
    TallySum(keys);
    SortedCountsSpec(Tally(keys));
  }

  // ---------------------------------------------------------------------
  // handle_get_request_stats, handle_get_sources, handle_get_levels

  /** `log.get(k, default)` on a log already known to be a dict. */
  function Field(log: Value, k: string, default: Value): Value {
    if log.Dict? then Get(log.fields, k, default) else default
  }

  /** Only lists and dicts, among JSON values, cannot be dict keys. */
  predicate Hashable(v: Value) {
    !v.List? && !v.Dict?
  }

  /** `f` applied to every log, in order. */
  function Project<K>(logs: seq<Value>, f: Value -> K): (r: seq<K>)
    ensures |r| == |logs|
    decreases |logs|
  {
    if logs == [] then [] else Project(logs[..|logs| - 1], f) + [f(logs[|logs| - 1])]
  }

  lemma {:induction false} WhereSnoc(xs: seq<Value>, x: Value, p: Value -> bool)
    ensures Where(xs + [x], p) == Where(xs, p) + (if p(x) then [x] else [])
    decreases |xs|
  {
    var last := if p(x) then [x] else [];
    if xs == [] {
      assert [x][0] == x && [x][1..] == [];
      assert Where([x], p) == last + Where([], p);
    } else {
      var head := if p(xs[0]) then [xs[0]] else [];
      assert (xs + [x])[0] == xs[0] && (xs + [x])[1..] == xs[1..] + [x];
      assert Where(xs + [x], p) == head + Where(xs[1..] + [x], p);
      WhereSnoc(xs[1..], x, p);
      assert Where(xs, p) == head + Where(xs[1..], p);
    }
  }

  /** The method a request log is counted under. */
  function MethodOf(log: Value): Value {
    Field(log, "method", Str("UNKNOWN"))
  }

  /** `str(log.get('status_code', ''))`. */
  function StatusText(log: Value): string {
    Show(Field(log, "status_code", Str("")))
  }

  /** The leading character of a status text, when it is '2' to '5'. */
  function LeadClass(code: string): Option<char> {
    if code != [] && '2' <= code[0] <= '5' then Some(code[0]) else None
  }

  /** The status class a request log is counted under, if any. */
  function StatusClass(log: Value): Option<char> {
    LeadClass(StatusText(log))
  }

  function ClassIs(cls: Value -> Option<char>, c: char): Value -> bool { log => cls(log) == Some(c) }
  function NoClass(cls: Value -> Option<char>): Value -> bool { log => cls(log) == None }
  function StatusIs(c: char): Value -> bool { ClassIs(StatusClass, c) }
  function Unclassified(): Value -> bool { NoClass(StatusClass) }
  function SourceIs(name: string): Value -> bool { log => Field(log, "source", Null) == Str(name) }

  datatype StatusCounts = StatusCounts(c2xx: nat, c3xx: nat, c4xx: nat, c5xx: nat)

  /** The `by_status` update for one status text: the first bucket whose digit it starts with, if any. */
  function Bucket(b: StatusCounts, code: string): StatusCounts {
    if StartsWith(code, "2") then b.(c2xx := b.c2xx + 1)
    else if StartsWith(code, "3") then b.(c3xx := b.c3xx + 1)
    else if StartsWith(code, "4") then b.(c4xx := b.c4xx + 1)
    else if StartsWith(code, "5") then b.(c5xx := b.c5xx + 1)
    else b
  }

  /** The buckets after every log went through `Bucket`. */
  function Buckets(logs: seq<Value>): StatusCounts
    decreases |logs|
  {
    if logs == [] then StatusCounts(0, 0, 0, 0)
    else Bucket(Buckets(logs[..|logs| - 1]), StatusText(logs[|logs| - 1]))
  }

  lemma BucketClass(b: StatusCounts, code: string)
    ensures var c := LeadClass(code); var r := Bucket(b, code);
      && r.c2xx == b.c2xx + (if c == Some('2') then 1 else 0)
      && r.c3xx == b.c3xx + (if c == Some('3') then 1 else 0)
      && r.c4xx == b.c4xx + (if c == Some('4') then 1 else 0)
      && r.c5xx == b.c5xx + (if c == Some('5') then 1 else 0)
  {
    if code != [] {
      assert StartsWith(code, [code[0]]) by { assert code[..1] == [code[0]]; }
    }
  }

  /** Each bucket counts the logs whose status text starts with its digit. */
  lemma {:induction false} BucketsCount(logs: seq<Value>)
    ensures Buckets(logs) == StatusCounts(|Where(logs, StatusIs('2'))|, |Where(logs, StatusIs('3'))|,
                                          |Where(logs, StatusIs('4'))|, |Where(logs, StatusIs('5'))|)
    decreases |logs|
  {
    if logs != [] {
      var init, last := logs[..|logs| - 1], logs[|logs| - 1];
      BucketsCount(init);
      BucketClass(Buckets(init), StatusText(last));
      assert logs == init + [last];
      forall c | c in "2345"
        ensures StatusIs(c)(last) <==> LeadClass(StatusText(last)) == Some(c)
      {
        assert StatusIs(c)(last) == ClassIs(StatusClass, c)(last);
        assert StatusClass(last) == LeadClass(StatusText(last));
      }
      WhereSnoc(init, last, StatusIs('2'));
      WhereSnoc(init, last, StatusIs('3'));
      WhereSnoc(init, last, StatusIs('4'));
      WhereSnoc(init, last, StatusIs('5'));
    }
  }

  /** The `request_stats_response` payload, without response times and week fields. */
  datatype RequestStats = RequestStats(total: nat, node: nat, python: nat, byMethod: map<Value, nat>, byStatus: StatusCounts)

  /**
   * The request statistics: a log that is not a dict raises in the
   * `by_source` comprehensions, a method that cannot be a dict key raises in
   * the loop.
   */
  function RequestStatsOf(logs: seq<Value>): Outcome<RequestStats> {
    if !AllDicts(logs) || !MethodsHashable(logs) then Raised
    else Ok(RequestStats(|logs|, |Where(logs, SourceIs("node"))|, |Where(logs, SourceIs("python"))|,
                         Tally(Project(logs, MethodOf)), Buckets(logs)))
  }

  /** One more log adds its key to the tally. */
  lemma TallyStep<K>(logs: seq<Value>, i: nat, f: Value -> K)
    requires i < |logs|
    ensures Tally(Project(logs[..i + 1], f)) == Bump(Tally(Project(logs[..i], f)), f(logs[i]))
  {
    assert logs[..i + 1][..i] == logs[..i];
  }

  /** Every log's method can be a dict key. */
  predicate MethodsHashable(logs: seq<Value>) {
    forall j :: 0 <= j < |logs| ==> Hashable(MethodOf(logs[j]))
  }

  /** One more log adds its method to the tally and its status text to the buckets. */
  lemma StatsStep(logs: seq<Value>, i: nat)
    requires i < |logs|
    ensures MethodsHashable(logs[..i + 1]) <==> MethodsHashable(logs[..i]) && Hashable(MethodOf(logs[i]))
    ensures Buckets(logs[..i + 1]) == Bucket(Buckets(logs[..i]), StatusText(logs[i]))
  {
    assert logs[..i + 1][..i] == logs[..i];
  }

  /** The `if`/`elif` chain of the counting loop that files one status text. */
  method CountStatus(b: StatusCounts, code: string) returns (r: StatusCounts)
    ensures r == Bucket(b, code)
  {
    r := b;
    if StartsWith(code, "2") {
      r := r.(c2xx := r.c2xx + 1);
    } else if StartsWith(code, "3") {
      r := r.(c3xx := r.c3xx + 1);
    } else if StartsWith(code, "4") {
      r := r.(c4xx := r.c4xx + 1);
    } else if StartsWith(code, "5") {
      r := r.(c5xx := r.c5xx + 1);
    }
  }

  /** Every log is a dict. */
  predicate AllDicts(logs: seq<Value>) {
    forall j :: 0 <= j < |logs| ==> logs[j].Dict?
  }

  /** `handle_get_request_stats`: the totals, then the counting loop over the request logs. */
  method GetRequestStats(logs: seq<Value>) returns (r: Outcome<RequestStats>)
    ensures r == RequestStatsOf(logs)
  {
    if !AllDicts(logs) {
      return Raised;
    }
    var node, python := |Where(logs, SourceIs("node"))|, |Where(logs, SourceIs("python"))|;
    var counted := CountRequests(logs);
    match counted {
      case Raised => r := Raised;
      case Ok((byMethod, byStatus)) => r := Ok(RequestStats(|logs|, node, python, byMethod, byStatus));
    }
  }

  /** The loop of `handle_get_request_stats`: `by_method` and `by_status` over logs that are all dicts. */
  method CountRequests(logs: seq<Value>) returns (r: Outcome<(map<Value, nat>, StatusCounts)>)
    requires AllDicts(logs)
    ensures r == if MethodsHashable(logs) then Ok((Tally(Project(logs, MethodOf)), Buckets(logs))) else Raised
  {
    var byMethod: map<Value, nat> := map[];
    var byStatus := StatusCounts(0, 0, 0, 0);
    for i := 0 to |logs|
      invariant MethodsHashable(logs[..i])
      invariant byMethod == Tally(Project(logs[..i], MethodOf))
      invariant byStatus == Buckets(logs[..i])
    {
      var log := logs[i];
      assert log.Dict?;
      StatsStep(logs, i);
      TallyStep(logs, i, MethodOf);
      var verb := Get(log.fields, "method", Str("UNKNOWN"));
      if !Hashable(verb) {
        assert !MethodsHashable(logs) by { assert logs[i] == log; }
        return Raised;
      }
      assert verb == MethodOf(log);
      byMethod := byMethod[verb := (if verb in byMethod then byMethod[verb] else 0) + 1];
      var code := Show(Get(log.fields, "status_code", Str("")));
      assert code == StatusText(log);
      byStatus := CountStatus(byStatus, code);
    }
    assert logs[..|logs|] == logs;
    r := Ok((byMethod, byStatus));
  }

  /** A classifier into '2' to '5' or nothing splits the logs into five disjoint groups. */
  lemma {:induction false} ClassPartition(logs: seq<Value>, cls: Value -> Option<char>)
    requires forall x :: cls(x).Some? ==> '2' <= cls(x).value <= '5'
    ensures |Where(logs, ClassIs(cls, '2'))| + |Where(logs, ClassIs(cls, '3'))| + |Where(logs, ClassIs(cls, '4'))|
          + |Where(logs, ClassIs(cls, '5'))| + |Where(logs, NoClass(cls))| == |logs|
    decreases |logs|
  {
    if logs != [] {
      ClassPartition(logs[1..], cls);
      var x, rest := logs[0], logs[1..];
      WhereLength(logs, ClassIs(cls, '2'));
      WhereLength(logs, ClassIs(cls, '3'));
      WhereLength(logs, ClassIs(cls, '4'));
      WhereLength(logs, ClassIs(cls, '5'));
      WhereLength(logs, NoClass(cls));
      assert cls(x) == None || cls(x) == Some('2') || cls(x) == Some('3') || cls(x) == Some('4') || cls(x) == Some('5');
    }
  }

  lemma WhereLength(logs: seq<Value>, p: Value -> bool)
    requires logs != []
    ensures |Where(logs, p)| == (if p(logs[0]) then 1 else 0) + |Where(logs[1..], p)|
  {
  }

  lemma {:induction false} DisjointCounts(logs: seq<Value>, p: Value -> bool, q: Value -> bool)
    requires forall x :: !(p(x) && q(x))
    ensures |Where(logs, p)| + |Where(logs, q)| <= |logs|
    decreases |logs|
  {
    if logs != [] {
      DisjointCounts(logs[1..], p, q);
    }
  }

  /** The four status buckets and the logs without a 2xx-5xx status account for every log once. */
  lemma BucketsPartition(logs: seq<Value>)
    ensures var b := Buckets(logs);
      b.c2xx + b.c3xx + b.c4xx + b.c5xx + |Where(logs, Unclassified())| == |logs|
  {
    BucketsCount(logs);
    ClassPartition(logs, StatusClass);
  }

  /**
   * Every request log is counted under exactly one method, so the method
   * counts add up to the total, each being the number of logs with that
   * method; the status buckets and the logs without a 2-5 status partition
   * the logs; node and python logs are counted apart.
   */
  lemma RequestStatsSpec(logs: seq<Value>)
    requires RequestStatsOf(logs).Ok?
    ensures var st := RequestStatsOf(logs).value;
      && MapSum(st.byMethod) == st.total == |logs|
      && (forall m :: m in st.byMethod <==> m in Project(logs, MethodOf))
      && (forall m :: m in st.byMethod ==> st.byMethod[m] == multiset(Project(logs, MethodOf))[m])
      && st.byStatus.c2xx + st.byStatus.c3xx + st.byStatus.c4xx + st.byStatus.c5xx
         + |Where(logs, Unclassified())| == st.total
      && st.node + st.python <= st.total
  {
    TallySum(Project(logs, MethodOf));
    TallyCounts(Project(logs, MethodOf));
    BucketsPartition(logs);
    DisjointCounts(logs, SourceIs("node"), SourceIs("python"));
  }

  /** The name a log is counted under in the sources response. */
  function SourceOf(log: Value): Value {
    Field(log, "source", Str("unknown"))
  }

  function SourceKey(log: Value): string {
    if SourceOf(log).Str? then SourceOf(log).s else ""
  }

  /**
   * The sources response: a log that is not a dict raises, and a source
   * that is not a string is taken to raise (see the README).
   */
  function SourcesOf(logs: seq<Value>): Outcome<seq<Count>> {
    if exists i :: 0 <= i < |logs| && (!logs[i].Dict? || !SourceOf(logs[i]).Str?) then Raised
    else Ok(SortedCounts(Tally(Project(logs, SourceKey))))
  }

  /** Every log is a dict whose source is a string. */
  predicate SourcesCountable(logs: seq<Value>) {
    forall j :: 0 <= j < |logs| ==> logs[j].Dict? && SourceOf(logs[j]).Str?
  }

  lemma SourcesCountableStep(logs: seq<Value>, i: nat)
    requires i < |logs|
    ensures SourcesCountable(logs[..i + 1]) <==> SourcesCountable(logs[..i]) && logs[i].Dict? && SourceOf(logs[i]).Str?
  {
    assert logs[..i + 1][..i] == logs[..i];
  }

  /** `handle_get_sources`: counts per `log.get('source', 'unknown')`, then sorted items. */
  method GetSources(logs: seq<Value>) returns (r: Outcome<seq<Count>>)
    ensures r == SourcesOf(logs)
  {
    var sources: map<string, nat> := map[];
    for i := 0 to |logs|
      invariant SourcesCountable(logs[..i])
      invariant sources == Tally(Project(logs[..i], SourceKey))
    {
      var log := logs[i];
      SourcesCountableStep(logs, i);
      TallyStep(logs, i, SourceKey);
      if !log.Dict? {
        return Raised;
      }
      var source := Get(log.fields, "source", Str("unknown"));
      if !source.Str? {
        return Raised;
      }
      assert source == SourceOf(log);
      sources := sources[source.s := (if source.s in sources then sources[source.s] else 0) + 1];
    }
    assert logs[..|logs|] == logs;
    assert SourcesCountable(logs);
    r := Ok(SortedCounts(sources));
  }

  /** The sources response names each source once, sorted, with its number of logs; the counts add up to all logs. */
  lemma SourcesSpec(logs: seq<Value>)
    requires SourcesOf(logs).Ok?
    ensures var cs := SourcesOf(logs).value;
      && SumCounts(cs) == |logs|
      && (forall i :: 0 <= i < |cs| ==> cs[i].count == multiset(Project(logs, SourceKey))[cs[i].name])
      && (forall i, j :: 0 <= i < j < |cs| ==> Below(cs[i].name, cs[j].name) && cs[i].name != cs[j].name)
  {
    ReportCounts(Project(logs, SourceKey));
  }

  /** The name a log is counted under in the levels response, when its level is a string. */
  function LevelKey(log: Value): string {
    var v := Field(log, "level", Str("unknown"));
    if v.Str? then Lower(v.s) else ""
  }

  /** The levels response: a log that is not a dict, or a level that is not a string, raises. */
  function LevelsOf(logs: seq<Value>): Outcome<seq<Count>> {
    if exists i :: 0 <= i < |logs| && (!logs[i].Dict? || !Field(logs[i], "level", Str("unknown")).Str?) then Raised
    else Ok(SortedCounts(Tally(Project(logs, LevelKey))))
  }

  /** Every log is a dict whose level is a string. */
  predicate LevelsCountable(logs: seq<Value>) {
    forall j :: 0 <= j < |logs| ==> logs[j].Dict? && Field(logs[j], "level", Str("unknown")).Str?
  }

  lemma LevelsCountableStep(logs: seq<Value>, i: nat)
    requires i < |logs|
    ensures LevelsCountable(logs[..i + 1]) <==> LevelsCountable(logs[..i]) && logs[i].Dict? && Field(logs[i], "level", Str("unknown")).Str?
  {
    assert logs[..i + 1][..i] == logs[..i];
  }

  /** `handle_get_levels`: counts per lowercased `log.get('level', 'unknown')`, then sorted items. */
  method GetLevels(logs: seq<Value>) returns (r: Outcome<seq<Count>>)
    ensures r == LevelsOf(logs)
  {
    var levels: map<string, nat> := map[];
    for i := 0 to |logs|
      invariant LevelsCountable(logs[..i])
      invariant levels == Tally(Project(logs[..i], LevelKey))
    {
      var log := logs[i];
      LevelsCountableStep(logs, i);
      TallyStep(logs, i, LevelKey);
      if !log.Dict? {
        return Raised;
      }
      var value := Get(log.fields, "level", Str("unknown"));
      if !value.Str? {
        return Raised;
      }
      var level := Lower(value.s);
      assert level == LevelKey(log);
      levels := levels[level := (if level in levels then levels[level] else 0) + 1];
    }
    assert logs[..|logs|] == logs;
    assert LevelsCountable(logs);
    r := Ok(SortedCounts(levels));
  }

  /**
   * The levels response names each lowercased level once, sorted, with its
   * number of logs; the counts add up to all logs.
   */
  lemma LevelsSpec(logs: seq<Value>)
    requires LevelsOf(logs).Ok?
    ensures var cs := LevelsOf(logs).value;
      && SumCounts(cs) == |logs|
      && (forall i :: 0 <= i < |cs| ==> cs[i].count == multiset(Project(logs, LevelKey))[cs[i].name])
      && (forall i :: 0 <= i < |cs| ==> cs[i].name == Lower(cs[i].name))
      && (forall i, j :: 0 <= i < j < |cs| ==> Below(cs[i].name, cs[j].name) && cs[i].name != cs[j].name)
  {
    ReportCounts(Project(logs, LevelKey));
    LevelKeysLower(logs);
  }

  /** Every level key is already lowercase. */
  lemma {:induction false} LevelKeysLower(logs: seq<Value>)
    ensures forall k :: k in Project(logs, LevelKey) ==> k == Lower(k)
    decreases |logs|
  {
    if logs != [] {
      var last := logs[|logs| - 1];
      LevelKeysLower(logs[..|logs| - 1]);
      var v := Field(last, "level", Str("unknown"));
      if v.Str? {
        LowerIdempotent(v.s);
      }
    }
  }
}
