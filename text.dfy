/**
 * The string operations of Python's `str` that the log pipelines rely on:
 * `in`, `startswith`/`endswith`, `lower`, `strip`, `isdigit`, `replace`,
 * `split(...)[-1]`, `'|'.join`, `os.path.basename`, line splitting of a
 * text file, and the fixed-position searches that stand in for `re.search`.
 */
module Text {
  import opened Wrappers

  // ---------------------------------------------------------------------
  // Character classes

  /** `str.isspace()` of one character (Unicode White_Space as Python counts it). */
  predicate IsSpace(c: char) {
    c == ' ' || '\t' <= c <= '\r' || '\U{1C}' <= c <= '\U{1F}' || c == '\U{85}' || c == '\U{A0}'
    || c == '\U{1680}' || '\U{2000}' <= c <= '\U{200A}' || c == '\U{2028}' || c == '\U{2029}'
    || c == '\U{202F}' || c == '\U{205F}' || c == '\U{3000}'
  }

  /** The regex class `\d`, restricted to ASCII digits. */
  predicate IsDigit(c: char) { '0' <= c <= '9' }

  /** The regex class `\w`, restricted to ASCII letters, digits and `_`. */
  predicate IsWordChar(c: char) {
    'a' <= c <= 'z' || 'A' <= c <= 'Z' || IsDigit(c) || c == '_'
  }

  /** A line break of a text file read in universal-newline mode. */
  predicate IsNewline(c: char) { c == '\n' || c == '\r' }

  /** `s.isdigit()`: non-empty and every character a digit. */
  predicate AllDigits(s: string) {
    s != [] && forall i :: 0 <= i < |s| ==> IsDigit(s[i])
  }

  function LowerChar(c: char): char {
    if 'A' <= c <= 'Z' then (c as int + 32) as char else c
  }

  /** `s.lower()` on ASCII letters. */
  function Lower(s: string): (r: string)
    ensures |r| == |s|
    ensures forall i :: 0 <= i < |s| ==> r[i] == LowerChar(s[i])
  {
    seq(|s|, i requires 0 <= i < |s| => LowerChar(s[i]))
  }

  lemma LowerIdempotent(s: string)
    ensures Lower(Lower(s)) == Lower(s)
  {
    assert forall i :: 0 <= i < |s| ==> Lower(Lower(s))[i] == Lower(s)[i];
  }

  // ---------------------------------------------------------------------
  // Substrings

  /** `sub` occurs in `s` starting at index `i`. */
  predicate OccursAt(s: string, sub: string, i: int) {
    0 <= i && i + |sub| <= |s| && s[i..i + |sub|] == sub
  }

  /** The leftmost index at or after `from` where `sub` occurs, as `str.find` computes it. */
  function FindFrom(s: string, sub: string, from: nat): (r: Option<nat>)
    requires from <= |s|
    ensures r.Some? ==> from <= r.value && OccursAt(s, sub, r.value)
    ensures r.Some? ==> forall j :: from <= j < r.value ==> !OccursAt(s, sub, j)
    ensures r.None? ==> forall j :: from <= j ==> !OccursAt(s, sub, j)
    decreases |s| - from
  {
    if sub <= s[from..] then
      assert s[from..][..|sub|] == s[from..from + |sub|];
      Some(from)
    else if from == |s| then
      None
    else
      FindFrom(s, sub, from + 1)
  }

  /** Two texts occurring one after the other occur together. */
  lemma OccursAtConcat(s: string, x: string, y: string, k: nat)
    requires OccursAt(s, x, k) && OccursAt(s, y, k + |x|)
    ensures OccursAt(s, x + y, k)
  {
    assert s[k..k + |x| + |y|] == s[k..k + |x|] + s[k + |x|..k + |x| + |y|];
  }

  /** A text occurring at `k` is its two parts occurring one after the other. */
  lemma OccursAtSplit(s: string, x: string, y: string, k: nat)
    requires OccursAt(s, x + y, k)
    ensures OccursAt(s, x, k) && OccursAt(s, y, k + |x|)
  {
    assert s[k..k + |x|] == (x + y)[..|x|];
    assert s[k + |x|..k + |x| + |y|] == (x + y)[|x|..];
  }

  /** Python's `sub in s`. */
  predicate Contains(s: string, sub: string) {
    FindFrom(s, sub, 0).Some?
  }

  lemma ContainsIff(s: string, sub: string)
    ensures Contains(s, sub) <==> exists i :: OccursAt(s, sub, i)
  {
  }

  lemma ContainsAt(s: string, sub: string, i: int)
    requires OccursAt(s, sub, i)
    ensures Contains(s, sub)
  {
  }

  /** `s.startswith(p)`. */
  predicate StartsWith(s: string, p: string) { p <= s }

  /** `s.endswith(p)`. */
  predicate EndsWith(s: string, p: string) {
    |p| <= |s| && s[|s| - |p|..] == p
  }

  // ---------------------------------------------------------------------
  // Stripping

  function TrimStart(s: string): string
    decreases |s|
  {
    if s != [] && IsSpace(s[0]) then TrimStart(s[1..]) else s
  }

  function TrimEnd(s: string): string
    decreases |s|
  {
    if s != [] && IsSpace(s[|s| - 1]) then TrimEnd(s[..|s| - 1]) else s
  }

  /** `s.strip()`: leading and trailing white space removed. */
  function Strip(s: string): string {
    TrimEnd(TrimStart(s))
  }

  lemma {:induction false} TrimStartSpec(s: string)
    ensures |TrimStart(s)| <= |s| && TrimStart(s) == s[|s| - |TrimStart(s)|..]
    ensures forall i :: 0 <= i < |s| - |TrimStart(s)| ==> IsSpace(s[i])
    ensures TrimStart(s) == [] || !IsSpace(TrimStart(s)[0])
    decreases |s|
  {
    if s != [] && IsSpace(s[0]) {
      TrimStartSpec(s[1..]);
    }
  }

  lemma {:induction false} TrimEndSpec(s: string)
    ensures |TrimEnd(s)| <= |s| && TrimEnd(s) == s[..|TrimEnd(s)|]
    ensures forall i :: |TrimEnd(s)| <= i < |s| ==> IsSpace(s[i])
    ensures TrimEnd(s) == [] || !IsSpace(TrimEnd(s)[|TrimEnd(s)| - 1])
    decreases |s|
  {
    if s != [] && IsSpace(s[|s| - 1]) {
      TrimEndSpec(s[..|s| - 1]);
    }
  }

  /** A stripped string neither starts nor ends with white space. */
  lemma StripEnds(s: string)
    ensures Strip(s) == [] || (!IsSpace(Strip(s)[0]) && !IsSpace(Strip(s)[|Strip(s)| - 1]))
  {
    var t := TrimStart(s);
    TrimStartSpec(s);
    TrimEndSpec(t);
    if TrimEnd(t) != [] {
      assert TrimEnd(t)[0] == t[0];
    }
  }

  /** `s.strip(c)` for a single character `c`. */
  function StripChar(s: string, c: char): (r: string)
    ensures |r| <= |s|
    ensures r == [] || (r[0] != c && r[|r| - 1] != c)
    decreases |s|
  {
    if s == [] then s
    else if s[0] == c then StripChar(s[1..], c)
    else if s[|s| - 1] == c then StripChar(s[..|s| - 1], c)
    else s
  }

  // ---------------------------------------------------------------------
  // Splitting, joining, replacing

  /** `s.split(c)[-1]`: the text after the last `c`, or all of `s`. */
  function AfterLast(s: string, c: char): (r: string)
    ensures |r| <= |s| && r == s[|s| - |r|..]
    ensures c !in r
    ensures |r| == |s| || s[|s| - |r| - 1] == c
    decreases |s|
  {
    if s == [] then []
    else if s[|s| - 1] == c then []
    else AfterLast(s[..|s| - 1], c) + [s[|s| - 1]]
  }

  /** The text after a last `c` is what follows it. */
  lemma {:induction false} AfterLastAppend(a: string, c: char, b: string)
    requires c !in b
    ensures AfterLast(a + [c] + b, c) == b
    decreases |b|
  {
    var s := a + [c] + b;
    if b != [] {
      var b' := b[..|b| - 1];
      assert s[..|s| - 1] == a + [c] + b';
      AfterLastAppend(a, c, b');
      assert b == b' + [b[|b| - 1]];
    }
  }

  /** A string without `c` is its own text after the last `c`. */
  lemma {:induction false} AfterLastNone(b: string, c: char)
    requires c !in b
    ensures AfterLast(b, c) == b
    decreases |b|
  {
    if b != [] {
      var b' := b[..|b| - 1];
      AfterLastNone(b', c);
      assert b == b' + [b[|b| - 1]];
    }
  }

  /** `os.path.basename(p)` for POSIX paths. */
  function Basename(p: string): string {
    AfterLast(p, '/')
  }

  /** `s.replace(pat, rep)`: every non-overlapping occurrence, left to right. */
  function ReplaceAll(s: string, pat: string, rep: string): string
    requires pat != []
    decreases |s|
  {
    if s == [] then []
    else if pat <= s then rep + ReplaceAll(s[|pat|..], pat, rep)
    else [s[0]] + ReplaceAll(s[1..], pat, rep)
  }

  /** Replacing a pattern that does not occur changes nothing. */
  lemma {:induction false} ReplaceAllAbsent(s: string, pat: string, rep: string)
    requires pat != [] && !Contains(s, pat)
    ensures ReplaceAll(s, pat, rep) == s
    decreases |s|
  {
    if s != [] {
      AbsentTail(s, pat);
      ReplaceAllAbsent(s[1..], pat, rep);
      assert s == [s[0]] + s[1..];
    }
  }

  /** A pattern absent from `s` neither starts it nor occurs after its first character. */
  lemma AbsentTail(s: string, pat: string)
    requires pat != [] && s != [] && !Contains(s, pat)
    ensures !(pat <= s) && !Contains(s[1..], pat)
  {
    if pat <= s {
      ContainsAt(s, pat, 0);
    }
    if Contains(s[1..], pat) {
      ContainsIff(s[1..], pat);
      var i :| OccursAt(s[1..], pat, i);
      assert s[1..][i..i + |pat|] == s[i + 1..i + 1 + |pat|];
      ContainsAt(s, pat, i + 1);
    }
  }

  /** `sep.join(parts)`. */
  function Join(sep: string, parts: seq<string>): string {
    if parts == [] then []
    else if |parts| == 1 then parts[0]
    else parts[0] + sep + Join(sep, parts[1..])
  }

  /** The index of the first `c` in `s`, or `|s|` when there is none. */
  function IndexOf(s: string, c: char): (r: nat)
    ensures r <= |s|
    ensures r < |s| ==> s[r] == c
    ensures forall i :: 0 <= i < r ==> s[i] != c
    decreases |s|
  {
    if s == [] || s[0] == c then 0 else 1 + IndexOf(s[1..], c)
  }

  /** The first `c` after a part free of `c` is the one that ends the part. */
  lemma IndexOfAfterPart(p: string, c: char, x: string)
    requires c !in p
    ensures IndexOf(p + [c] + x, c) == |p|
  {
    var s := p + [c] + x;
    var k := IndexOf(s, c);
    assert s[|p|] == c;
  }

  /** `sep.join(parts)` can be undone when the one-character separator occurs in no part. */
  lemma {:induction false} JoinInjective(sep: char, a: seq<string>, b: seq<string>)
    requires |a| == |b|
    requires forall i :: 0 <= i < |a| ==> sep !in a[i] && sep !in b[i]
    requires Join([sep], a) == Join([sep], b)
    ensures a == b
    decreases |a|
  {
    if |a| > 1 {
      var s := Join([sep], a);
      assert s == a[0] + [sep] + Join([sep], a[1..]);
      assert s == b[0] + [sep] + Join([sep], b[1..]);
      IndexOfAfterPart(a[0], sep, Join([sep], a[1..]));
      IndexOfAfterPart(b[0], sep, Join([sep], b[1..]));
      assert a[0] == s[..|a[0]|] == b[0];
      assert Join([sep], a[1..]) == s[|a[0]| + 1..] == Join([sep], b[1..]);
      JoinInjective(sep, a[1..], b[1..]);
      assert a == [a[0]] + a[1..] && b == [b[0]] + b[1..];
    }
  }

  /** The number of times `c` occurs in `s`. */
  function CountChar(s: string, c: char): nat {
    if s == [] then 0 else (if s[0] == c then 1 else 0) + CountChar(s[1..], c)
  }

  lemma {:induction false} CountCharAppend(a: string, b: string, c: char)
    ensures CountChar(a + b, c) == CountChar(a, c) + CountChar(b, c)
  {
    if a != [] {
      assert (a + b)[1..] == a[1..] + b;
      CountCharAppend(a[1..], b, c);
    } else {
      assert a + b == b;
    }
  }

  /** `s` when `on` holds, the empty string otherwise. */
  function Optional(on: bool, s: string): (r: string)
    ensures r == [] <==> !on || s == []
  {
    if on then s else ""
  }

  /** The occurrences of `?` in a text assembled from counted, optional pieces add up. */
  lemma CountCharPieces(head: string, conds: seq<string>, tail: string, x: bool, y: bool, z: bool)
    requires |conds| == 3 && CountChar(head, '?') == 0 && CountChar(tail, '?') == 1
    requires forall k :: 0 <= k < 3 ==> CountChar(conds[k], '?') == 1
    ensures CountChar(head + Optional(x, conds[0]) + Optional(y, conds[1]) + Optional(z, conds[2]) + tail, '?')
            == (if x then 1 else 0) + (if y then 1 else 0) + (if z then 1 else 0) + 1
  {
    var a, b, c := Optional(x, conds[0]), Optional(y, conds[1]), Optional(z, conds[2]);
    assert CountChar(a, '?') == (if x then 1 else 0);
    assert CountChar(b, '?') == (if y then 1 else 0);
    assert CountChar(c, '?') == (if z then 1 else 0);
    CountCharAppend(head + a + b + c, tail, '?');
    CountCharAppend(head + a + b, c, '?');
    CountCharAppend(head + a, b, '?');
    CountCharAppend(head, a, '?');
  }

  // ---------------------------------------------------------------------
  // Numbers

  function DigitChar(d: nat): char
    requires d < 10
  {
    ['0', '1', '2', '3', '4', '5', '6', '7', '8', '9'][d]
  }

  /** `str(n)` for a natural number. */
  function NatToString(n: nat): (r: string)
    ensures AllDigits(r)
    decreases n
  {
    if n < 10 then [DigitChar(n)] else NatToString(n / 10) + [DigitChar(n % 10)]
  }

  /** `str(n)` for an integer. */
  function IntToString(n: int): string {
    if n < 0 then "-" + NatToString(-n) else NatToString(n)
  }

  /** `"%02d" % n`: at least two digits, zero-padded. */
  function Pad2(n: nat): (r: string)
    ensures n < 100 ==> |r| == 2
    ensures AllDigits(r)
  {
    if n < 10 then ['0', DigitChar(n)]
    else if n < 100 then [DigitChar(n / 10), DigitChar(n % 10)]
    else NatToString(n)
  }

  /** The value of a string of ASCII digits. */
  function DigitsValue(s: string): nat
    requires forall i :: 0 <= i < |s| ==> IsDigit(s[i])
    decreases |s|
  {
    if s == [] then 0
    else
      assert IsDigit(s[|s| - 1]);
      DigitsValue(s[..|s| - 1]) * 10 + (s[|s| - 1] as int - '0' as int)
  }

  /**
   * The greedy run of digits starting at `j` (what `(\d+)` or `(\d*)`
   * captures there).
   */
  function DigitRun(s: string, j: nat): (r: string)
    requires j <= |s|
    ensures j + |r| <= |s| && r == s[j..j + |r|]
    ensures forall i :: 0 <= i < |r| ==> IsDigit(r[i])
    ensures j + |r| == |s| || !IsDigit(s[j + |r|])
    decreases |s| - j
  {
    if j < |s| && IsDigit(s[j]) then [s[j]] + DigitRun(s, j + 1) else []
  }

  /** Every character of `s` is in the class `p`. */
  predicate Every(s: string, p: char -> bool) {
    forall i :: 0 <= i < |s| ==> p(s[i])
  }

  lemma EveryAppend(a: string, b: string, p: char -> bool)
    ensures Every(a + b, p) <==> Every(a, p) && Every(b, p)
  {
    if Every(a, p) && Every(b, p) {
      forall i | 0 <= i < |a + b|
        ensures p((a + b)[i])
      {
        if i >= |a| {
          assert (a + b)[i] == b[i - |a|];
        }
      }
    }
    if Every(a + b, p) {
      forall i | 0 <= i < |a|
        ensures p(a[i])
      {
        assert (a + b)[i] == a[i];
      }
      forall i | 0 <= i < |b|
        ensures p(b[i])
      {
        assert (a + b)[|a| + i] == b[i];
      }
    }
  }

  /** A shorter slice from the same start of a text of class `p` is of class `p`. */
  lemma EverySlice(s: string, lo: nat, mid: nat, hi: nat, p: char -> bool)
    requires lo <= mid <= hi <= |s| && Every(s[lo..hi], p)
    ensures Every(s[lo..mid], p)
  {
    forall i | 0 <= i < mid - lo
      ensures p(s[lo..mid][i])
    {
      assert s[lo..mid][i] == s[lo..hi][i];
    }
  }

  /** Three texts side by side at `k` make their concatenation at `k`. */
  lemma OccursAtConcat3(s: string, x: string, y: string, z: string, k: nat)
    requires OccursAt(s, x, k) && OccursAt(s, y, k + |x|) && OccursAt(s, z, k + |x| + |y|)
    ensures OccursAt(s, x + y + z, k)
  {
    OccursAtConcat(s, x, y, k);
    OccursAtConcat(s, x + y, z, k);
  }

  /**
   * The greedy run of characters of class `p` starting at `j`: what a
   * pattern `([...]+)` or `(\w+)` captures there before anything after it
   * is tried.
   */
  function Run(s: string, j: nat, p: char -> bool): (r: string)
    requires j <= |s|
    ensures j + |r| <= |s|
    decreases |s| - j
  {
    if j < |s| && p(s[j]) then [s[j]] + Run(s, j + 1, p) else []
  }

  /** The run is the text at `j`, of class `p`, and stops at the end or before a character outside `p`. */
  lemma {:induction false} RunSpec(s: string, j: nat, p: char -> bool)
    requires j <= |s|
    ensures var r := Run(s, j, p);
      && r == s[j..j + |r|] && Every(r, p)
      && (j + |r| == |s| || !p(s[j + |r|]))
    decreases |s| - j
  {
    if j < |s| && p(s[j]) {
      RunSpec(s, j + 1, p);
      var r := Run(s, j + 1, p);
      assert Run(s, j, p) == [s[j]] + r;
      assert s[j..j + 1 + |r|] == [s[j]] + s[j + 1..j + 1 + |r|];
    }
  }

  /** A run starting on a character of class `p` is not empty. */
  lemma RunNonEmpty(s: string, j: nat, p: char -> bool)
    requires j < |s| && p(s[j])
    ensures Run(s, j, p) != []
  {
    assert Run(s, j, p) == [s[j]] + Run(s, j + 1, p);
  }

  /** A run is determined by where it stops: a text of class `p` followed by the end or by a character outside `p`. */
  lemma {:induction false} RunExact(s: string, j: nat, p: char -> bool, w: string)
    requires j + |w| <= |s| && s[j..j + |w|] == w && Every(w, p)
    requires j + |w| == |s| || !p(s[j + |w|])
    ensures Run(s, j, p) == w
    decreases |w|
  {
    if w != [] {
      assert s[j] == w[0];
      assert s[j + 1..j + 1 + |w[1..]|] == w[1..];
      RunExact(s, j + 1, p, w[1..]);
    }
  }

  /** A template character: `D` a digit, `S` the separator `[\sT]`, anything else itself. */
  predicate FitsTemplate(c: char, t: char) {
    if t == 'D' then IsDigit(c) else if t == 'S' then IsSpace(c) || c == 'T' else c == t
  }

  /** `s` fits the template `t` character by character. */
  predicate FitsTemplateText(s: string, t: string) {
    |s| == |t| && forall k :: 0 <= k < |t| ==> FitsTemplate(s[k], t[k])
  }

  // ---------------------------------------------------------------------
  // Leftmost search, the way `re.search` scans candidate start positions

  /**
   * The smallest position `k` in `from..|s|` at which `p(s, k)` holds.
   * Every hand-written pattern of the model is searched with it.
   */
  function FirstWhere(s: string, from: nat, p: (string, nat) -> bool): (r: Option<nat>)
    requires from <= |s|
    ensures r.Some? ==> from <= r.value <= |s| && p(s, r.value)
    ensures r.Some? ==> forall k :: from <= k < r.value ==> !p(s, k)
    ensures r.None? ==> forall k :: from <= k <= |s| ==> !p(s, k)
    decreases |s| - from
  {
    if p(s, from) then Some(from)
    else if from == |s| then None
    else FirstWhere(s, from + 1, p)
  }

  /**
   * The largest position `k` in `lo + 1..hi` at which `p(s, k)` holds: where
   * a greedy `(.+)` that starts at `lo` and may run up to `hi` stops once
   * what follows it matches.
   */
  function LastWhere(s: string, lo: nat, hi: nat, p: (string, nat) -> bool): (r: Option<nat>)
    ensures r.Some? ==> lo < r.value <= hi && p(s, r.value)
    decreases hi
  {
    if hi <= lo then None
    else if p(s, hi) then Some(hi)
    else LastWhere(s, lo, hi - 1, p)
  }

  /** Nothing after the position found satisfies `p`; nothing found means nothing in `(lo, hi]` does. */
  lemma {:induction false} LastWhereSpec(s: string, lo: nat, hi: nat, p: (string, nat) -> bool)
    ensures var r := LastWhere(s, lo, hi, p);
      && (r.Some? ==> forall k :: r.value < k <= hi ==> !p(s, k))
      && (r.None? ==> forall k :: lo < k <= hi ==> !p(s, k))
    decreases hi
  {
    if hi > lo && !p(s, hi) {
      LastWhereSpec(s, lo, hi - 1, p);
    }
  }

  /** The position found is `m` when `p` holds at `m` and nowhere after it up to `hi`. */
  lemma {:induction false} LastWhereIs(s: string, lo: nat, hi: nat, p: (string, nat) -> bool, m: nat)
    requires lo < m <= hi && p(s, m)
    requires forall k :: m < k <= hi ==> !p(s, k)
    ensures LastWhere(s, lo, hi, p) == Some(m)
    decreases hi
  {
    if hi > m {
      LastWhereIs(s, lo, hi - 1, p, m);
    }
  }

  // ---------------------------------------------------------------------
  // Lines of a text file

  /** The index of the first line break in `s`, or `|s|`. */
  function LineEnd(s: string): (k: nat)
    ensures k <= |s|
    ensures k < |s| ==> IsNewline(s[k])
    decreases |s|
  {
    if s == [] then 0 else if IsNewline(s[0]) then 0 else 1 + LineEnd(s[1..])
  }

  /**
   * The lines of `s` that are not blank, each stripped: what
   * `for line in f.readlines(): line = line.strip(); if line: ...`
   * visits, in file order. A `\r\n` pair yields an empty piece, which is
   * blank and so dropped, exactly as universal-newline reading folds it.
   */
  function NonBlankLines(s: string): (r: seq<string>)
    decreases |s|
  {
    var k := LineEnd(s);
    var piece := Strip(s[..k]);
    (if piece == [] then [] else [piece]) + (if k < |s| then NonBlankLines(s[k + 1..]) else [])
  }

  /** A file holding one line that is already stripped reads back as that line. */
  lemma SingleLine(x: string)
    requires x != [] && Strip(x) == x
    requires forall i :: 0 <= i < |x| ==> !IsNewline(x[i])
    ensures NonBlankLines(x + "\n") == [x]
  {
    var s := x + "\n";
    LineEndIs(s, |x|);
    var k := LineEnd(s);
    assert s[|x|] == '\n';
    assert s[..k] == x;
    assert s[k + 1..] == [];
    assert NonBlankLines([]) == [];
  }

  /** Every line `NonBlankLines` keeps is non-empty and already stripped. */
  lemma {:induction false} NonBlankLinesItems(s: string)
    ensures forall i :: 0 <= i < |NonBlankLines(s)| ==>
      NonBlankLines(s)[i] != [] && Strip(NonBlankLines(s)[i]) == NonBlankLines(s)[i]
    decreases |s|
  {
    var k := LineEnd(s);
    StripIdempotent(s[..k]);
    if k < |s| {
      NonBlankLinesItems(s[k + 1..]);
    }
  }

  /** A text that neither starts nor ends with white space is its own strip. */
  lemma StripUnchanged(s: string)
    requires s != [] && !IsSpace(s[0]) && !IsSpace(s[|s| - 1])
    ensures Strip(s) == s
  {
  }

  lemma StripIdempotent(s: string)
    ensures Strip(Strip(s)) == Strip(s)
  {
    var r := Strip(s);
    StripEnds(s);
    if r != [] {
      assert TrimStart(r) == r;
      assert TrimEnd(r) == r;
    }
  }

  /**
   * Reading a file in two pieces split at a line boundary yields the same
   * lines as reading it at once: the first piece is empty or ends with a
   * line break.
   */
  lemma {:induction false} NonBlankLinesAppend(a: string, b: string)
    requires a == [] || IsNewline(a[|a| - 1])
    ensures NonBlankLines(a + b) == NonBlankLines(a) + NonBlankLines(b)
    decreases |a|
  {
    if a == [] {
      NoLinesInEmpty();
      assert a + b == b;
    } else {
      TailEndsLine(a);
      var tail := a[LineEnd(a) + 1..];
      NonBlankLinesAppend(tail, b);
      NonBlankLinesAppendStep(a, b);
    }
  }

  /** An empty file has no lines. */
  lemma NoLinesInEmpty()
    ensures NonBlankLines([]) == []
  {
    assert LineEnd([]) == 0;
  }

  /** What follows the first line break of a text ending in one also ends in one, or is empty. */
  lemma TailEndsLine(a: string)
    requires a != [] && IsNewline(a[|a| - 1])
    ensures LineEnd(a) < |a|
    ensures var tail := a[LineEnd(a) + 1..]; tail == [] || IsNewline(tail[|tail| - 1])
  {
    LineEndAtMost(a, |a| - 1);
  }

  /** One step of `NonBlankLinesAppend`: its claim for `a` from its claim for what follows the first line of `a`. */
  lemma NonBlankLinesAppendStep(a: string, b: string)
    requires a != [] && IsNewline(a[|a| - 1])
    requires LineEnd(a) < |a|
    requires NonBlankLines(a[LineEnd(a) + 1..] + b) == NonBlankLines(a[LineEnd(a) + 1..]) + NonBlankLines(b)
    ensures NonBlankLines(a + b) == NonBlankLines(a) + NonBlankLines(b)
  {
    NonBlankLinesStep(a, b);
    var tail := a[LineEnd(a) + 1..];
    Regroup(NonBlankLines(a + b), NonBlankLines(a), FirstLine(a), NonBlankLines(tail), NonBlankLines(b), NonBlankLines(tail + b));
  }

  /** `h + (x + y)` regrouped as `(h + x) + y`, with each part named. */
  lemma Regroup<T>(whole: seq<T>, left: seq<T>, h: seq<T>, x: seq<T>, y: seq<T>, xy: seq<T>)
    requires whole == h + xy && xy == x + y && left == h + x
    ensures whole == left + y
  {
  }

  /** The first line of `s` as `NonBlankLines` keeps it: none if blank. */
  function FirstLine(s: string): seq<string> {
    var piece := Strip(s[..LineEnd(s)]);
    if piece == [] then [] else [piece]
  }

  lemma NonBlankLinesStep(a: string, b: string)
    requires a != [] && IsNewline(a[|a| - 1])
    ensures LineEnd(a) < |a|
    ensures NonBlankLines(a) == FirstLine(a) + NonBlankLines(a[LineEnd(a) + 1..])
    ensures NonBlankLines(a + b) == FirstLine(a) + NonBlankLines(a[LineEnd(a) + 1..] + b)
  {
    LineEndAtMost(a, |a| - 1);
    var k := LineEnd(a);
    LineEndPrefix(a, b);
    assert (a + b)[..k] == a[..k];
    assert (a + b)[k + 1..] == a[k + 1..] + b;
  }

  /** A line break at `i` ends the first line at `i` or earlier. */
  lemma {:induction false} LineEndAtMost(s: string, i: nat)
    requires i < |s| && IsNewline(s[i])
    ensures LineEnd(s) <= i
    decreases i
  {
    if i > 0 && !IsNewline(s[0]) {
      LineEndAtMost(s[1..], i - 1);
    }
  }

  /** The first line break of `s` is at `i` when none comes before it. */
  lemma {:induction false} LineEndIs(s: string, i: nat)
    requires i < |s| && IsNewline(s[i])
    requires forall j :: 0 <= j < i ==> !IsNewline(s[j])
    ensures LineEnd(s) == i
    decreases i
  {
    if i > 0 {
      assert !IsNewline(s[0]);
      LineEndIs(s[1..], i - 1);
    }
  }

  lemma {:induction false} LineEndPrefix(a: string, b: string)
    requires LineEnd(a) < |a|
    ensures LineEnd(a + b) == LineEnd(a)
    decreases |a|
  {
    if !IsNewline(a[0]) {
      assert (a + b)[1..] == a[1..] + b;
      LineEndPrefix(a[1..], b);
    }
  }
}
