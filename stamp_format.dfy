/**
 * The two date conversions the Python log parser applies: reading an
 * Apache access-log time with `datetime.strptime(t, "%d/%b/%Y:%H:%M:%S")`
 * and printing a `datetime` with `strftime("%Y-%m-%d %H:%M:%S")`.
 */
module StampFormat {
  import opened Wrappers
  import opened Text
  import opened IsoWeek

  /** The fields of a `datetime` that the printed form shows (time zones play no part in it). */
  datatype Stamp = Stamp(date: Date, hour: int, minute: int, second: int)

  predicate ValidStamp(st: Stamp) {
    ValidDate(st.date) && 0 <= st.hour < 24 && 0 <= st.minute < 60 && 0 <= st.second < 60
  }

  /** A moment `datetime` can hold: years 1 to 9999, real days, leap seconds excluded. */
  type Moment = st: Stamp | ValidStamp(st) witness Stamp(Date(1, 1, 1), 0, 0, 0)

  /** `datetime.fromisoformat`: the moment a text denotes, or `None` where it raises ValueError. */
  type IsoReader = string -> Option<Moment>

  /**
   * `strftime("%Y-%m-%d %H:%M:%S")`. As with the C library on Linux, `%Y`
   * is not padded, so years before 1000 print with fewer than four digits.
   */
  function FormatStamp(st: Moment): string {
    NatToString(st.date.year) + "-" + Pad2(st.date.month) + "-" + Pad2(st.date.day)
      + " " + Pad2(st.hour) + ":" + Pad2(st.minute) + ":" + Pad2(st.second)
  }

  /** The template the printed form follows: `D` a digit, anything else itself. */
  const PrintedTemplate: string := "DDDD-DD-DD DD:DD:DD"

  /** From the year 1000 on the printed form is `YYYY-MM-DD HH:MM:SS`, the layout every other parser produces. */
  lemma FormatStampShape(st: Moment)
    requires st.date.year >= 1000
    ensures FitsTemplateText(FormatStamp(st), PrintedTemplate)
  {
    var y := NatToString(st.date.year);
    YearDigits(st.date.year);
    var s := FormatStamp(st);
    var parts := [y, "-", Pad2(st.date.month), "-", Pad2(st.date.day), " ",
                  Pad2(st.hour), ":", Pad2(st.minute), ":", Pad2(st.second)];
    assert |s| == 19;
    forall k | 0 <= k < 19
      ensures FitsTemplate(s[k], PrintedTemplate[k])
    {
      if k < 4 { assert s[k] == y[k]; }
      else if 5 <= k < 7 { assert s[k] == Pad2(st.date.month)[k - 5]; }
      else if 8 <= k < 10 { assert s[k] == Pad2(st.date.day)[k - 8]; }
      else if 11 <= k < 13 { assert s[k] == Pad2(st.hour)[k - 11]; }
      else if 14 <= k < 16 { assert s[k] == Pad2(st.minute)[k - 14]; }
      else if 17 <= k < 19 { assert s[k] == Pad2(st.second)[k - 17]; }
    }
  }

  // ---------------------------------------------------------------------
  // Digits

  lemma DigitCharValue(d: nat)
    requires d < 10
    ensures IsDigit(DigitChar(d)) && DigitChar(d) as int - '0' as int == d
  {
  }

  /** Reading back the decimal text of `n` gives `n`. */
  lemma {:induction false} NatToStringValue(n: nat)
    ensures DigitsValue(NatToString(n)) == n
    decreases n
  {
    var s := NatToString(n);
    DigitCharValue(n % 10);
    if n < 10 {
      assert s[..0] == [];
    } else {
      NatToStringValue(n / 10);
      assert s[..|s| - 1] == NatToString(n / 10);
    }
  }

  /** A year from 1000 to 9999 prints as four digits. */
  lemma YearDigits(y: nat)
    requires 1000 <= y <= 9999
    ensures |NatToString(y)| == 4 && AllDigits(NatToString(y))
  {
    assert |NatToString(y / 1000)| == 1;
    assert y / 100 / 10 == y / 1000 && y / 10 / 10 == y / 100;
    assert |NatToString(y / 100)| == 2;
    assert |NatToString(y / 10)| == 3;
  }

  lemma Pad2Value(n: nat)
    requires n < 100
    ensures DigitsValue(Pad2(n)) == n
  {
    var s := Pad2(n);
    var hi := if n < 10 then '0' else DigitChar(n / 10);
    DigitCharValue(n % 10);
    DigitCharValue(n / 10);
    assert s == [hi, DigitChar(n % 10)];
    assert s[..1] == [hi] && [hi][..0] == [];
    assert DigitsValue([hi]) == n / 10;
  }

  // ---------------------------------------------------------------------
  // Reading `%d/%b/%Y:%H:%M:%S`

  /** The pieces between the separators, each split at the first occurrence of its separator. */
  function SplitBy(t: string, seps: seq<char>): (r: Option<seq<string>>)
    ensures r.Some? ==> |r.value| == |seps| + 1
    decreases |seps|
  {
    if seps == [] then Some([t])
    else
      var i := IndexOf(t, seps[0]);
      if i == |t| then None
      else match SplitBy(t[i + 1..], seps[1..])
        case None => None
        case Some(rest) => Some([t[..i]] + rest)
  }

  /** The pieces joined by the separators, one after each piece but the last. */
  function Joined(pieces: seq<string>, seps: seq<char>): string
    requires |pieces| == |seps| + 1
    decreases |seps|
  {
    if seps == [] then pieces[0] else pieces[0] + [seps[0]] + Joined(pieces[1..], seps[1..])
  }

  /** Pieces free of the separator that ends them are split back out of their joined text. */
  lemma {:induction false} SplitJoined(pieces: seq<string>, seps: seq<char>)
    requires |pieces| == |seps| + 1
    requires forall k :: 0 <= k < |seps| ==> seps[k] !in pieces[k]
    ensures SplitBy(Joined(pieces, seps), seps) == Some(pieces)
    decreases |seps|
  {
    if seps != [] {
      forall k | 0 <= k < |seps[1..]|
        ensures seps[1..][k] !in pieces[1..][k]
      {
        assert seps[1..][k] == seps[k + 1] && pieces[1..][k] == pieces[k + 1];
      }
      SplitJoined(pieces[1..], seps[1..]);
      SplitStep(pieces[0], seps, Joined(pieces[1..], seps[1..]), pieces[1..]);
      assert pieces == [pieces[0]] + pieces[1..];
    } else {
      assert pieces == [pieces[0]];
    }
  }

  /** A head free of the first separator is split off in front of the split of the rest. */
  lemma SplitStep(head: string, seps: seq<char>, rest: string, tail: seq<string>)
    requires seps != [] && seps[0] !in head
    requires SplitBy(rest, seps[1..]) == Some(tail)
    ensures SplitBy(head + [seps[0]] + rest, seps) == Some([head] + tail)
  {
    var t := head + [seps[0]] + rest;
    IndexOfAfterPart(head, seps[0], rest);
    assert t[|head| + 1..] == rest;
    assert t[..|head|] == head;
  }

  /** The separators of `%d/%b/%Y:%H:%M:%S`. */
  const ApacheSeps: seq<char> := ['/', '/', ':', ':', ':']

  /** The month abbreviations `%b` accepts, in either case. */
  const MonthAbbrs: seq<string> := ["jan", "feb", "mar", "apr", "may", "jun", "jul", "aug", "sep", "oct", "nov", "dec"]

  /** `%b`: the number of the month whose abbreviation `x` spells, ignoring case, looked up from position `k`. */
  function MonthFrom(x: string, k: nat): (r: Option<int>)
    requires k <= 12
    ensures r.Some? ==> k < r.value <= 12 && Lower(x) == MonthAbbrs[r.value - 1]
    decreases 12 - k
  {
    if k == 12 then None
    else if Lower(x) == MonthAbbrs[k] then Some(k + 1)
    else MonthFrom(x, k + 1)
  }

  function MonthOf(x: string): (r: Option<int>)
    ensures r.Some? ==> 1 <= r.value <= 12 && Lower(x) == MonthAbbrs[r.value - 1]
  {
    MonthFrom(x, 0)
  }

  /** Twelve different abbreviations: a month is found at its own position. */
  lemma {:induction false} MonthFromFinds(x: string, k: nat, m: nat)
    requires k < m <= 12 && Lower(x) == MonthAbbrs[m - 1]
    ensures MonthFrom(x, k) == Some(m)
    decreases 12 - k
  {
    if k + 1 < m {
      assert MonthAbbrs[k] != MonthAbbrs[m - 1];
      MonthFromFinds(x, k + 1, m);
    }
  }

  /**
   * A one- or two-digit number up to `max`: `%H` is `2[0-3]|[0-1]\d|\d`,
   * `%M` is `[0-5]\d|\d` and `%S` is `6[0-1]|[0-5]\d|\d`.
   */
  function SmallNumber(x: string, max: nat): (r: Option<int>)
    requires max >= 9
    ensures r.Some? ==> 0 <= r.value <= max
  {
    if 1 <= |x| <= 2 && AllDigits(x) && DigitsValue(x) <= max then Some(DigitsValue(x)) else None
  }

  /** `%d`: `3[01]|[12]\d|0[1-9]|[1-9]| [1-9]`. */
  function DayNumber(x: string): (r: Option<int>)
    ensures r.Some? ==> 1 <= r.value <= 31
  {
    if 1 <= |x| <= 2 && AllDigits(x) && 1 <= DigitsValue(x) <= 31 then Some(DigitsValue(x))
    else if |x| == 2 && x[0] == ' ' && IsDigit(x[1]) && x[1] != '0' then Some(x[1] as int - '0' as int)
    else None
  }

  /** `%Y`: exactly four digits. */
  function YearNumber(x: string): Option<int> {
    if |x| == 4 && AllDigits(x) then Some(DigitsValue(x)) else None
  }

  /**
   * `datetime.strptime(t, "%d/%b/%Y:%H:%M:%S")`: the moment, or `None`
   * where it raises ValueError (a piece out of its pattern, a day past the
   * end of its month, year 0, or second 60 or 61, which the pattern accepts
   * but `datetime` does not).
   */
  function ApacheStamp(t: string): (r: Option<Moment>) {
    match SplitBy(t, ApacheSeps)
    case None => None
    case Some(p) =>
      match (DayNumber(p[0]), MonthOf(p[1]), YearNumber(p[2]), SmallNumber(p[3], 23), SmallNumber(p[4], 59), SmallNumber(p[5], 61))
      case (Some(d), Some(mo), Some(y), Some(h), Some(mi), Some(s)) =>
        var st := Stamp(Date(y, mo, d), h, mi, s);
        if ValidStamp(st) then Some(st) else None
      case _ => None
  }

  /** The access-log timestamp as stored: the reprinted moment, or the text itself when it does not parse. */
  function AccessTimestamp(t: string): string {
    match ApacheStamp(t)
    case Some(st) => FormatStamp(st)
    case None => t
  }

  /** The text an Apache server writes for a moment, with any capitalisation of the month. */
  function ApacheText(st: Moment, month: string): string {
    Joined([Pad2(st.date.day), month, NatToString(st.date.year), Pad2(st.hour), Pad2(st.minute), Pad2(st.second)], ApacheSeps)
  }

  /** A month spelling contains no separator. */
  lemma MonthTextPlain(x: string, m: int)
    requires 1 <= m <= 12 && Lower(x) == MonthAbbrs[m - 1]
    ensures '/' !in x
  {
    forall i | 0 <= i < |x|
      ensures x[i] != '/'
    {
      assert LowerChar(x[i]) == MonthAbbrs[m - 1][i];
      assert MonthAbbrs[m - 1][i] != '/';
    }
  }

  /** Apache's text for a moment splits into its six pieces. */
  lemma ApachePieces(st: Moment, month: string)
    requires st.date.year >= 1000 && Lower(month) == MonthAbbrs[st.date.month - 1]
    ensures SplitBy(ApacheText(st, month), ApacheSeps)
      == Some([Pad2(st.date.day), month, NatToString(st.date.year), Pad2(st.hour), Pad2(st.minute), Pad2(st.second)])
  {
    var p := [Pad2(st.date.day), month, NatToString(st.date.year), Pad2(st.hour), Pad2(st.minute), Pad2(st.second)];
    YearDigits(st.date.year);
    MonthTextPlain(month, st.date.month);
    forall k | 0 <= k < |ApacheSeps|
      ensures ApacheSeps[k] !in p[k]
    {
      if k != 1 {
        assert AllDigits(p[k]);
        forall i | 0 <= i < |p[k]|
          ensures p[k][i] != ApacheSeps[k]
        {
          assert IsDigit(p[k][i]);
        }
      }
    }
    SplitJoined(p, ApacheSeps);
  }

  lemma DayValue(d: nat)
    requires 1 <= d <= 31
    ensures DayNumber(Pad2(d)) == Some(d)
  {
    Pad2Value(d);
  }

  lemma ClockValue(n: nat, max: nat)
    requires 9 <= max && n <= max && n < 100
    ensures SmallNumber(Pad2(n), max) == Some(n)
  {
    Pad2Value(n);
  }

  lemma YearValue(y: nat)
    requires 1000 <= y <= 9999
    ensures YearNumber(NatToString(y)) == Some(y)
  {
    YearDigits(y);
    NatToStringValue(y);
  }

  /** Apache's text for a moment from the year 1000 on reads back as that moment. */
  lemma ApacheStampRoundTrip(st: Moment, month: string)
    requires st.date.year >= 1000 && Lower(month) == MonthAbbrs[st.date.month - 1]
    ensures ApacheStamp(ApacheText(st, month)) == Some(st)
    ensures AccessTimestamp(ApacheText(st, month)) == FormatStamp(st)
  {
    ApachePieces(st, month);
    DayValue(st.date.day);
    YearValue(st.date.year);
    ClockValue(st.hour, 23);
    ClockValue(st.minute, 59);
    ClockValue(st.second, 61);
    MonthFromFinds(month, 0, st.date.month);
  }
}
