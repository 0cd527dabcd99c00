/**
 * `NodeLogParser` of the streaming pipeline: a Node service line
 * `YYYY-MM-DD HH:MM:SS <level>: <message>` becomes an entry, and the
 * message is searched for eight fixed patterns in turn; the first that
 * matches names the action and fills the fields it captures.
 *
 * Each regular expression is written out by hand. A capture such as
 * `([^,]+)` or `(\d+)` is followed in its pattern by a character its class
 * excludes, so the regex engine never backtracks into it: the capture is
 * the greedy run (`Text.Run`). The one greedy `(.+)` whose end depends on
 * what follows it is searched from the right (`Text.LastWhere`).
 */
module NodeParser {
  import opened Wrappers
  import opened Text

  /** `NodeLogEntry`; the optional fields are `None` until a pattern fills them. */
  datatype NodeLogEntry = NodeLogEntry(
    timestamp: string, level: string, message: string,
    userId: Option<string>, action: Option<string>, email: Option<string>,
    tokenCount: Option<string>, errorType: Option<string>,
    logType: string, sourceFile: string)

  // ---------------------------------------------------------------------
  // The basic line pattern `^(\d{4}-\d{2}-\d{2} \d{2}:\d{2}:\d{2}) (\w+): (.+)$`

  const StampTemplate: string := "DDDD-DD-DD DD:DD:DD"

  predicate NotNewline(c: char) { c != '\n' }

  /** The three captures of the basic pattern. */
  datatype Basic = Basic(timestamp: string, level: string, message: string)

  /** What the basic pattern accepts in each capture. */
  predicate BasicFits(b: Basic) {
    FitsTemplateText(b.timestamp, StampTemplate)
    && b.level != [] && Every(b.level, IsWordChar)
    && b.message != [] && Every(b.message, NotNewline)
  }

  function BasicText(b: Basic): string {
    b.timestamp + " " + b.level + ": " + b.message
  }

  /**
   * The basic pattern on a stripped line (which never ends in a line
   * break, so `$` is the end of the line). `(\w+)` cannot take the `:`
   * after it, so the level is the greedy word run.
   */
  function MatchBasic(line: string): (r: Option<Basic>)
    ensures r.Some? ==> BasicFits(r.value) && BasicText(r.value) == line
  {
    if |line| < 20 || !FitsTemplateText(line[..19], StampTemplate) || line[19] != ' ' then None
    else
      var level := Run(line, 20, IsWordChar);
      var j := 20 + |level|;
      RunSpec(line, 20, IsWordChar);
      if level != [] && OccursAt(line, ": ", j) && j + 2 < |line| && Every(line[j + 2..], NotNewline) then
        var b := Basic(line[..19], level, line[j + 2..]);
        assert BasicText(b) == line by {
          assert line == line[..19] + [line[19]] + line[20..j] + line[j..j + 2] + line[j + 2..];
        }
        Some(b)
      else None
  }

  /** Every line of the basic shape is matched, and its captures are the pieces it was made of. */
  lemma MatchBasicRoundTrip(b: Basic)
    requires BasicFits(b)
    ensures MatchBasic(BasicText(b)) == Some(b)
  {
    var line := BasicText(b);
    var j := 20 + |b.level|;
    assert line[..19] == b.timestamp;
    assert line[20..j] == b.level;
    assert line[j] == ':' && !IsWordChar(line[j]);
    RunExact(line, 20, IsWordChar, b.level);
    assert line[j + 2..] == b.message;
  }

  /** `"error" if level.lower() in ['error', 'warn'] else "access"`. */
  function LogTypeOf(level: string): string {
    var l := Lower(level);
    if l == "error" || l == "warn" then "error" else "access"
  }

  // ---------------------------------------------------------------------
  // The eight message patterns

  /** The captures of one pattern; the second is empty when it has one capture. */
  type Caps = (string, string)

  /**
   * The three forms the message patterns take: `lead(first+)`;
   * `lead(first+)sep(second+)`, where `first` excludes the first character
   * of `sep`; and `lead(.+)sep(second+)`.
   */
  datatype Shape =
    | One(lead: string, first: char -> bool)
    | Two(lead: string, first: char -> bool, sep: string, second: char -> bool)
    | Greedy(lead: string, sep: string, second: char -> bool)

  /** The text after the lead that a match with captures `c` spans. */
  function BodyText(sh: Shape, c: Caps): string {
    if sh.One? then c.0 else c.0 + sh.sep + c.1
  }

  /** The captures are non-empty and of their classes. */
  predicate ShapeFits(sh: Shape, c: Caps) {
    c.0 != [] &&
    match sh
    case One(_, first) => Every(c.0, first) && c.1 == []
    case Two(_, first, _, second) => Every(c.0, first) && c.1 != [] && Every(c.1, second)
    case Greedy(_, _, second) => Every(c.0, NotNewline) && c.1 != [] && Every(c.1, second)
  }

  /** `(first+)` at `j`. */
  function OneAt(first: char -> bool, s: string, j: nat): Option<Caps>
    requires j <= |s|
  {
    var a := Run(s, j, first);
    if a == [] then None else Some((a, ""))
  }

  /** `(first+)sep(second+)` at `j`: `first` cannot take `sep`, so no backtracking. */
  function TwoAt(first: char -> bool, sep: string, second: char -> bool, s: string, j: nat): Option<Caps>
    requires j <= |s|
  {
    var a := Run(s, j, first);
    var m := j + |a|;
    if a == [] || !OccursAt(s, sep, m) then None
    else
      var b := Run(s, m + |sep|, second);
      if b == [] then None else Some((a, b))
  }

  /** `sep(second+)` can follow at `m`. */
  function Follows(sep: string, second: char -> bool): (string, nat) -> bool {
    (s: string, m: nat) => OccursAt(s, sep, m) && m + |sep| < |s| && second(s[m + |sep|])
  }

  /**
   * `(.+)sep(second+)` at `j`: the greedy `(.+)` runs to the end of the
   * line and gives back characters until the rest matches, so it ends at
   * the LAST place where `sep(second+)` can follow.
   */
  function GreedyAt(sep: string, second: char -> bool, s: string, j: nat): Option<Caps>
    requires j <= |s|
  {
    var stop := j + |Run(s, j, NotNewline)|;
    match LastWhere(s, j, stop, Follows(sep, second))
    case None => None
    case Some(m) =>
      assert Follows(sep, second)(s, m);
      Some((s[j..m], Run(s, m + |sep|, second)))
  }

  /** `re.match` of the pattern at `k`. */
  function ShapeAt(sh: Shape, s: string, k: nat): Option<Caps> {
    if !OccursAt(s, sh.lead, k) then None
    else
      var j := k + |sh.lead|;
      match sh
      case One(_, first) => OneAt(first, s, j)
      case Two(_, first, sep, second) => TwoAt(first, sep, second, s, j)
      case Greedy(_, sep, second) => GreedyAt(sep, second, s, j)
  }

  lemma OneAtSound(first: char -> bool, s: string, j: nat)
    requires j <= |s|
    ensures var r := OneAt(first, s, j);
      r.Some? ==> ShapeFits(One([], first), r.value) && OccursAt(s, r.value.0, j)
  {
    RunSpec(s, j, first);
  }

  lemma TwoAtSound(first: char -> bool, sep: string, second: char -> bool, s: string, j: nat)
    requires j <= |s|
    ensures var r := TwoAt(first, sep, second, s, j);
      r.Some? ==> ShapeFits(Two([], first, sep, second), r.value) && OccursAt(s, r.value.0 + sep + r.value.1, j)
  {
    var a := Run(s, j, first);
    var m := j + |a|;
    if a != [] && OccursAt(s, sep, m) {
      var b := Run(s, m + |sep|, second);
      RunSpec(s, j, first);
      RunSpec(s, m + |sep|, second);
      OccursAtConcat3(s, a, sep, b, j);
    }
  }

  lemma GreedyAtSound(sep: string, second: char -> bool, s: string, j: nat)
    requires j <= |s|
    ensures var r := GreedyAt(sep, second, s, j);
      r.Some? ==> ShapeFits(Greedy([], sep, second), r.value) && OccursAt(s, r.value.0 + sep + r.value.1, j)
  {
    var line := Run(s, j, NotNewline);
    var w := LastWhere(s, j, j + |line|, Follows(sep, second));
    if w.Some? {
      RunSpec(s, j, NotNewline);
      var m := w.value;
      assert Follows(sep, second)(s, m);
      GreedyTail(sep, second, s, j, j + |line|, m);
    }
  }

  /** `GreedyPieces` for the run that `GreedyAt` takes after `sep`. */
  lemma GreedyTail(sep: string, second: char -> bool, s: string, j: nat, hi: nat, m: nat)
    requires j < m <= hi <= |s| && Every(s[j..hi], NotNewline)
    requires OccursAt(s, sep, m) && m + |sep| < |s| && second(s[m + |sep|])
    ensures var b := Run(s, m + |sep|, second);
      ShapeFits(Greedy([], sep, second), (s[j..m], b)) && OccursAt(s, s[j..m] + sep + b, j)
  {
    var e := m + |sep|;
    RunSpec(s, e, second);
    RunNonEmpty(s, e, second);
    GreedyPieces(sep, second, s, j, hi, m, Run(s, e, second));
  }

  /**
   * The pieces `GreedyAt` cuts out of a line spanning `[j, hi)` when `sep`
   * is at `m` and the run `b` follows it.
   */
  lemma GreedyPieces(sep: string, second: char -> bool, s: string, j: nat, hi: nat, m: nat, b: string)
    requires j < m <= hi <= |s| && Every(s[j..hi], NotNewline)
    requires OccursAt(s, sep, m) && OccursAt(s, b, m + |sep|) && b != [] && Every(b, second)
    ensures ShapeFits(Greedy([], sep, second), (s[j..m], b)) && OccursAt(s, s[j..m] + sep + b, j)
  {
    EverySlice(s, j, m, hi, NotNewline);
    OccursAtConcat3(s, s[j..m], sep, b, j);
  }

  /** A match has captures of their classes and spans the pattern's text. */
  lemma ShapeAtSound(sh: Shape, s: string, k: nat)
    ensures var r := ShapeAt(sh, s, k);
      r.Some? ==> ShapeFits(sh, r.value) && OccursAt(s, sh.lead + BodyText(sh, r.value), k)
  {
    if ShapeAt(sh, s, k).Some? {
      var j := k + |sh.lead|;
      var c := ShapeAt(sh, s, k).value;
      match sh {
        case One(_, first) =>
          assert c == OneAt(first, s, j).value;
          OneAtSound(first, s, j);
        case Two(_, first, sep, second) =>
          assert c == TwoAt(first, sep, second, s, j).value;
          TwoAtSound(first, sep, second, s, j);
        case Greedy(_, sep, second) =>
          assert c == GreedyAt(sep, second, s, j).value;
          GreedyAtSound(sep, second, s, j);
      }
      assert OccursAt(s, sh.lead, k) && OccursAt(s, BodyText(sh, c), j);
      OccursAtConcat(s, sh.lead, BodyText(sh, c), k);
    }
  }

  /** A pattern whose captures' classes keep the pieces apart, so that reading back what was written is exact. */
  predicate WellShaped(sh: Shape) {
    match sh
    case One(_, _) => true
    case Two(_, first, sep, _) => sep != [] && !first(sep[0])
    case Greedy(_, sep, second) => sep != [] && Every(sep, NotNewline) && !second(sep[|sep| - 1])
  }

  /** What may follow a match without changing it: nothing the last capture could take. */
  predicate Closes(sh: Shape, post: string) {
    match sh
    case One(_, first) => post == [] || !first(post[0])
    case Two(_, _, _, second) => post == [] || !second(post[0])
    case Greedy(_, _, _) => post == []
  }

  lemma OneAtExact(first: char -> bool, s: string, j: nat, a: string)
    requires a != [] && Every(a, first) && OccursAt(s, a, j)
    requires j + |a| == |s| || !first(s[j + |a|])
    ensures OneAt(first, s, j) == Some((a, ""))
  {
    RunExact(s, j, first, a);
  }

  lemma TwoAtExact(first: char -> bool, sep: string, second: char -> bool, s: string, j: nat, a: string, b: string)
    requires sep != [] && !first(sep[0])
    requires a != [] && Every(a, first) && b != [] && Every(b, second)
    requires OccursAt(s, a + sep + b, j)
    requires j + |a + sep + b| == |s| || !second(s[j + |a + sep + b|])
    ensures TwoAt(first, sep, second, s, j) == Some((a, b))
  {
    OccursAtSplit(s, a + sep, b, j);
    OccursAtSplit(s, a, sep, j);
    var m := j + |a|;
    assert s[m] == sep[0];
    RunExact(s, j, first, a);
    RunExact(s, m + |sep|, second, b);
  }

  lemma GreedyAtExact(sep: string, second: char -> bool, s: string, j: nat, a: string, b: string)
    requires sep != [] && Every(sep, NotNewline) && !second(sep[|sep| - 1])
    requires a != [] && Every(a, NotNewline) && b != [] && Every(b, second) && Every(b, NotNewline)
    requires OccursAt(s, a + sep + b, j) && j + |a + sep + b| == |s|
    ensures GreedyAt(sep, second, s, j) == Some((a, b))
  {
    var m := j + |a|;
    OccursAtSplit(s, a + sep, b, j);
    OccursAtSplit(s, a, sep, j);
    assert s[j..m] == a;
    EveryAppend(a, sep, NotNewline);
    EveryAppend(a + sep, b, NotNewline);
    RestOfLine(s, j, a + sep + b);
    GreedyCut(sep, second, s, j, m, b);
    GreedyAtIs(sep, second, s, j, m, b);
  }

  /** With `b` running to the end after `sep` at `m`, the search from `j` stops at `m` and the run after `sep` is `b`. */
  lemma GreedyCut(sep: string, second: char -> bool, s: string, j: nat, m: nat, b: string)
    requires sep != [] && !second(sep[|sep| - 1]) && j < m
    requires OccursAt(s, sep, m) && OccursAt(s, b, m + |sep|) && m + |sep| + |b| == |s|
    requires b != [] && Every(b, second)
    ensures LastWhere(s, j, |s|, Follows(sep, second)) == Some(m)
    ensures Run(s, m + |sep|, second) == b
  {
    GreedyLast(sep, second, s, m, b);
    LastWhereIs(s, j, |s|, Follows(sep, second), m);
    RunExact(s, m + |sep|, second, b);
  }

  /** `GreedyAt` cuts at the place `LastWhere` finds and takes the run after `sep`. */
  lemma GreedyAtIs(sep: string, second: char -> bool, s: string, j: nat, m: nat, b: string)
    requires j <= |s| && LastWhere(s, j, j + |Run(s, j, NotNewline)|, Follows(sep, second)) == Some(m)
    requires Run(s, m + |sep|, second) == b
    ensures GreedyAt(sep, second, s, j) == Some((s[j..m], b))
  {
  }

  /** A text without line breaks that runs to the end is the rest of the line. */
  lemma RestOfLine(s: string, j: nat, w: string)
    requires OccursAt(s, w, j) && j + |w| == |s| && Every(w, NotNewline)
    ensures Run(s, j, NotNewline) == w
  {
    RunExact(s, j, NotNewline, w);
  }

  /** With `b` running to the end after `sep` at `m`, `m` is the last place where `sep(second+)` follows. */
  lemma GreedyLast(sep: string, second: char -> bool, s: string, m: nat, b: string)
    requires sep != [] && !second(sep[|sep| - 1])
    requires OccursAt(s, sep, m) && OccursAt(s, b, m + |sep|) && m + |sep| + |b| == |s|
    requires b != [] && Every(b, second)
    ensures Follows(sep, second)(s, m)
    ensures forall i :: m < i <= |s| ==> !Follows(sep, second)(s, i)
  {
    var e := m + |sep|;
    assert s[e] == b[0];
    forall i | m < i <= |s|
      ensures !OccursAt(s, sep, i)
    {
      if i + |sep| <= |s| {
        var last := i + |sep| - 1;
        assert second(s[last]) by {
          assert s[last] == b[last - e];
        }
        assert s[i..i + |sep|][|sep| - 1] == s[last];
      }
    }
  }

  /**
   * A text made of the pattern's pieces, followed by nothing the last
   * capture could take, matches at its start with exactly those pieces.
   */
  lemma ShapeAtRoundTrip(sh: Shape, c: Caps, post: string)
    requires WellShaped(sh) && ShapeFits(sh, c) && Closes(sh, post)
    requires sh.Greedy? ==> Every(c.1, NotNewline)
    ensures ShapeAt(sh, sh.lead + BodyText(sh, c) + post, 0) == Some(c)
  {
    var body := BodyText(sh, c);
    var s := sh.lead + body + post;
    var j := |sh.lead|;
    assert s[..j] == sh.lead;
    assert s[j..j + |body|] == body;
    assert j + |body| == |s| || s[j + |body|] == post[0];
    match sh
    case One(_, first) => OneAtExact(first, s, j, c.0);
    case Two(_, first, sep, second) => TwoAtExact(first, sep, second, s, j, c.0, c.1);
    case Greedy(_, sep, second) => GreedyAtExact(sep, second, s, j, c.0, c.1);
  }

  predicate NotComma(c: char) { c != ',' }

  /** The class `[^,\s]`. */
  predicate NotCommaOrSpace(c: char) { c != ',' && !IsSpace(c) }

  const UserAuth: Shape := One("User authenticated successfully: userId=", IsDigit)
  const Login: Shape := Two("Login successful for user: ", NotComma, ", user_id: ", IsDigit)
  const Tokens: Shape := Two("Fetched tokens for user_id=", IsDigit, ": ", IsDigit)
  const TokensUpdated: Shape := Two("Tokens updated for user_id=", IsDigit, ". New total: ", IsDigit)
  const TokensDeducted: Shape := Two("Tokens deducted for user_id=", IsDigit, ". New total: ", IsDigit)
  const JwtError: Shape := Two("JWT specific error: ", IsWordChar, " - ", NotNewline)
  const LoginFailed: Shape := Greedy("Login failed: ", " for email: ", NotCommaOrSpace)
  const Extension: Shape := Two("Extension install status updated: user_id=", IsDigit, ", installed=", IsWordChar)
  const Registration: Shape := Two("New user registered: ", NotComma, ", user_id: ", IsDigit)

  function UserAuthAt(s: string, k: nat): Option<Caps> { ShapeAt(UserAuth, s, k) }
  function LoginAt(s: string, k: nat): Option<Caps> { ShapeAt(Login, s, k) }
  function TokensAt(s: string, k: nat): Option<Caps> { ShapeAt(Tokens, s, k) }
  function JwtErrorAt(s: string, k: nat): Option<Caps> { ShapeAt(JwtError, s, k) }
  function LoginFailedAt(s: string, k: nat): Option<Caps> { ShapeAt(LoginFailed, s, k) }
  function ExtensionAt(s: string, k: nat): Option<Caps> { ShapeAt(Extension, s, k) }
  function RegistrationAt(s: string, k: nat): Option<Caps> { ShapeAt(Registration, s, k) }

  /** `Tokens (?:updated|deducted) for user_id=(\d+)\. New total: (\d+)`: the alternatives in order. */
  function TokenUpdateAt(s: string, k: nat): Option<Caps> {
    if ShapeAt(TokensUpdated, s, k).Some? then ShapeAt(TokensUpdated, s, k) else ShapeAt(TokensDeducted, s, k)
  }

  /** Every pattern keeps its pieces apart. */
  lemma PatternsWellShaped()
    ensures WellShaped(UserAuth) && WellShaped(Login) && WellShaped(Tokens) && WellShaped(TokensUpdated)
    ensures WellShaped(TokensDeducted) && WellShaped(JwtError) && WellShaped(LoginFailed)
    ensures WellShaped(Extension) && WellShaped(Registration)
  {
    assert Every(" for email: ", NotNewline);
  }

  // ---------------------------------------------------------------------
  // Searching, and the order in which the patterns are tried

  /** `re.search` from position `k` on: the captures at the leftmost position where the pattern matches. */
  function SearchFrom(at: (string, nat) -> Option<Caps>, s: string, k: nat): Option<Caps>
    requires k <= |s|
    decreases |s| - k
  {
    if at(s, k).Some? then at(s, k)
    else if k == |s| then None
    else SearchFrom(at, s, k + 1)
  }

  function Search(at: (string, nat) -> Option<Caps>, s: string): Option<Caps> {
    SearchFrom(at, s, 0)
  }

  /** From `k` on, the search finds nothing iff the pattern matches nowhere, and otherwise the leftmost match. */
  lemma {:induction false} SearchFromSpec(at: (string, nat) -> Option<Caps>, s: string, k: nat)
    requires k <= |s|
    ensures SearchFrom(at, s, k).None? <==> forall i :: k <= i <= |s| ==> at(s, i).None?
    ensures SearchFrom(at, s, k).Some? ==>
      exists i :: k <= i <= |s| && at(s, i) == SearchFrom(at, s, k) && forall j :: k <= j < i ==> at(s, j).None?
    decreases |s| - k
  {
    if at(s, k).None? && k < |s| {
      SearchFromSpec(at, s, k + 1);
      if SearchFrom(at, s, k).Some? {
        var i :| k + 1 <= i <= |s| && at(s, i) == SearchFrom(at, s, k + 1) && forall j :: k + 1 <= j < i ==> at(s, j).None?;
        assert forall j :: k <= j < i ==> at(s, j).None?;
      }
    }
  }

  /** The search finds nothing iff the pattern matches nowhere, and otherwise the leftmost match. */
  lemma SearchSpec(at: (string, nat) -> Option<Caps>, s: string)
    ensures Search(at, s).None? <==> forall k :: 0 <= k <= |s| ==> at(s, k).None?
    ensures Search(at, s).Some? ==>
      exists k :: 0 <= k <= |s| && at(s, k) == Search(at, s) && forall j :: 0 <= j < k ==> at(s, j).None?
  {
    SearchFromSpec(at, s, 0);
  }

  /** A match at the very start is the one `re.search` reports. */
  lemma SearchAtStart(at: (string, nat) -> Option<Caps>, s: string)
    requires at(s, 0).Some?
    ensures Search(at, s) == at(s, 0)
  {
  }

  /** What `re.search` gives for the `i`-th pattern, in the order `_extract_specific_info` tries them. */
  function PatternSearch(i: nat, message: string): Option<Caps>
    requires i < 8
  {
    match i
    case 0 => Search(UserAuthAt, message)
    case 1 => Search(LoginAt, message)
    case 2 => Search(TokensAt, message)
    case 3 => Search(TokenUpdateAt, message)
    case 4 => Search(JwtErrorAt, message)
    case 5 => Search(LoginFailedAt, message)
    case 6 => Search(ExtensionAt, message)
    case _ => Search(RegistrationAt, message)
  }

  /** The action each pattern records. */
  const Actions: seq<string> :=
    ["user_authentication", "login_success", "token_fetch", "token_update",
     "jwt_error", "login_failed", "extension_status", "user_registration"]

  /** Which pattern, if any, decides the entry's extra fields, with its captures. */
  datatype Info = NoMatch | Found(pattern: nat, caps: Caps)

  /** The first pattern, from the `i`-th on, that the message matches, with its captures. */
  function ExtractFrom(message: string, i: nat): Info
    requires i <= 8
    decreases 8 - i
  {
    if i == 8 then NoMatch
    else match PatternSearch(i, message)
      case Some(c) => Found(i, c)
      case None => ExtractFrom(message, i + 1)
  }

  function Extraction(message: string): Info {
    ExtractFrom(message, 0)
  }

  /** The pattern found matches, and none between `i` and it does; none found means none from `i` on matches. */
  lemma {:induction false} ExtractFromSpec(message: string, i: nat)
    requires i <= 8
    ensures var r := ExtractFrom(message, i);
      && (r.Found? ==> i <= r.pattern < 8 && PatternSearch(r.pattern, message) == Some(r.caps))
      && (r.Found? ==> forall j :: i <= j < r.pattern ==> PatternSearch(j, message).None?)
      && (r.NoMatch? ==> forall j :: i <= j < 8 ==> PatternSearch(j, message).None?)
    decreases 8 - i
  {
    if i < 8 && PatternSearch(i, message).None? {
      ExtractFromSpec(message, i + 1);
    }
  }

  /** The fields the found pattern sets: its action and the captures it keeps. */
  function WithInfo(e: NodeLogEntry, info: Info): NodeLogEntry {
    match info
    case NoMatch => e
    case Found(i, (a, b)) =>
      var e := e.(action := if i < |Actions| then Some(Actions[i]) else None);
      if i == 0 then e.(userId := Some(a))
      else if i == 1 || i == 7 then e.(email := Some(a), userId := Some(b))
      else if i == 2 || i == 3 then e.(userId := Some(a), tokenCount := Some(b))
      else if i == 4 then e.(errorType := Some(a))
      else if i == 5 then e.(email := Some(b))
      else e.(userId := Some(a))
  }

  /** The patterns never touch the basic fields, the type or the source file. */
  lemma WithInfoKeeps(e: NodeLogEntry, info: Info)
    ensures var r := WithInfo(e, info);
      && r.timestamp == e.timestamp && r.level == e.level && r.message == e.message
      && r.logType == e.logType && r.sourceFile == e.sourceFile
  {
  }

  /**
   * `_extract_specific_info`: the patterns in turn; the first that matches
   * sets its fields and ends the search.
   */
  method ExtractSpecificInfo(entry: NodeLogEntry, message: string) returns (e: NodeLogEntry)
    ensures e == WithInfo(entry, Extraction(message))
  {
    e := entry;
    var m := Search(UserAuthAt, message);
    if m.Some? {
      e := e.(userId := Some(m.value.0), action := Some("user_authentication"));
      return;
    }
    ExtractSkip(message, 0);
    m := Search(LoginAt, message);
    if m.Some? {
      e := e.(email := Some(m.value.0), userId := Some(m.value.1), action := Some("login_success"));
      return;
    }
    ExtractSkip(message, 1);
    m := Search(TokensAt, message);
    if m.Some? {
      e := e.(userId := Some(m.value.0), tokenCount := Some(m.value.1), action := Some("token_fetch"));
      return;
    }
    ExtractSkip(message, 2);
    m := Search(TokenUpdateAt, message);
    if m.Some? {
      e := e.(userId := Some(m.value.0), tokenCount := Some(m.value.1), action := Some("token_update"));
      return;
    }
    ExtractSkip(message, 3);
    e := ExtractLaterInfo(e, message);
  }

  /** The second half of `_extract_specific_info`: the patterns from the JWT error on. */
  method ExtractLaterInfo(entry: NodeLogEntry, message: string) returns (e: NodeLogEntry)
    ensures e == WithInfo(entry, ExtractFrom(message, 4))
  {
    e := entry;
    var m := Search(JwtErrorAt, message);
    if m.Some? {
      e := e.(errorType := Some(m.value.0), action := Some("jwt_error"));
      return;
    }
    ExtractSkip(message, 4);
    m := Search(LoginFailedAt, message);
    if m.Some? {
      e := e.(action := Some("login_failed"), email := Some(m.value.1));
      return;
    }
    ExtractSkip(message, 5);
    m := Search(ExtensionAt, message);
    if m.Some? {
      e := e.(userId := Some(m.value.0), action := Some("extension_status"));
      return;
    }
    ExtractSkip(message, 6);
    m := Search(RegistrationAt, message);
    if m.Some? {
      e := e.(email := Some(m.value.0), userId := Some(m.value.1), action := Some("user_registration"));
      return;
    }
    ExtractSkip(message, 7);
  }

  /** A pattern that does not match passes the decision on to the next. */
  lemma ExtractSkip(message: string, i: nat)
    requires i < 8 && PatternSearch(i, message).None?
    ensures ExtractFrom(message, i) == ExtractFrom(message, i + 1)
  {
  }

  /** The pattern found is the first one in order that the message matches; none is found iff none matches. */
  lemma ExtractionFirstMatch(message: string, i: nat)
    requires i < 8
    ensures Extraction(message) == NoMatch <==> forall j :: 0 <= j < 8 ==> PatternSearch(j, message).None?
    ensures Extraction(message).Found? && Extraction(message).pattern == i
        <==> PatternSearch(i, message).Some? && forall j :: 0 <= j < i ==> PatternSearch(j, message).None?
    ensures Extraction(message).Found? ==> PatternSearch(Extraction(message).pattern, message) == Some(Extraction(message).caps)
  {
    ExtractFromSpec(message, 0);
  }

  /** The shape of the `i`-th pattern (both token-update alternatives capture the same classes). */
  function PatternShape(i: nat): Shape
    requires i < 8
  {
    [UserAuth, Login, Tokens, TokensUpdated, JwtError, LoginFailed, Extension, Registration][i]
  }

  /** A search with a matcher whose every match fits `sh` finds captures that fit `sh`. */
  lemma SearchFits(at: (string, nat) -> Option<Caps>, sh: Shape, message: string)
    requires forall s: string, k: nat :: at(s, k).Some? ==> ShapeFits(sh, at(s, k).value)
    ensures Search(at, message).Some? ==> ShapeFits(sh, Search(at, message).value)
  {
    SearchSpec(at, message);
  }

  /** A matcher that is a shape's `re.match` finds captures of the shape's classes. */
  lemma MatcherFits(at: (string, nat) -> Option<Caps>, sh: Shape)
    requires forall s: string, k: nat :: at(s, k) == ShapeAt(sh, s, k)
    ensures forall s: string, k: nat :: at(s, k).Some? ==> ShapeFits(sh, at(s, k).value)
  {
    forall s: string, k: nat
      ensures at(s, k).Some? ==> ShapeFits(sh, at(s, k).value)
    {
      ShapeAtSound(sh, s, k);
    }
  }

  /** What the `i`-th pattern captures is of its classes: digits for ids and counts, and so on. */
  lemma PatternSearchFits(i: nat, message: string)
    requires i < 8
    ensures PatternSearch(i, message).Some? ==> ShapeFits(PatternShape(i), PatternSearch(i, message).value)
  {
    var sh := PatternShape(i);
    if i == 3 {
      forall s: string, k: nat
        ensures TokenUpdateAt(s, k).Some? ==> ShapeFits(sh, TokenUpdateAt(s, k).value)
      {
        ShapeAtSound(TokensUpdated, s, k);
        ShapeAtSound(TokensDeducted, s, k);
      }
      SearchFits(TokenUpdateAt, sh, message);
    } else {
      var at := [UserAuthAt, LoginAt, TokensAt, TokenUpdateAt, JwtErrorAt, LoginFailedAt, ExtensionAt, RegistrationAt][i];
      assert forall s: string, k: nat :: at(s, k) == ShapeAt(sh, s, k);
      MatcherFits(at, sh);
      SearchFits(at, sh, message);
    }
  }

  /**
   * The fields a line's message fills are what its pattern captures: ids
   * and token counts are digit strings, emails and error types non-empty
   * runs of their classes, and the action is named iff some pattern matched.
   */
  lemma ExtractedValues(entry: NodeLogEntry, message: string)
    requires entry.userId.None? && entry.action.None? && entry.email.None?
    requires entry.tokenCount.None? && entry.errorType.None?
    ensures var e := WithInfo(entry, Extraction(message));
      && (e.action.None? <==> Extraction(message).NoMatch?)
      && (e.action.Some? ==> e.action.value in Actions)
      && (e.userId.Some? ==> e.userId.value != [] && Every(e.userId.value, IsDigit))
      && (e.tokenCount.Some? ==> e.tokenCount.value != [] && Every(e.tokenCount.value, IsDigit))
      && (e.email.Some? ==> e.email.value != [] && Every(e.email.value, NotComma))
      && (e.errorType.Some? ==> e.errorType.value != [] && Every(e.errorType.value, IsWordChar))
  {
    ExtractFromSpec(message, 0);
    match Extraction(message)
    case NoMatch =>
    case Found(i, c) =>
      PatternSearchFits(i, message);
      if i == 5 {
        forall n | 0 <= n < |c.1|
          ensures NotComma(c.1[n])
        {
          assert NotCommaOrSpace(c.1[n]);
        }
      }
  }

  // ---------------------------------------------------------------------
  // Lines and files

  /** The entry built from the basic captures, before any pattern is tried. */
  function BaseEntry(b: Basic, sourceFile: string): NodeLogEntry {
    NodeLogEntry(b.timestamp, b.level, b.message, None, None, None, None, None, LogTypeOf(b.level), sourceFile)
  }

  /** `parse_line`: `None` for a blank line or one the basic pattern rejects. */
  function ParsedLine(line: string, sourceFile: string): Option<NodeLogEntry> {
    var s := Strip(line);
    if s == [] then None
    else match MatchBasic(s)
      case None => None
      case Some(b) => Some(WithInfo(BaseEntry(b, sourceFile), Extraction(b.message)))
  }

  method ParseLine(line: string, sourceFile: string) returns (r: Option<NodeLogEntry>)
    ensures r == ParsedLine(line, sourceFile)
  {
    var s := Strip(line);
    if s == [] {
      return None;
    }
    var basic := MatchBasic(s);
    if basic.None? {
      return None;
    }
    var b := basic.value;
    var entry := BaseEntry(b, sourceFile);
    var e := ExtractSpecificInfo(entry, b.message);
    r := Some(e);
  }

  /**
   * An entry is the stripped line cut into its three pieces, typed `error`
   * exactly for the levels error and warn in any case, and carrying the
   * source file.
   */
  lemma ParsedLineSpec(line: string, sourceFile: string)
    ensures ParsedLine(line, sourceFile).None? <==> MatchBasic(Strip(line)).None?
    ensures ParsedLine(line, sourceFile).Some? ==>
      var e := ParsedLine(line, sourceFile).value;
      && BasicText(Basic(e.timestamp, e.level, e.message)) == Strip(line)
      && BasicFits(Basic(e.timestamp, e.level, e.message))
      && e.sourceFile == sourceFile
      && (e.logType == "error" <==> Lower(e.level) in {"error", "warn"})
  {
    var s := Strip(line);
    if s != [] && MatchBasic(s).Some? {
      var b := MatchBasic(s).value;
      WithInfoKeeps(BaseEntry(b, sourceFile), Extraction(b.message));
    }
  }

  /** An entry carries the source file it was read from. */
  lemma ParsedLineSource(line: string, sourceFile: string)
    ensures ParsedLine(line, sourceFile).Some? ==> ParsedLine(line, sourceFile).value.sourceFile == sourceFile
  {
    ParsedLineSpec(line, sourceFile);
  }

  /** A well-formed line yields its pieces, with the patterns applied to its message. */
  lemma ParsedLineRoundTrip(b: Basic, sourceFile: string)
    requires BasicFits(b) && !IsSpace(b.message[|b.message| - 1])
    ensures ParsedLine(BasicText(b), sourceFile) == Some(WithInfo(BaseEntry(b, sourceFile), Extraction(b.message)))
  {
    var line := BasicText(b);
    assert IsDigit(line[0]);
    assert line[|line| - 1] == b.message[|b.message| - 1];
    StripUnchanged(line);
    MatchBasicRoundTrip(b);
  }

  /** What `parse_line` gives for each line. */
  function LineResults(lines: seq<string>, sourceFile: string): (r: seq<Option<NodeLogEntry>>)
    ensures |r| == |lines|
  {
    seq(|lines|, i requires 0 <= i < |lines| => ParsedLine(lines[i], sourceFile))
  }

  /** The lines that parse, in order, as entries; the others are skipped. */
  function ParsedLines(lines: seq<string>, sourceFile: string): seq<NodeLogEntry> {
    Present(LineResults(lines, sourceFile))
  }

  lemma ParsedLinesStep(lines: seq<string>, i: nat, sourceFile: string)
    requires i < |lines|
    ensures var r := ParsedLine(lines[i], sourceFile);
      ParsedLines(lines[..i + 1], sourceFile) == ParsedLines(lines[..i], sourceFile) + (if r.Some? then [r.value] else [])
  {
    var rs := LineResults(lines[..i + 1], sourceFile);
    assert rs[..i] == LineResults(lines[..i], sourceFile);
  }

  /**
   * `parse_file`: the entries of the file's lines, tagged with its base
   * name; a file that cannot be read (`None`) gives none.
   */
  function ParsedFile(content: Option<string>, filePath: string): seq<NodeLogEntry> {
    match content
    case None => []
    case Some(text) => ParsedLines(NonBlankLines(text), Basename(filePath))
  }

  method ParseFile(content: Option<string>, filePath: string) returns (entries: seq<NodeLogEntry>)
    ensures entries == ParsedFile(content, filePath)
  {
    entries := [];
    if content.None? {
      return;
    }
    var lines := NonBlankLines(content.value);
    var source := Basename(filePath);
    for i := 0 to |lines|
      invariant entries == ParsedLines(lines[..i], source)
    {
      var entry := ParseLine(lines[i], source);
      ParsedLinesStep(lines, i, source);
      if entry.Some? {
        entries := entries + [entry.value];
      }
    }
    assert lines[..|lines|] == lines;
  }

  /** An entry is kept iff some line parses to it, and there are at most as many entries as lines. */
  lemma ParsedLinesSpec(lines: seq<string>, sourceFile: string)
    ensures |ParsedLines(lines, sourceFile)| <= |lines|
    ensures forall e :: e in ParsedLines(lines, sourceFile) <==>
      exists i :: 0 <= i < |lines| && ParsedLine(lines[i], sourceFile) == Some(e)
  {
    var rs := LineResults(lines, sourceFile);
    PresentSpec(rs);
    assert forall i :: 0 <= i < |lines| ==> rs[i] == ParsedLine(lines[i], sourceFile);
  }

  /** Every entry of a file carries the file's name. */
  lemma ParsedLinesSource(lines: seq<string>, sourceFile: string)
    ensures forall e :: e in ParsedLines(lines, sourceFile) ==> e.sourceFile == sourceFile
  {
    ParsedLinesSpec(lines, sourceFile);
    forall e | e in ParsedLines(lines, sourceFile)
      ensures e.sourceFile == sourceFile
    {
      var i :| 0 <= i < |lines| && ParsedLine(lines[i], sourceFile) == Some(e);
      ParsedLineSource(lines[i], sourceFile);
    }
  }

  /** Lines read in two batches give the entries of the first batch, then those of the second. */
  lemma ParsedLinesAppend(a: seq<string>, b: seq<string>, sourceFile: string)
    ensures ParsedLines(a + b, sourceFile) == ParsedLines(a, sourceFile) + ParsedLines(b, sourceFile)
  {
    var ra, rb := LineResults(a, sourceFile), LineResults(b, sourceFile);
    forall k | 0 <= k < |a + b| ensures LineResults(a + b, sourceFile)[k] == (ra + rb)[k] {
      if k < |a| {
        assert (a + b)[k] == a[k];
      } else {
        assert (a + b)[k] == b[k - |a|];
      }
    }
    assert LineResults(a + b, sourceFile) == ra + rb;
    PresentAppend(ra, rb);
  }

  /** A file that grows by whole lines yields its old entries followed by those of the new lines. */
  lemma ParsedFileGrows(before: string, added: string, filePath: string)
    requires before == [] || IsNewline(before[|before| - 1])
    ensures ParsedFile(Some(before + added), filePath)
      == ParsedFile(Some(before), filePath) + ParsedFile(Some(added), filePath)
  {
    NonBlankLinesAppend(before, added);
    ParsedLinesAppend(NonBlankLines(before), NonBlankLines(added), Basename(filePath));
  }

  // ---------------------------------------------------------------------
  // CSV rows

  /** The CSV columns, in the order `save_to_csv` writes them. */
  const Fieldnames: seq<string> :=
    ["timestamp", "level", "log_type", "source_file", "message",
     "user_id", "action", "email", "token_count", "error_type", "parsed_at"]

  /** `x or ''` on an optional string. */
  function OrEmpty(x: Option<string>): string { x.GetOr("") }

  /** A row as the dict `to_csv_format` builds: its (column, value) pairs in insertion order. */
  type Row = seq<(string, string)>

  /** The CSV row of one entry; `parsedAt` is the time it was converted. */
  function CsvRow(e: NodeLogEntry, parsedAt: string): Row {
    [("timestamp", e.timestamp), ("level", e.level), ("log_type", e.logType),
     ("source_file", e.sourceFile), ("message", e.message),
     ("user_id", OrEmpty(e.userId)), ("action", OrEmpty(e.action)),
     ("email", OrEmpty(e.email)), ("token_count", OrEmpty(e.tokenCount)),
     ("error_type", OrEmpty(e.errorType)), ("parsed_at", parsedAt)]
  }

  /** The column names of a row, in order. */
  function Columns(row: Row): seq<string> {
    seq(|row|, i requires 0 <= i < |row| => row[i].0)
  }

  /**
   * `to_csv_format`: one row per entry, in order; `clock(i)` is what
   * `datetime.now().isoformat()` returns while the `i`-th row is built.
   */
  method ToCsvFormat(entries: seq<NodeLogEntry>, clock: nat -> string) returns (rows: seq<Row>)
    ensures |rows| == |entries|
    ensures forall i :: 0 <= i < |rows| ==> rows[i] == CsvRow(entries[i], clock(i))
  {
    rows := [];
    for i := 0 to |entries|
      invariant |rows| == i
      invariant forall j :: 0 <= j < i ==> rows[j] == CsvRow(entries[j], clock(j))
    {
      rows := rows + [CsvRow(entries[i], clock(i))];
    }
  }

  /** An empty cell read back as a missing value. */
  function NonEmpty(x: string): Option<string> {
    if x == "" then None else Some(x)
  }

  /** The entry that the cells of a CSV line, in `Fieldnames` order, describe. */
  function FromCells(cells: seq<string>): NodeLogEntry
    requires |cells| == |Fieldnames|
  {
    NodeLogEntry(cells[0], cells[1], cells[4],
      NonEmpty(cells[5]), NonEmpty(cells[6]), NonEmpty(cells[7]),
      NonEmpty(cells[8]), NonEmpty(cells[9]),
      cells[2], cells[3])
  }

  /** The values of a row, in order: the cells `DictWriter` writes. */
  function Cells(row: Row): seq<string> {
    seq(|row|, i requires 0 <= i < |row| => row[i].1)
  }

  /** None of the optional fields holds an empty string, which `or ''` would turn into a missing value. */
  predicate NoEmptyFields(e: NodeLogEntry) {
    e.userId != Some("") && e.action != Some("") && e.email != Some("")
    && e.tokenCount != Some("") && e.errorType != Some("")
  }

  /**
   * A row has exactly the CSV columns in order, ends with the conversion
   * time, and its cells read back as its entry when no optional field is
   * an empty string.
   */
  lemma CsvRowRoundTrip(e: NodeLogEntry, parsedAt: string)
    ensures Columns(CsvRow(e, parsedAt)) == Fieldnames
    ensures Cells(CsvRow(e, parsedAt))[10] == parsedAt
    ensures NoEmptyFields(e) ==> FromCells(Cells(CsvRow(e, parsedAt))) == e
  {
    var row := CsvRow(e, parsedAt);
    assert |Cells(row)| == 11;
  }

  /** Every entry the parser produces has no empty optional field, so its CSV row reads back as it. */
  lemma ParsedLineNoEmptyFields(line: string, sourceFile: string)
    ensures ParsedLine(line, sourceFile).Some? ==> NoEmptyFields(ParsedLine(line, sourceFile).value)
  {
    var s := Strip(line);
    if s != [] && MatchBasic(s).Some? {
      var b := MatchBasic(s).value;
      ExtractedValues(BaseEntry(b, sourceFile), b.message);
    }
  }
}
