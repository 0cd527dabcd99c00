/**
 * Anchored patterns made of literal text and character-class captures, the
 * shape of `^(\S+) - (\S+) \[([^\]]+)\] ... ms$`: matched left to right, each
 * capture taking the longest run of its class. When every capture is
 * followed by the end or by literal text starting outside its class
 * (`Separated`), no backtracking could find another match, so the greedy
 * reading is the regex's.
 */
module Layout {
  import opened Wrappers
  import opened Text

  /** One piece of a pattern: literal text, or a capture `([...]+)` (`plus`) or `([...]*)` of a class. */
  datatype Seg = Lit(text: string) | Field(cls: char -> bool, plus: bool)

  /** The number of captures. */
  function FieldCount(segs: seq<Seg>): nat {
    if segs == [] then 0 else (if segs[0].Field? then 1 else 0) + FieldCount(segs[1..])
  }

  /** The captures when `segs` matches all of `s` from `j` on, or `None`. */
  function MatchFrom(segs: seq<Seg>, s: string, j: nat): (r: Option<seq<string>>)
    requires j <= |s|
    ensures r.Some? ==> |r.value| == FieldCount(segs)
    decreases |segs|
  {
    if segs == [] then (if j == |s| then Some([]) else None)
    else match segs[0]
      case Lit(t) =>
        if OccursAt(s, t, j) then MatchFrom(segs[1..], s, j + |t|) else None
      case Field(cls, plus) =>
        var c := Run(s, j, cls);
        if plus && c == [] then None
        else match MatchFrom(segs[1..], s, j + |c|)
          case None => None
          case Some(rest) => Some([c] + rest)
  }

  /** Each capture is of its class, and not empty where the pattern says `+`. */
  predicate Fits(segs: seq<Seg>, caps: seq<string>)
    requires |caps| == FieldCount(segs)
  {
    if segs == [] then true
    else match segs[0]
      case Lit(_) => Fits(segs[1..], caps)
      case Field(cls, plus) => Every(caps[0], cls) && (plus ==> caps[0] != []) && Fits(segs[1..], caps[1..])
  }

  /** The text the pattern describes, with `caps` in its captures. */
  function Render(segs: seq<Seg>, caps: seq<string>): string
    requires |caps| == FieldCount(segs)
  {
    if segs == [] then []
    else match segs[0]
      case Lit(t) => t + Render(segs[1..], caps)
      case Field(_, _) => caps[0] + Render(segs[1..], caps[1..])
  }

  /** Every capture is followed by the end or by non-empty literal text whose first character is outside its class. */
  predicate Separated(segs: seq<Seg>) {
    segs == [] ||
    ((segs[0].Field? ==>
        |segs| == 1 || (segs[1].Lit? && segs[1].text != [] && !segs[0].cls(segs[1].text[0])))
     && Separated(segs[1..]))
  }

  /** A match is the text the pattern renders from its captures, and the captures fit their classes. */
  lemma {:induction false} MatchSound(segs: seq<Seg>, s: string, j: nat)
    requires j <= |s|
    ensures var r := MatchFrom(segs, s, j);
      r.Some? ==> Fits(segs, r.value) && Render(segs, r.value) == s[j..]
    decreases |segs|
  {
    if segs != [] {
      match segs[0]
      case Lit(t) =>
        if OccursAt(s, t, j) {
          MatchSound(segs[1..], s, j + |t|);
          assert s[j..] == t + s[j + |t|..];
        }
      case Field(cls, plus) =>
        var c := Run(s, j, cls);
        RunSpec(s, j, cls);
        MatchSound(segs[1..], s, j + |c|);
        assert s[j..] == c + s[j + |c|..];
    }
  }

  /** The text rendered from fitting captures matches, and gives back exactly those captures. */
  lemma {:induction false} MatchExact(segs: seq<Seg>, caps: seq<string>, s: string, j: nat)
    requires j <= |s| && Separated(segs)
    requires |caps| == FieldCount(segs) && Fits(segs, caps)
    requires s[j..] == Render(segs, caps)
    ensures MatchFrom(segs, s, j) == Some(caps)
    decreases |segs|
  {
    if segs == [] {
      assert |s[j..]| == 0;
    } else {
      match segs[0]
      case Lit(t) =>
        LitExact(segs, caps, s, j);
        MatchExact(segs[1..], caps, s, j + |t|);
      case Field(cls, plus) =>
        var c := caps[0];
        FieldExact(segs, caps, s, j);
        MatchExact(segs[1..], caps[1..], s, j + |c|);
        assert caps == [c] + caps[1..];
    }
  }

  /** A pattern starting with literal text: the text is at `j`, and the rest of the pattern renders what follows it. */
  lemma LitExact(segs: seq<Seg>, caps: seq<string>, s: string, j: nat)
    requires j <= |s| && segs != [] && segs[0].Lit?
    requires |caps| == FieldCount(segs)
    requires s[j..] == Render(segs, caps)
    ensures j + |segs[0].text| <= |s| && OccursAt(s, segs[0].text, j)
    ensures s[j + |segs[0].text|..] == Render(segs[1..], caps)
  {
    var t := segs[0].text;
    assert s[j..] == t + Render(segs[1..], caps);
    assert s[j..j + |t|] == t;
    assert s[j + |t|..] == Render(segs[1..], caps);
  }

  /** The first capture of a separated pattern is the greedy run at `j`, and the rest of the text is rendered by the rest. */
  lemma FieldExact(segs: seq<Seg>, caps: seq<string>, s: string, j: nat)
    requires j <= |s| && segs != [] && segs[0].Field? && Separated(segs)
    requires |caps| == FieldCount(segs) && Fits(segs, caps)
    requires s[j..] == Render(segs, caps)
    ensures j + |caps[0]| <= |s|
    ensures Run(s, j, segs[0].cls) == caps[0] && s[j + |caps[0]|..] == Render(segs[1..], caps[1..])
  {
    var c := caps[0];
    var rest := Render(segs[1..], caps[1..]);
    assert s[j..] == c + rest;
    assert s[j..j + |c|] == c;
    assert s[j + |c|..] == rest;
    if |segs| > 1 {
      var t := segs[1].text;
      assert rest == t + Render(segs[2..], caps[1..]) by {
        assert segs[1..][0] == segs[1] && segs[1..][1..] == segs[2..];
      }
      assert s[j + |c|] == rest[0] == t[0];
    }
    RunExact(s, j, segs[0].cls, c);
  }

  /** A pattern ending in literal text renders texts that end in it. */
  lemma {:induction false} RenderEndsWith(segs: seq<Seg>, caps: seq<string>, t: string)
    requires |caps| == FieldCount(segs) && segs != [] && segs[|segs| - 1] == Lit(t)
    ensures EndsWith(Render(segs, caps), t)
    decreases |segs|
  {
    if |segs| == 1 {
      assert Render(segs, caps) == t + Render(segs[1..], caps);
    } else {
      assert segs[1..][|segs[1..]| - 1] == Lit(t);
      var rest := if segs[0].Lit? then caps else caps[1..];
      RenderEndsWith(segs[1..], rest, t);
      var head := if segs[0].Lit? then segs[0].text else caps[0];
      assert Render(segs, caps) == head + Render(segs[1..], rest);
      EndsWithAppend(head, Render(segs[1..], rest), t);
    }
  }

  lemma EndsWithAppend(head: string, r: string, t: string)
    requires EndsWith(r, t)
    ensures EndsWith(head + r, t)
  {
    assert (head + r)[|head + r| - |t|..] == r[|r| - |t|..];
  }

  /**
   * Two captures, each followed by literal text starting outside its class:
   * what they capture and the text they render.
   */
  lemma PairShape(segs: seq<Seg>, x: string, y: string)
    requires |segs| == 4 && segs[0].Field? && segs[1].Lit? && segs[2].Field? && segs[3].Lit?
    requires segs[1].text != [] && !segs[0].cls(segs[1].text[0])
    requires segs[3].text != [] && !segs[2].cls(segs[3].text[0])
    ensures FieldCount(segs) == 2 && Separated(segs)
    ensures Fits(segs, [x, y]) <==>
      Every(x, segs[0].cls) && (segs[0].plus ==> x != []) && Every(y, segs[2].cls) && (segs[2].plus ==> y != [])
    ensures Render(segs, [x, y]) == x + segs[1].text + y + segs[3].text
  {
    assert segs[3..][1..] == [];
    assert FieldCount(segs[3..]) == 0 && Separated(segs[3..]);
    assert Render(segs[3..], []) == segs[3].text && Fits(segs[3..], []);
    assert segs[2..][1..] == segs[3..] && segs[2..][1] == segs[3];
    assert FieldCount(segs[2..]) == 1 && Separated(segs[2..]);
    assert [x, y][1..] == [y] && [y][1..] == [];
    assert Render(segs[2..], [y]) == y + segs[3].text;
    assert Fits(segs[2..], [y]) <==> Every(y, segs[2].cls) && (segs[2].plus ==> y != []);
    assert segs[1..][1..] == segs[2..];
    assert Fits(segs[1..], [y]) == Fits(segs[2..], [y]);
    assert FieldCount(segs[1..]) == 1 && Separated(segs[1..]);
  }

  /** Patterns side by side: their captures, fit and rendering side by side. */
  lemma {:induction false} AppendSegs(a: seq<Seg>, b: seq<Seg>, ca: seq<string>, cb: seq<string>)
    requires |ca| == FieldCount(a) && |cb| == FieldCount(b)
    ensures FieldCount(a + b) == FieldCount(a) + FieldCount(b)
    ensures Fits(a + b, ca + cb) <==> Fits(a, ca) && Fits(b, cb)
    ensures Render(a + b, ca + cb) == Render(a, ca) + Render(b, cb)
    decreases |a|
  {
    if a == [] {
      assert a + b == b && ca + cb == cb;
    } else {
      assert (a + b)[0] == a[0] && (a + b)[1..] == a[1..] + b;
      if a[0].Lit? {
        AppendSegs(a[1..], b, ca, cb);
      } else {
        assert (ca + cb)[0] == ca[0] && (ca + cb)[1..] == ca[1..] + cb;
        AppendSegs(a[1..], b, ca[1..], cb);
      }
    }
  }

  /** A pattern ending in literal text, followed by a separated pattern, stays separated. */
  lemma {:induction false} SeparatedAppend(a: seq<Seg>, b: seq<Seg>)
    requires a != [] && a[|a| - 1].Lit? && Separated(a) && Separated(b)
    ensures Separated(a + b)
    decreases |a|
  {
    assert (a + b)[1..] == a[1..] + b;
    if |a| > 1 {
      SeparatedAppend(a[1..], b);
      assert (a + b)[1] == a[1];
    } else {
      assert a[1..] + b == b;
    }
  }
}
