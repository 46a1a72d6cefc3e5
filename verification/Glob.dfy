/** Whether two `*` globs can name the same file. The decision looks only at the text before the first
    star and after the last one; it is exact. */
module Glob {

  type Text = seq<char>

  const STAR: char := '*'

  /** Matching: a star stands for any string, slashes included; every other character for itself. */
  predicate Match(p: Text, s: Text)
    decreases |p| + |s|
  {
    if p == [] then s == []
    else if p[0] == STAR then Match(p[1..], s) || (s != [] && Match(p, s[1..]))
    else s != [] && s[0] == p[0] && Match(p[1..], s[1..])
  }

  function FirstStar(p: Text): (n: nat)
    requires STAR in p
    ensures n < |p| && p[n] == STAR && forall k :: 0 <= k < n ==> p[k] != STAR
  {
    if p[0] == STAR then 0 else FirstStar(p[1..]) + 1
  }

  function LastStar(p: Text): (n: nat)
    requires STAR in p
    ensures n < |p| && p[n] == STAR && forall k :: n < k < |p| ==> p[k] != STAR
  {
    if p[|p| - 1] == STAR then |p| - 1 else LastStar(p[..|p| - 1])
  }

  /** The two strings agree as far as the shorter one goes, from the front or from the back. */
  predicate PrefixesAgree(a: Text, b: Text) {
    var n := if |a| < |b| then |a| else |b|;
    a[..n] == b[..n]
  }

  predicate SuffixesAgree(a: Text, b: Text) {
    var n := if |a| < |b| then |a| else |b|;
    a[|a| - n..] == b[|b| - n..]
  }

  /** The text before the first star and after the last. */
  function Prefix(p: Text): Text
    requires STAR in p
  {
    p[..FirstStar(p)]
  }

  function Suffix(p: Text): Text
    requires STAR in p
  {
    p[LastStar(p) + 1..]
  }

  predicate Overlap(a: Text, b: Text) {
    if STAR !in a then Match(b, a)
    else if STAR !in b then Match(a, b)
    else PrefixesAgree(Prefix(a), Prefix(b)) && SuffixesAgree(Suffix(a), Suffix(b))
  }

  // ---- matching and fixed text ----

  lemma {:induction false} LiteralMatch(p: Text, s: Text)
    requires STAR !in p
    ensures Match(p, s) <==> s == p
    decreases |p|
  {
    if p != [] && s != [] {
      LiteralMatch(p[1..], s[1..]);
      assert p == [p[0]] + p[1..] && s == [s[0]] + s[1..];
    }
  }

  /** Fixed text in front must stand in front. */
  lemma {:induction false} FixedPrefix(lit: Text, p: Text, s: Text)
    requires STAR !in lit
    ensures Match(lit + p, s) <==> |lit| <= |s| && s[..|lit|] == lit && Match(p, s[|lit|..])
    decreases |lit|
  {
    if lit == [] {
      assert lit + p == p && s[0..] == s;
    } else {
      assert (lit + p)[1..] == lit[1..] + p;
      if s != [] {
        FixedPrefix(lit[1..], p, s[1..]);
        if |lit| <= |s| {
          assert s[1..][|lit| - 1..] == s[|lit|..];
          assert s[..|lit|] == [s[0]] + s[1..][..|lit| - 1];
          assert lit == [lit[0]] + lit[1..];
        }
      }
    }
  }

  /** Fixed text at the end must stand at the end. */
  lemma {:induction false} FixedSuffix(p: Text, lit: Text, s: Text)
    requires STAR !in lit
    ensures Match(p + lit, s) <==> |lit| <= |s| && s[|s| - |lit|..] == lit && Match(p, s[..|s| - |lit|])
    decreases |p| + |s|
  {
    var n := |s| - |lit|;
    if p == [] {
      assert p + lit == lit;
      LiteralMatch(lit, s);
    } else {
      assert (p + lit)[1..] == p[1..] + lit && (p + lit)[0] == p[0];
      if p[0] == STAR { FixedSuffix(p[1..], lit, s); }
      if s != [] {
        if p[0] == STAR { FixedSuffix(p, lit, s[1..]); } else { FixedSuffix(p[1..], lit, s[1..]); }
        if n > 0 {
          assert s[1..][n - 1..] == s[n..] && s[1..][..n - 1] == s[..n][1..];
        } else if n == 0 {
          assert s[..n] == [];
        }
      }
    }
  }

  // ---- stars absorb ----

  lemma {:induction false} Absorb(p: Text, x: Text, s: Text)
    requires Match(p, s)
    ensures Match([STAR] + p, x + s)
    decreases |x|
  {
    assert ([STAR] + p)[1..] == p;
    if x == [] {
      assert x + s == s;
    } else {
      Absorb(p, x[1..], s);
      assert (x + s)[1..] == x[1..] + s;
    }
  }

  /** A pattern's own text, with each star empty. */
  function Fixed(p: Text): Text {
    if p == [] then [] else if p[0] == STAR then Fixed(p[1..]) else [p[0]] + Fixed(p[1..])
  }

  lemma {:induction false} FixedMatches(p: Text, y: Text)
    requires p != [] && p[|p| - 1] == STAR
    ensures Match(p, Fixed(p) + y)
    decreases |p|
  {
    hide Match;
    if |p| == 1 {
      OneStar(y);
      assert p == [STAR] && p[1..] == [] && Fixed(p) + y == y;
    } else {
      FixedMatches(p[1..], y);
      if p[0] == STAR {
        Absorb(p[1..], [], Fixed(p) + y);
        assert [STAR] + p[1..] == p && [] + (Fixed(p) + y) == Fixed(p) + y;
      } else {
        assert p == [p[0]] + p[1..] && Fixed(p) + y == [p[0]] + (Fixed(p[1..]) + y);
        FixedPrefix([p[0]], p[1..], [p[0]] + (Fixed(p[1..]) + y));
      }
    }
  }

  /** A star alone accepts everything. */
  lemma OneStar(y: Text)
    ensures Match([STAR], y)
  {
    assert Match([], []);
    Absorb([], y, []);
    assert [STAR] + [] == [STAR] && y + [] == y;
  }

  /** Between its first and last star a pattern accepts its own text with anything around it. */
  lemma MiddleMatches(mid: Text, x: Text, y: Text)
    requires mid != [] && mid[0] == STAR && mid[|mid| - 1] == STAR
    ensures Match(mid, x + (Fixed(mid) + y))
  {
    hide Match;
    if |mid| == 1 {
      assert mid == [STAR];
      OneStar(x + (Fixed(mid) + y));
    } else {
      assert mid == [STAR] + mid[1..];
      FixedMatches(mid[1..], y);
      Absorb(mid[1..], x, Fixed(mid) + y);
    }
  }

  function Middle(p: Text): (m: Text)
    requires STAR in p
    ensures m != [] && m[0] == STAR && m[|m| - 1] == STAR && p == Prefix(p) + (m + Suffix(p))
  {
    p[FirstStar(p)..LastStar(p) + 1]
  }

  lemma StarFree(p: Text)
    requires STAR in p
    ensures STAR !in Prefix(p) && STAR !in Suffix(p)
  {
  }

  /** Matching a starred pattern, piece by piece. */
  lemma StarredMatch(p: Text, s: Text)
    requires STAR in p
    ensures Match(p, s) <==>
              var u, v := Prefix(p), Suffix(p);
              |u| + |v| <= |s| && s[..|u|] == u && s[|s| - |v|..] == v && Match(Middle(p), s[|u|..|s| - |v|])
  {
    hide Match, Middle, Prefix, Suffix;
    var u, m, v := Prefix(p), Middle(p), Suffix(p);
    StarFree(p);
    FixedPrefix(u, m + v, s);
    if |u| <= |s| {
      var t := s[|u|..];
      FixedSuffix(m, v, t);
      if |v| <= |t| {
        assert t[|t| - |v|..] == s[|s| - |v|..] && t[..|t| - |v|] == s[|u|..|s| - |v|];
      }
    }
  }

  // ---- the decision ----

  function Longer(a: Text, b: Text): Text { if |a| < |b| then b else a }

  /** A string both patterns match when the decision says yes. */
  function Witness(a: Text, b: Text): Text
    requires STAR in a && STAR in b
  {
    Longer(Prefix(a), Prefix(b)) + (Fixed(Middle(a)) + Fixed(Middle(b))) + Longer(Suffix(a), Suffix(b))
  }

  /** A pattern accepts a string that begins with its prefix, ends with its suffix and has its own text
      somewhere between. */
  lemma WitnessMatches(p: Text, l: Text, x: Text, y: Text, r: Text)
    requires STAR in p && |Prefix(p)| <= |l| && l[..|Prefix(p)|] == Prefix(p)
    requires |Suffix(p)| <= |r| && r[|r| - |Suffix(p)|..] == Suffix(p)
    ensures Match(p, l + (x + (Fixed(Middle(p)) + y)) + r)
  {
    hide Match, Middle, Fixed, Prefix, Suffix;
    var u, v, m := Prefix(p), Suffix(p), Middle(p);
    var s := l + (x + (Fixed(m) + y)) + r;
    var x', y' := l[|u|..] + x, y + r[..|r| - |v|];
    MiddleMatches(m, x', y');
    assert s[|u|..|s| - |v|] == x' + (Fixed(m) + y');
    assert s[|s| - |v|..] == v;
    StarredMatch(p, s);
  }

  lemma OverlapHolds(a: Text, b: Text)
    requires STAR in a && STAR in b && Overlap(a, b)
    ensures Match(a, Witness(a, b)) && Match(b, Witness(a, b))
  {
    hide Match, Middle, Fixed, Prefix, Suffix;
    var l, r := Longer(Prefix(a), Prefix(b)), Longer(Suffix(a), Suffix(b));
    var fa, fb := Fixed(Middle(a)), Fixed(Middle(b));
    WitnessMatches(a, l, [], fb, r);
    assert [] + (fa + fb) == fa + fb;
    WitnessMatches(b, l, fa, [], r);
    assert fa + (fb + []) == fa + fb;
  }

  lemma CommonEnds(s: Text, a: Text, b: Text)
    requires |a| <= |s| && |b| <= |s|
    ensures s[..|a|] == a && s[..|b|] == b ==> PrefixesAgree(a, b)
    ensures s[|s| - |a|..] == a && s[|s| - |b|..] == b ==> SuffixesAgree(a, b)
  {
    var n := if |a| < |b| then |a| else |b|;
    if s[..|a|] == a && s[..|b|] == b {
      assert a[..n] == s[..n] == b[..n];
    }
    if s[|s| - |a|..] == a && s[|s| - |b|..] == b {
      assert a[|a| - n..] == s[|s| - n..] == b[|b| - n..];
    }
  }

  /** The decision is exact: it says yes if and only if some string matches both patterns. */
  lemma OverlapExact(a: Text, b: Text)
    ensures Overlap(a, b) <==> exists s :: Match(a, s) && Match(b, s)
  {
    hide Match;
    if STAR !in a {
      LiteralSide(a, b);
    } else if STAR !in b {
      LiteralSide(b, a);
    } else {
      if Overlap(a, b) { OverlapHolds(a, b); }
      forall s | Match(a, s) && Match(b, s)
        ensures Overlap(a, b)
      {
        OverlapNeeded(a, b, s);
      }
    }
  }

  /** A pattern without stars matches only itself. */
  lemma LiteralSide(a: Text, b: Text)
    requires STAR !in a
    ensures Match(b, a) <==> exists s :: Match(a, s) && Match(b, s)
  {
    hide Match;
    LiteralMatch(a, a);
    if Match(b, a) { assert Match(a, a) && Match(b, a); }
    forall s | Match(a, s) && Match(b, s)
      ensures Match(b, a)
    {
      LiteralMatch(a, s);
    }
  }

  lemma OverlapNeeded(a: Text, b: Text, s: Text)
    requires STAR in a && STAR in b && Match(a, s) && Match(b, s)
    ensures Overlap(a, b)
  {
    hide Match, Prefix, Suffix, Middle;
    StarredMatch(a, s);
    StarredMatch(b, s);
    CommonEnds(s, Prefix(a), Prefix(b));
    CommonEnds(s, Suffix(a), Suffix(b));
  }

  /** The pattern `*` matches everything, and a pattern without it only itself. */
  lemma {:induction false} StarIsWild(s: Text)
    ensures Match("*", s)
    decreases |s|
  {
    assert "*"[1..] == "";
    if s != [] { StarIsWild(s[1..]); }
  }

  lemma {:induction false} PlainIsItself(p: Text, s: Text)
    requires '*' !in p
    ensures Match(p, s) <==> s == p
    decreases |p|
  {
    if p != [] {
      assert p == [p[0]] + p[1..];
      if s != [] {
        assert s == [s[0]] + s[1..];
        PlainIsItself(p[1..], s[1..]);
      }
    }
  }
}
