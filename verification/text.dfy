/**
 * The Python `str` operations the program relies on, over Dafny strings
 * (sequences of Unicode scalar values, so `len` and indexing agree with Python's).
 * Case mapping covers ASCII letters only.
 */
module Text {

  /** Exactly the characters for which Python's `str.isspace()` holds; the regex class `\s`
      and the argument-less `strip()` / `split()` use the same set. */
  predicate SpaceChar(c: char) {
    c == ' ' || '\t' <= c <= '\r' || '\U{1C}' <= c <= '\U{1F}' || c == '\U{85}' || c == '\U{A0}'
    || c == '\U{1680}' || '\U{2000}' <= c <= '\U{200A}' || c == '\U{2028}' || c == '\U{2029}'
    || c == '\U{202F}' || c == '\U{205F}' || c == '\U{3000}'
  }

  const Whitespace: set<char> := set c: char | c <= '\U{3000}' && SpaceChar(c)

  predicate IsSpace(c: char) { c in Whitespace }

  /** The class `\d` as the program's patterns use it on ASCII text. */
  predicate IsDigit(c: char) { '0' <= c <= '9' }

  predicate IsUpper(c: char) { 'A' <= c <= 'Z' }

  predicate IsLower(c: char) { 'a' <= c <= 'z' }

  predicate IsLetter(c: char) { IsUpper(c) || IsLower(c) }

  function LowerChar(c: char): char {
    if IsUpper(c) then (c as int + 32) as char else c
  }

  function UpperChar(c: char): char {
    if IsLower(c) then (c as int - 32) as char else c
  }

  /** `s.lower()`. */
  function Lower(s: string): (r: string)
    ensures |r| == |s|
    ensures forall i | 0 <= i < |s| :: r[i] == LowerChar(s[i])
  {
    seq(|s|, i requires 0 <= i < |s| => LowerChar(s[i]))
  }

  /** `s.upper()`. */
  function Upper(s: string): (r: string)
    ensures |r| == |s|
    ensures forall i | 0 <= i < |s| :: r[i] == UpperChar(s[i])
  {
    seq(|s|, i requires 0 <= i < |s| => UpperChar(s[i]))
  }

  /** `s.title()`: a letter is upper-cased when the character before it is not a letter,
      lower-cased otherwise. */
  function Title(s: string): (r: string)
    ensures |r| == |s|
  {
    TitleAfter(s, false)
  }

  function TitleAfter(s: string, afterLetter: bool): (r: string)
    ensures |r| == |s|
  {
    if s == [] then []
    else
      var c := s[0];
      var c' := if !IsLetter(c) then c else if afterLetter then LowerChar(c) else UpperChar(c);
      [c'] + TitleAfter(s[1..], IsLetter(c))
  }

  /** Title-casing changes nothing that lower-casing can see. */
  lemma {:induction false} LowerOfTitle(s: string, afterLetter: bool)
    ensures Lower(TitleAfter(s, afterLetter)) == Lower(s)
  {
    if s != [] {
      LowerOfTitle(s[1..], IsLetter(s[0]));
      assert TitleAfter(s, afterLetter)[1..] == TitleAfter(s[1..], IsLetter(s[0]));
    }
  }

  /** `sub in s`. */
  predicate Contains(s: string, sub: string) {
    exists i | 0 <= i <= |s| - |sub| :: OccursAt(s, sub, i)
  }

  predicate OccursAt(s: string, sub: string, i: nat) {
    i + |sub| <= |s| && s[i..i + |sub|] == sub
  }

  /** `s.startswith(p)`. */
  predicate StartsWith(s: string, p: string) {
    |p| <= |s| && s[..|p|] == p
  }

  /** `s.endswith(p)`. */
  predicate EndsWith(s: string, p: string) {
    |p| <= |s| && s[|s| - |p|..] == p
  }

  lemma ConcatStartsWith(a: string, b: string)
    ensures StartsWith(a + b, a)
  {
    assert (a + b)[..|a|] == a;
  }

  lemma ConcatEndsWith(a: string, b: string)
    ensures EndsWith(a + b, b)
  {
    assert (a + b)[|a|..] == b;
  }

  lemma ContainsLeft(a: string, b: string, sub: string)
    requires Contains(a, sub)
    ensures Contains(a + b, sub)
  {
    var i :| 0 <= i <= |a| - |sub| && OccursAt(a, sub, i);
    assert (a + b)[i..i + |sub|] == a[i..i + |sub|];
    assert OccursAt(a + b, sub, i);
  }

  lemma ContainsRight(a: string, b: string, sub: string)
    requires Contains(b, sub)
    ensures Contains(a + b, sub)
  {
    var i :| 0 <= i <= |b| - |sub| && OccursAt(b, sub, i);
    assert (a + b)[|a| + i..|a| + i + |sub|] == b[i..i + |sub|];
    assert OccursAt(a + b, sub, |a| + i);
  }

  /** A string none of whose characters is `sub[0]` does not contain `sub`. */
  lemma NotContainsFirst(s: string, sub: string)
    requires sub != [] && sub[0] !in s
    ensures !Contains(s, sub)
  {
    forall i | 0 <= i <= |s| - |sub| ensures !OccursAt(s, sub, i) {
      assert s[i..i + |sub|][0] == s[i];
    }
  }

  /** Every occurrence of `sub` inside a part of `s` is an occurrence in `s`. */
  lemma ContainsSlice(s: string, lo: nat, hi: nat, sub: string)
    requires lo <= hi <= |s| && Contains(s[lo..hi], sub)
    ensures Contains(s, sub)
  {
    var i :| 0 <= i <= hi - lo - |sub| && OccursAt(s[lo..hi], sub, i);
    assert i + |sub| <= hi - lo;
    forall k | 0 <= k < |sub| ensures s[lo + i + k] == sub[k] {
      assert s[lo..hi][i..i + |sub|][k] == sub[k];
    }
    assert s[lo + i..lo + i + |sub|] == sub;
    assert OccursAt(s, sub, lo + i);
  }

  /** Containment is transitive. */
  lemma ContainsTrans(a: string, b: string, c: string)
    requires Contains(a, b) && Contains(b, c)
    ensures Contains(a, c)
  {
    var i :| 0 <= i <= |a| - |b| && OccursAt(a, b, i);
    assert a[i..i + |b|] == b;
    ContainsSlice(a, i, i + |b|, c);
  }

  /** A string ending with `p` contains `p`. */
  lemma EndsWithContains(s: string, p: string)
    requires EndsWith(s, p)
    ensures Contains(s, p)
  {
    assert OccursAt(s, p, |s| - |p|);
  }

  // ---------------------------------------------------------------------------------------
  // Stripping: `s.lstrip(cs)`, `s.rstrip(cs)`, `s.strip(cs)`; without `cs`, whitespace.
  // `re.sub(r'^[...]+', '', s)` for a character class is `LStripSet(s, class)` as well.
  // ---------------------------------------------------------------------------------------

  function LStripSet(s: string, cs: set<char>): (r: string)
    ensures |r| <= |s| && r == s[|s| - |r|..]
    ensures r == [] || r[0] !in cs
    ensures forall i | 0 <= i < |s| - |r| :: s[i] in cs
  {
    if s == [] || s[0] !in cs then s else LStripSet(s[1..], cs)
  }

  function RStripSet(s: string, cs: set<char>): (r: string)
    ensures |r| <= |s| && r == s[..|r|]
    ensures r == [] || r[|r| - 1] !in cs
    ensures forall i | |r| <= i < |s| :: s[i] in cs
  {
    if s == [] || s[|s| - 1] !in cs then s else RStripSet(s[..|s| - 1], cs)
  }

  /** Both ends stripped. Defined one character at a time, front first, which is the same
      as `RStripSet(LStripSet(s, cs), cs)` (`StripSetEnds`). */
  function StripSet(s: string, cs: set<char>): (r: string)
    ensures |r| <= |s|
    ensures r == [] || (r[0] !in cs && r[|r| - 1] !in cs)
  {
    if s == [] then s
    else if s[0] in cs then StripSet(s[1..], cs)
    else if s[|s| - 1] in cs then StripSet(s[..|s| - 1], cs)
    else s
  }

  /** Stripping both ends is stripping the front, then the back. */
  lemma {:induction false} StripSetEnds(s: string, cs: set<char>)
    ensures StripSet(s, cs) == RStripSet(LStripSet(s, cs), cs)
    decreases |s|
  {
    if s != [] {
      if s[0] in cs {
        StripSetEnds(s[1..], cs);
      } else if s[|s| - 1] in cs {
        StripSetEnds(s[..|s| - 1], cs);
        assert LStripSet(s[..|s| - 1], cs) == s[..|s| - 1];
      }
    }
  }

  function Strip(s: string): (r: string)
    ensures |r| <= |s|
    ensures r == [] || (!IsSpace(r[0]) && !IsSpace(r[|r| - 1]))
  {
    StripSet(s, Whitespace)
  }

  function LStrip(s: string): (r: string)
    ensures |r| <= |s| && r == s[|s| - |r|..]
    ensures r == [] || !IsSpace(r[0])
  {
    LStripSet(s, Whitespace)
  }

  /** Leading characters from the set go, up to the first one outside it. */
  lemma {:induction false} LStripSetPrefix(pre: string, s: string, cs: set<char>)
    requires forall c <- pre :: c in cs
    requires s == [] || s[0] !in cs
    ensures LStripSet(pre + s, cs) == s
    decreases |pre|
  {
    if pre != [] {
      assert (pre + s)[1..] == pre[1..] + s;
      LStripSetPrefix(pre[1..], s, cs);
    } else {
      assert pre + s == s;
    }
  }

  /** Trailing characters from the set go, back to the last one outside it. */
  lemma {:induction false} RStripSetSuffix(s: string, post: string, cs: set<char>)
    requires forall c <- post :: c in cs
    requires s == [] || s[|s| - 1] !in cs
    ensures RStripSet(s + post, cs) == s
    decreases |post|
  {
    if post != [] {
      assert (s + post)[..|s + post| - 1] == s + post[..|post| - 1];
      RStripSetSuffix(s, post[..|post| - 1], cs);
    } else {
      assert s + post == s;
    }
  }

  /** Right-stripping does not reach past a character outside the set. */
  lemma {:induction false} RStripSetFront(p: string, s: string, cs: set<char>)
    requires p != [] && p[|p| - 1] !in cs
    ensures RStripSet(p + s, cs) == p + RStripSet(s, cs)
    decreases |s|
  {
    if s == [] {
      assert p + s == p;
    } else if s[|s| - 1] in cs {
      assert (p + s)[..|p + s| - 1] == p + s[..|s| - 1];
      RStripSetFront(p, s[..|s| - 1], cs);
    }
  }

  /** `strip()` leaves nothing exactly when every character is whitespace. */
  lemma StripEmpty(s: string)
    ensures Strip(s) == [] <==> forall c <- s :: IsSpace(c)
  {
    StripSetEnds(s, Whitespace);
    var l := LStripSet(s, Whitespace);
    if forall c <- s :: IsSpace(c) {
      if l != [] {
        assert l[0] == s[|s| - |l|];
      }
    }
  }

  /** Stripping only removes characters. */
  lemma StripSetKeeps(s: string, cs: set<char>)
    ensures forall c <- StripSet(s, cs) :: c in s
  {
    StripSetEnds(s, cs);
    var l := LStripSet(s, cs);
    var r := RStripSet(l, cs);
    forall c | c in r ensures c in s {
      var i :| 0 <= i < |r| && r[i] == c;
      assert l[i] == c;
      assert s[|s| - |l| + i] == c;
    }
  }

  /** A string that neither begins nor ends with a stripped character is left alone. */
  lemma StripSetNoop(s: string, cs: set<char>)
    requires s == [] || (s[0] !in cs && s[|s| - 1] !in cs)
    ensures StripSet(s, cs) == s
  {
  }

  /** Stripping twice is stripping once. */
  lemma StripSetIdempotent(s: string, cs: set<char>)
    ensures StripSet(StripSet(s, cs), cs) == StripSet(s, cs)
  {
    StripSetNoop(StripSet(s, cs), cs);
  }

  /** Leading characters from the stripped set do not affect the result. */
  lemma StripSetCons(c: char, s: string, cs: set<char>)
    requires c in cs
    ensures StripSet([c] + s, cs) == StripSet(s, cs)
  {
    assert ([c] + s)[1..] == s;
  }

  // ---------------------------------------------------------------------------------------
  // Splitting and joining.
  // ---------------------------------------------------------------------------------------

  /** `s.split(sep)` for a non-empty separator: leftmost non-overlapping occurrences. */
  function SplitStr(s: string, sep: string): (r: seq<string>)
    requires sep != []
    ensures |r| >= 1
    decreases |s|
  {
    if |s| < |sep| then [s]
    else if s[..|sep|] == sep then [""] + SplitStr(s[|sep|..], sep)
    else
      var rest := SplitStr(s[1..], sep);
      [[s[0]] + rest[0]] + rest[1..]
  }

  /** `sep.join(parts)`. */
  function Join(parts: seq<string>, sep: string): string
  {
    if |parts| == 0 then ""
    else if |parts| == 1 then parts[0]
    else parts[0] + sep + Join(parts[1..], sep)
  }

  /** The lines of a reply: `text.split('\n')`. */
  function Lines(text: string): (r: seq<string>)
    ensures |r| >= 1
  {
    SplitStr(text, "\n")
  }

  /** A string free of the separator's first character is one piece. */
  lemma {:induction false} SplitStrWhole(p: string, sep: string)
    requires sep != [] && sep[0] !in p
    ensures SplitStr(p, sep) == [p]
    decreases |p|
  {
    if |p| >= |sep| {
      assert p[..|sep|][0] == p[0] != sep[0];
      SplitStrWhole(p[1..], sep);
      assert [p[0]] + p[1..] == p;
    }
  }

  /** A string missing some character of the separator is one piece. */
  lemma {:induction false} SplitStrWholeAt(p: string, sep: string, k: nat)
    requires k < |sep| && sep[k] !in p
    ensures SplitStr(p, sep) == [p]
    decreases |p|
  {
    if |p| >= |sep| {
      assert p[..|sep|][k] == p[k] && p[k] in p;
      SplitStrWholeAt(p[1..], sep, k);
      assert [p[0]] + p[1..] == p;
    }
  }

  /** Splitting a piece followed by the separator peels the piece off. */
  lemma {:induction false} SplitStrFront(p: string, sep: string, t: string)
    requires sep != [] && sep[0] !in p
    ensures SplitStr(p + sep + t, sep) == [p] + SplitStr(t, sep)
    decreases |p|
  {
    var s := p + sep + t;
    if p == [] {
      assert s[..|sep|] == sep;
      assert s[|sep|..] == t;
    } else {
      assert s[..|sep|][0] == p[0] != sep[0];
      assert s[1..] == p[1..] + sep + t;
      SplitStrFront(p[1..], sep, t);
      assert [p[0]] + p[1..] == p;
    }
  }

  /** Joining the pieces of a split with the same separator gives the string back. */
  lemma {:induction false} JoinSplit(s: string, sep: string)
    requires sep != []
    ensures Join(SplitStr(s, sep), sep) == s
    decreases |s|
  {
    if |s| >= |sep| {
      if s[..|sep|] == sep {
        var t := s[|sep|..];
        JoinSplit(t, sep);
        assert SplitStr(s, sep) == [""] + SplitStr(t, sep);
        assert ([""] + SplitStr(t, sep))[1..] == SplitStr(t, sep);
        assert s == sep + t;
      } else {
        var t := s[1..];
        JoinSplit(t, sep);
        var rt := SplitStr(t, sep);
        assert SplitStr(s, sep) == [[s[0]] + rt[0]] + rt[1..];
        JoinCons(s[0], rt, sep);
        assert [s[0]] + t == s;
      }
    }
  }

  /** Prefixing the first piece prefixes the joined text. */
  lemma JoinCons(c: char, parts: seq<string>, sep: string)
    requires |parts| >= 1
    ensures Join([[c] + parts[0]] + parts[1..], sep) == [c] + Join(parts, sep)
  {
    var ps := [[c] + parts[0]] + parts[1..];
    if |parts| >= 2 {
      assert ps[1..] == parts[1..];
    }
  }

  /** The joined text ends with the separator and the last piece. */
  lemma {:induction false} JoinSnoc(parts: seq<string>, sep: string)
    requires |parts| >= 2
    ensures Join(parts, sep) == Join(parts[..|parts| - 1], sep) + sep + parts[|parts| - 1]
  {
    if |parts| > 2 {
      JoinSnoc(parts[1..], sep);
      assert parts[1..][..|parts| - 2] == parts[..|parts| - 1][1..];
    }
  }

  /** The last piece of a split holds no occurrence of the separator, and there is a
      single piece exactly when the separator does not occur. */
  lemma {:induction false} SplitStrLastFree(s: string, sep: string)
    requires sep != []
    ensures var r := SplitStr(s, sep); !Contains(r[|r| - 1], sep)
    ensures |SplitStr(s, sep)| == 1 <==> !Contains(s, sep)
    decreases |s|
  {
    var r := SplitStr(s, sep);
    if |s| < |sep| {
      assert r == [s];
    } else if s[..|sep|] == sep {
      var t := s[|sep|..];
      SplitStrLastFree(t, sep);
      var rt := SplitStr(t, sep);
      assert r == [""] + rt;
      assert r[|r| - 1] == rt[|rt| - 1];
      assert OccursAt(s, sep, 0);
    } else {
      var t := s[1..];
      SplitStrLastFree(t, sep);
      var rt := SplitStr(t, sep);
      assert r == [[s[0]] + rt[0]] + rt[1..];
      if |rt| >= 2 {
        assert r[|r| - 1] == rt[|rt| - 1];
        assert s == [s[0]] + t;
        ContainsRight([s[0]], t, sep);
      } else {
        JoinSplit(t, sep);
        assert rt == [t];
        assert [s[0]] + t == s;
        assert r == [s];
        NotContainsAfterFirst(s, sep);
      }
    }
  }

  /** With no occurrence at the front nor in the tail, there is none. */
  lemma NotContainsAfterFirst(s: string, sep: string)
    requires |s| >= 1 && !OccursAt(s, sep, 0) && !Contains(s[1..], sep)
    ensures !Contains(s, sep)
  {
    if Contains(s, sep) {
      var i :| 0 <= i <= |s| - |sep| && OccursAt(s, sep, i);
      assert s[1..][i - 1..i - 1 + |sep|] == s[i..i + |sep|];
      assert OccursAt(s[1..], sep, i - 1);
    }
  }

  /** Joining pieces that do not contain the separator's first character, then splitting,
      gives the pieces back. */
  lemma {:induction false} SplitJoin(parts: seq<string>, sep: string)
    requires sep != [] && |parts| >= 1
    requires forall p <- parts :: sep[0] !in p
    ensures SplitStr(Join(parts, sep), sep) == parts
  {
    if |parts| == 1 {
      SplitStrWhole(parts[0], sep);
    } else {
      SplitJoin(parts[1..], sep);
      SplitStrFront(parts[0], sep, Join(parts[1..], sep));
      assert [parts[0]] + parts[1..] == parts;
    }
  }

  /** No piece of a split contains the separator's first character when the separator is
      a single character. */
  lemma {:induction false} SplitPiecesFree(s: string, c: char)
    ensures forall p <- SplitStr(s, [c]) :: c !in p
    decreases |s|
  {
    if |s| >= 1 {
      SplitPiecesFree(s[1..], c);
    }
  }

  // ---------------------------------------------------------------------------------------
  // Words: `s.split()` with no argument.
  // ---------------------------------------------------------------------------------------

  /** Length of the longest prefix free of characters in `cs`. */
  function SpanNot(s: string, cs: set<char>): (n: nat)
    ensures n <= |s|
    ensures forall i | 0 <= i < n :: s[i] !in cs
    ensures n == |s| || s[n] in cs
  {
    if s == [] || s[0] in cs then 0 else 1 + SpanNot(s[1..], cs)
  }

  /** The span stops exactly at the first character of `cs`. */
  lemma {:induction false} SpanNotConcat(p: string, t: string, cs: set<char>)
    requires forall c <- p :: c !in cs
    requires t == [] || t[0] in cs
    ensures SpanNot(p + t, cs) == |p|
    decreases |p|
  {
    if p == [] {
      assert p + t == t;
    } else {
      assert p[0] in p;
      assert (p + t)[1..] == p[1..] + t;
      SpanNotConcat(p[1..], t, cs);
    }
  }

  /** A word: a nonempty run of non-space characters. */
  predicate IsWord(w: string) {
    w != [] && forall c <- w :: !IsSpace(c)
  }

  function Words(s: string): (r: seq<string>)
    ensures forall w <- r :: IsWord(w)
    ensures |r| <= |s|
    decreases |s|
  {
    var t := LStrip(s);
    if t == [] then []
    else
      var n := SpanNot(t, Whitespace);
      var w := t[..n];
      assert IsWord(w) by {
        assert t[0] !in Whitespace;
        forall c <- w ensures !IsSpace(c) {
          var i :| 0 <= i < |w| && w[i] == c;
          assert t[i] == c;
        }
      }
      var rest := Words(t[n..]);
      assert forall x <- [w] + rest :: x == w || x in rest;
      [w] + rest
  }

  /** A text has no words exactly when it is all whitespace. */
  lemma WordsNone(s: string)
    ensures Words(s) == [] <==> forall c <- s :: IsSpace(c)
  {
    var t := LStrip(s);
    if t == [] {
      forall c <- s ensures IsSpace(c) {
        var i :| 0 <= i < |s| && s[i] == c;
      }
    } else {
      assert s[|s| - |t|] == t[0];
    }
  }
}
