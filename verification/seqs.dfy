/** Slicing and filtering of Python lists, as sequences. */
module Seqs {
  import opened Wrappers

  /** `s[:n]` for a non-negative bound. */
  function Take<T>(s: seq<T>, n: nat): (r: seq<T>)
    ensures |r| == if n < |s| then n else |s|
    ensures r == s[..|r|]
  {
    if n < |s| then s[..n] else s
  }

  /** `s[:n]` for any integer bound: a negative bound counts from the end. */
  function SliceTo<T>(s: seq<T>, n: int): (r: seq<T>)
    ensures |r| <= |s| && r == s[..|r|]
    ensures n >= 0 ==> r == Take(s, n)
    ensures n < 0 ==> |r| == if |s| + n > 0 then |s| + n else 0
  {
    if n >= 0 then Take(s, n)
    else if |s| + n > 0 then s[..|s| + n]
    else []
  }

  /** `s[-n:]` for n > 0: the last `n` elements, or all of them. */
  function Last<T>(s: seq<T>, n: nat): (r: seq<T>)
    ensures |r| == if n < |s| then n else |s|
    ensures r == s[|s| - |r|..]
  {
    if n < |s| then s[|s| - n..] else s
  }

  /** The results of `f` that are present, in order: a loop that appends `f(x)` when it
      yields something. Defined on the last element so that it follows such a loop. */
  function FilterMap<T, U>(f: T -> Option<U>, s: seq<T>): (r: seq<U>)
    ensures |r| <= |s|
  {
    if s == [] then []
    else
      var x := s[|s| - 1];
      FilterMap(f, s[..|s| - 1]) + (if f(x).Some? then [f(x).value] else [])
  }

  /** The elements that satisfy `p`, in order. */
  function Filter<T>(p: T -> bool, s: seq<T>): (r: seq<T>)
    ensures |r| <= |s|
  {
    if s == [] then []
    else
      var x := s[|s| - 1];
      Filter(p, s[..|s| - 1]) + (if p(x) then [x] else [])
  }

  /** One more loop iteration appends what the last element yields. */
  lemma FilterMapStep<T, U>(f: T -> Option<U>, s: seq<T>, i: nat)
    requires i < |s|
    ensures FilterMap(f, s[..i + 1]) ==
            FilterMap(f, s[..i]) + (if f(s[i]).Some? then [f(s[i]).value] else [])
  {
    assert s[..i + 1][..i] == s[..i];
  }

  lemma FilterStep<T>(p: T -> bool, s: seq<T>, i: nat)
    requires i < |s|
    ensures Filter(p, s[..i + 1]) == Filter(p, s[..i]) + (if p(s[i]) then [s[i]] else [])
  {
    assert s[..i + 1][..i] == s[..i];
  }

  /** Everything `FilterMap` yields comes from some element, and every element that yields
      something contributes it. */
  lemma {:induction false} FilterMapMembership<T, U>(f: T -> Option<U>, s: seq<T>, y: U)
    ensures y in FilterMap(f, s) <==> exists x <- s :: f(x) == Some(y)
  {
    if s != [] {
      var init, x := s[..|s| - 1], s[|s| - 1];
      FilterMapMembership(f, init, y);
      assert s == init + [x];
      if f(x) == Some(y) {
        assert y in FilterMap(f, s);
      }
      if exists z <- s :: f(z) == Some(y) {
        var z :| z in s && f(z) == Some(y);
        if z != x {
          assert z in init;
        }
      }
    }
  }

  /** `Filter` keeps exactly the elements that satisfy the predicate. */
  lemma {:induction false} FilterMembership<T>(p: T -> bool, s: seq<T>, x: T)
    ensures x in Filter(p, s) <==> x in s && p(x)
  {
    if s != [] {
      var init := s[..|s| - 1];
      FilterMembership(p, init, x);
      assert s == init + [s[|s| - 1]];
    }
  }

  lemma {:induction false} FilterConcat<T>(p: T -> bool, a: seq<T>, b: seq<T>)
    ensures Filter(p, a + b) == Filter(p, a) + Filter(p, b)
    decreases |b|
  {
    if b != [] {
      var b' := b[..|b| - 1];
      assert (a + b)[..|a + b| - 1] == a + b';
      FilterConcat(p, a, b');
    } else {
      assert a + b == a;
    }
  }

  lemma {:induction false} FilterMapConcat<T, U>(f: T -> Option<U>, a: seq<T>, b: seq<T>)
    ensures FilterMap(f, a + b) == FilterMap(f, a) + FilterMap(f, b)
    decreases |b|
  {
    if b != [] {
      var b' := b[..|b| - 1];
      assert (a + b)[..|a + b| - 1] == a + b';
      FilterMapConcat(f, a, b');
    } else {
      assert a + b == a;
    }
  }

  /** When `f` yields something for every element, `FilterMap` keeps all of it, in order. */
  lemma {:induction false} FilterMapAll<T, U>(f: T -> Option<U>, s: seq<T>, r: seq<U>)
    requires |s| == |r|
    requires forall i | 0 <= i < |s| :: f(s[i]) == Some(r[i])
    ensures FilterMap(f, s) == r
  {
    if s != [] {
      var n := |s| - 1;
      FilterMapAll(f, s[..n], r[..n]);
      assert r == r[..n] + [r[n]];
    }
  }

  /** `Filter` takes each element at most as often as it occurs. */
  lemma {:induction false} FilterMultiset<T>(p: T -> bool, s: seq<T>)
    ensures multiset(Filter(p, s)) <= multiset(s)
  {
    if s != [] {
      var init := s[..|s| - 1];
      FilterMultiset(p, init);
      assert s == init + [s[|s| - 1]];
    }
  }

  /** `(a + b) + c == a + (b + c)`. */
  lemma Assoc<T>(a: seq<T>, b: seq<T>, c: seq<T>)
    ensures (a + b) + c == a + (b + c)
  {
  }

  /** The ends of a concatenation are the outer ends of its parts. */
  lemma ConcatEnds<T>(a: seq<T>, b: seq<T>)
    requires a != [] && b != []
    ensures (a + b)[0] == a[0] && (a + b)[|a + b| - 1] == b[|b| - 1]
  {
  }

  predicate NoDuplicates<T(==)>(s: seq<T>) {
    forall i, j | 0 <= i < j < |s| :: s[i] != s[j]
  }

  /** The number of elements that satisfy `p`. */
  function CountIf<T>(p: T -> bool, s: seq<T>): nat {
    |Filter(p, s)|
  }
}
