/**
 * Line lists: concatenating the lines each item renders to, one list
 * occurring inside another in order (not necessarily contiguously), and
 * how often a line occurs.
 */
module Sequences {

  /** `f` maps each element of `xs` to a position of an equal element of `ys`, positions strictly increasing. */
  ghost predicate IsEmbedding<T>(f: seq<nat>, xs: seq<T>, ys: seq<T>)
  {
    && |f| == |xs|
    && (forall i :: 0 <= i < |f| ==> f[i] < |ys| && ys[f[i]] == xs[i])
    && (forall i, j :: 0 <= i < j < |f| ==> f[i] < f[j])
  }

  /** `xs` occurs in `ys` in order. */
  ghost predicate Subsequence<T>(xs: seq<T>, ys: seq<T>)
  {
    exists f :: IsEmbedding(f, xs, ys)
  }

  lemma EmptySubsequence<T>(ys: seq<T>)
    ensures Subsequence([], ys)
  {
    assert IsEmbedding([], [], ys);
  }

  lemma ElementSubsequence<T>(ys: seq<T>, k: nat)
    requires k < |ys|
    ensures Subsequence([ys[k]], ys)
  {
    assert IsEmbedding([k], [ys[k]], ys);
  }

  /** In-order occurrence is preserved by concatenating both sides. */
  lemma SubsequenceConcat<T>(a: seq<T>, b: seq<T>, c: seq<T>, d: seq<T>)
    requires Subsequence(a, b) && Subsequence(c, d)
    ensures Subsequence(a + c, b + d)
  {
    var f :| IsEmbedding(f, a, b);
    var g :| IsEmbedding(g, c, d);
    var shifted: seq<nat> := seq(|g|, k requires 0 <= k < |g| => g[k] + |b|);
    var h: seq<nat> := f + shifted;
    assert |h| == |a + c|;
    forall i | 0 <= i < |h|
      ensures h[i] < |b + d| && (b + d)[h[i]] == (a + c)[i]
    {
      if i >= |f| {
        assert h[i] == g[i - |f|] + |b|;
      }
    }
    assert IsEmbedding(h, a + c, b + d);
  }

  /** Occurrence in order survives adding lines on either side. */
  lemma SubsequenceWithin<T>(x: seq<T>, pre: seq<T>, ys: seq<T>, post: seq<T>)
    requires Subsequence(x, ys)
    ensures Subsequence(x, pre + ys + post)
  {
    EmptySubsequence(pre);
    SubsequenceConcat([], pre, x, ys);
    EmptySubsequence(post);
    assert [] + x == x && x + [] == x;
    SubsequenceConcat(x, pre + ys, [], post);
  }

  /** The number of elements of `s` equal to `x`. */
  function Count<T(==)>(x: T, s: seq<T>): (r: nat)
    ensures r <= |s|
    ensures r == 0 <==> x !in s
  {
    if |s| == 0 then 0
    else Count(x, s[..|s| - 1]) + (if s[|s| - 1] == x then 1 else 0)
  }

  lemma {:induction false} CountConcat<T>(x: T, a: seq<T>, b: seq<T>)
    ensures Count(x, a + b) == Count(x, a) + Count(x, b)
  {
    if |b| > 0 {
      assert (a + b)[..|a + b| - 1] == a + b[..|b| - 1];
      CountConcat(x, a, b[..|b| - 1]);
    } else {
      assert a + b == a;
    }
  }

  /** The lines of every item of `s`, item after item: a renderer's `for` loop appending to `lines`. */
  function FlatMap<T, U>(f: T -> seq<U>, s: seq<T>): seq<U>
  {
    if |s| == 0 then [] else FlatMap(f, s[..|s| - 1]) + f(s[|s| - 1])
  }

  /** Stated once so that loops appending lines need not rediscover it. */
  lemma AppendAssoc<T>(a: seq<T>, b: seq<T>, c: seq<T>)
    ensures (a + b) + c == a + (b + c)
  {
  }

  /** One more item appends its lines. */
  lemma FlatMapStep<T, U>(f: T -> seq<U>, s: seq<T>, j: nat)
    requires j < |s|
    ensures FlatMap(f, s[..j + 1]) == FlatMap(f, s[..j]) + f(s[j])
  {
    assert s[..j + 1][..j] == s[..j];
  }

  lemma {:induction false} FlatMapConcat<T, U>(f: T -> seq<U>, a: seq<T>, b: seq<T>)
    ensures FlatMap(f, a + b) == FlatMap(f, a) + FlatMap(f, b)
  {
    if |b| == 0 {
      assert a + b == a;
    } else {
      assert (a + b)[..|a + b| - 1] == a + b[..|b| - 1];
      FlatMapConcat(f, a, b[..|b| - 1]);
    }
  }

  /** The lines of item `i` sit between those of the items before it and those after it. */
  lemma {:induction false} FlatMapSplit<T, U>(f: T -> seq<U>, s: seq<T>, i: nat)
    requires i < |s|
    ensures FlatMap(f, s) == FlatMap(f, s[..i]) + f(s[i]) + FlatMap(f, s[i + 1..])
  {
    var front := s[..i] + [s[i]];
    assert s == front + s[i + 1..];
    FlatMapConcat(f, front, s[i + 1..]);
    assert front[..|front| - 1] == s[..i];
    assert FlatMap(f, front) == FlatMap(f, s[..i]) + f(s[i]);
  }

  /** Where the lines of item `i` start. */
  function Offset<T, U>(f: T -> seq<U>, s: seq<T>, i: nat): nat
    requires i <= |s|
  {
    |FlatMap(f, s[..i])|
  }

  /** The lines of item `i` appear, contiguously, at its offset. */
  lemma FlatMapPlaced<T, U>(f: T -> seq<U>, s: seq<T>, i: nat)
    requires i < |s|
    ensures Offset(f, s, i) + |f(s[i])| <= |FlatMap(f, s)|
    ensures FlatMap(f, s)[Offset(f, s, i)..Offset(f, s, i) + |f(s[i])|] == f(s[i])
  {
    FlatMapSplit(f, s, i);
    var pre := FlatMap(f, s[..i]);
    assert FlatMap(f, s) == pre + f(s[i]) + FlatMap(f, s[i + 1..]);
  }

  /** The same, after a fixed prefix such as a renderer's header. */
  lemma FlatMapPlacedAfter<T, U>(prefix: seq<U>, f: T -> seq<U>, s: seq<T>, i: nat)
    requires i < |s|
    ensures |prefix| + Offset(f, s, i) + |f(s[i])| <= |prefix + FlatMap(f, s)|
    ensures (prefix + FlatMap(f, s))[|prefix| + Offset(f, s, i)..|prefix| + Offset(f, s, i) + |f(s[i])|] == f(s[i])
  {
    FlatMapPlaced(f, s, i);
    var o := Offset(f, s, i);
    var body := FlatMap(f, s);
    assert (prefix + body)[|prefix| + o..|prefix| + o + |f(s[i])|] == body[o..o + |f(s[i])|];
  }

  /** Items are rendered in order: the lines of an earlier item end before a later item's begin. */
  lemma FlatMapOrdered<T, U>(f: T -> seq<U>, s: seq<T>, i: nat, j: nat)
    requires i < j <= |s|
    ensures Offset(f, s, i) + |f(s[i])| <= Offset(f, s, j)
  {
    var t := s[..j];
    FlatMapSplit(f, t, i);
    assert t[..i] == s[..i] && t[i] == s[i];
  }

  /** When each item's `g`-lines occur in order in its `f`-lines, so do all of them. */
  lemma {:induction false} FlatMapSubsequence<T, U>(g: T -> seq<U>, f: T -> seq<U>, s: seq<T>)
    requires forall x :: x in s ==> Subsequence(g(x), f(x))
    ensures Subsequence(FlatMap(g, s), FlatMap(f, s))
  {
    if |s| == 0 {
      EmptySubsequence(FlatMap(f, s));
    } else {
      var init := s[..|s| - 1];
      assert forall x :: x in init ==> x in s;
      FlatMapSubsequence(g, f, init);
      assert s[|s| - 1] in s;
      SubsequenceConcat(FlatMap(g, init), FlatMap(f, init), g(s[|s| - 1]), f(s[|s| - 1]));
    }
  }

  /** When each item renders `v` exactly once, all of them render it once per item. */
  lemma {:induction false} FlatMapCountOnce<T, U>(v: U, f: T -> seq<U>, s: seq<T>)
    requires forall x :: x in s ==> Count(v, f(x)) == 1
    ensures Count(v, FlatMap(f, s)) == |s|
  {
    if |s| > 0 {
      var init := s[..|s| - 1];
      assert forall x :: x in init ==> x in s;
      FlatMapCountOnce(v, f, init);
      assert s[|s| - 1] in s;
      CountConcat(v, FlatMap(f, init), f(s[|s| - 1]));
    }
  }

  /** A line no item renders is not in the concatenation. */
  lemma {:induction false} FlatMapAbsent<T, U>(v: U, f: T -> seq<U>, s: seq<T>)
    requires forall x :: x in s ==> v !in f(x)
    ensures v !in FlatMap(f, s)
  {
    if |s| > 0 {
      var init := s[..|s| - 1];
      assert forall x :: x in init ==> x in s;
      FlatMapAbsent(v, f, init);
      assert s[|s| - 1] in s;
    }
  }

  /** How many items of `s` satisfy `p`: a counter bumped under a condition. */
  function CountIf<T>(p: T -> bool, s: seq<T>): (r: nat)
    ensures r <= |s|
  {
    if |s| == 0 then 0 else CountIf(p, s[..|s| - 1]) + (if p(s[|s| - 1]) then 1 else 0)
  }

  lemma {:induction false} CountIfConcat<T>(p: T -> bool, a: seq<T>, b: seq<T>)
    ensures CountIf(p, a + b) == CountIf(p, a) + CountIf(p, b)
  {
    if |b| == 0 {
      assert a + b == a;
    } else {
      assert (a + b)[..|a + b| - 1] == a + b[..|b| - 1];
      CountIfConcat(p, a, b[..|b| - 1]);
    }
  }

  /** One more item adds one exactly when it satisfies `p`. */
  lemma CountIfStep<T>(p: T -> bool, s: seq<T>, j: nat)
    requires j < |s|
    ensures CountIf(p, s[..j + 1]) == CountIf(p, s[..j]) + (if p(s[j]) then 1 else 0)
  {
    assert s[..j + 1][..j] == s[..j];
  }

  /** Items satisfying a stronger condition are no more numerous. */
  lemma {:induction false} CountIfImplies<T>(p: T -> bool, q: T -> bool, s: seq<T>)
    requires forall x :: x in s && p(x) ==> q(x)
    ensures CountIf(p, s) <= CountIf(q, s)
  {
    if |s| > 0 {
      var init := s[..|s| - 1];
      assert forall x :: x in init ==> x in s;
      CountIfImplies(p, q, init);
      assert s[|s| - 1] in s;
    }
  }

  /** Two conditions no item meets together count at most one per item. */
  lemma {:induction false} CountIfDisjoint<T>(p: T -> bool, q: T -> bool, s: seq<T>)
    requires forall x :: x in s ==> !(p(x) && q(x))
    ensures CountIf(p, s) + CountIf(q, s) <= |s|
  {
    if |s| > 0 {
      var init := s[..|s| - 1];
      assert forall x :: x in init ==> x in s;
      CountIfDisjoint(p, q, init);
      assert s[|s| - 1] in s;
    }
  }

  /** Renderers that agree on every item agree on the whole sequence. */
  lemma {:induction false} FlatMapCongruent<T, U>(f: T -> seq<U>, g: T -> seq<U>, s: seq<T>)
    requires forall x :: x in s ==> f(x) == g(x)
    ensures FlatMap(f, s) == FlatMap(g, s)
  {
    if |s| > 0 {
      var init := s[..|s| - 1];
      assert forall x :: x in init ==> x in s;
      FlatMapCongruent(f, g, init);
      assert s[|s| - 1] in s;
    }
  }
}
