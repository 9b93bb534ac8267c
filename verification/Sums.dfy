/** Exact sums of quantities over finite sets and lists. */
module Sums {

  ghost function SumSet<T(!new)>(s: set<T>, f: T -> real): real {
    if s == {} then 0.0 else
      var x :| x in s;
      f(x) + SumSet(s - {x}, f)
  }

  /** Any element may be taken out first. */
  lemma {:induction false} SumSetTake<T(!new)>(s: set<T>, f: T -> real, x: T)
    requires x in s
    ensures SumSet(s, f) == f(x) + SumSet(s - {x}, f)
  {
    var y :| y in s && SumSet(s, f) == f(y) + SumSet(s - {y}, f);
    if y != x {
      SumSetTake(s - {y}, f, x);
      SumSetTake(s - {x}, f, y);
      assert s - {y} - {x} == s - {x} - {y};
    }
  }

  lemma {:induction false} SumSetEqual<T(!new)>(s: set<T>, f: T -> real, g: T -> real)
    requires forall x | x in s :: f(x) == g(x)
    ensures SumSet(s, f) == SumSet(s, g)
  {
    if s != {} {
      var x :| x in s;
      SumSetTake(s, f, x);
      SumSetTake(s, g, x);
      SumSetEqual(s - {x}, f, g);
    }
  }

  lemma {:induction false} SumSetAtMost<T(!new)>(s: set<T>, f: T -> real, g: T -> real)
    requires forall x | x in s :: f(x) <= g(x)
    ensures SumSet(s, f) <= SumSet(s, g)
  {
    if s != {} {
      var x :| x in s;
      SumSetTake(s, f, x);
      SumSetTake(s, g, x);
      SumSetAtMost(s - {x}, f, g);
    }
  }

  lemma {:induction false} SumSetAdd<T(!new)>(s: set<T>, f: T -> real, g: T -> real, h: T -> real)
    requires forall x | x in s :: h(x) == f(x) + g(x)
    ensures SumSet(s, h) == SumSet(s, f) + SumSet(s, g)
  {
    if s != {} {
      var x :| x in s;
      SumSetTake(s, f, x);
      SumSetTake(s, g, x);
      SumSetTake(s, h, x);
      SumSetAdd(s - {x}, f, g, h);
    }
  }

  lemma {:induction false} SumSetZero<T(!new)>(s: set<T>, f: T -> real)
    requires forall x | x in s :: f(x) == 0.0
    ensures SumSet(s, f) == 0.0
  {
    if s != {} {
      var x :| x in s;
      SumSetTake(s, f, x);
      SumSetZero(s - {x}, f);
    }
  }

  /** Terms that are zero can be dropped. */
  lemma {:induction false} SumSetSupport<T(!new)>(s: set<T>, t: set<T>, f: T -> real)
    requires s <= t
    requires forall x | x in t - s :: f(x) == 0.0
    ensures SumSet(s, f) == SumSet(t, f)
  {
    if t - s != {} {
      var x :| x in t - s;
      SumSetTake(t, f, x);
      SumSetSupport(s, t - {x}, f);
    } else {
      assert forall x | x in t :: x in t - s || x in s;
      assert s == t;
    }
  }

  /** A sum of natural numbers over a set. */
  ghost function Total<T(!new)>(s: set<T>, f: T -> nat): nat {
    if s == {} then 0 else
      var x :| x in s;
      f(x) + Total(s - {x}, f)
  }

  lemma {:induction false} TotalTake<T(!new)>(s: set<T>, f: T -> nat, x: T)
    requires x in s
    ensures Total(s, f) == f(x) + Total(s - {x}, f)
  {
    var y :| y in s && Total(s, f) == f(y) + Total(s - {y}, f);
    if y != x {
      TotalTake(s - {y}, f, x);
      TotalTake(s - {x}, f, y);
      assert s - {y} - {x} == s - {x} - {y};
    }
  }

  /** Fewer and smaller terms. */
  lemma {:induction false} TotalAtMost<T(!new)>(s: set<T>, t: set<T>, f: T -> nat, g: T -> nat)
    requires s <= t && forall x | x in s :: f(x) <= g(x)
    ensures Total(s, f) <= Total(t, g)
  {
    if t != {} {
      var x :| x in t;
      TotalTake(t, g, x);
      if x in s { TotalTake(s, f, x); }
      TotalAtMost(s - {x}, t - {x}, f, g);
      if x !in s { assert s - {x} == s; }
    }
  }

  /** Left-to-right running total, the shape of an accumulating loop. */
  function SumSeq<T>(s: seq<T>, f: T -> real): real {
    if s == [] then 0.0 else SumSeq(s[..|s| - 1], f) + f(s[|s| - 1])
  }

  lemma SumSeqSnoc<T>(s: seq<T>, x: T, f: T -> real)
    ensures SumSeq(s + [x], f) == SumSeq(s, f) + f(x)
  {
    assert (s + [x])[..|s|] == s;
  }

  lemma {:induction false} SumSeqConcat<T>(a: seq<T>, b: seq<T>, f: T -> real)
    ensures SumSeq(a + b, f) == SumSeq(a, f) + SumSeq(b, f)
  {
    if b == [] {
      assert a + b == a;
    } else {
      SumSeqConcat(a, b[..|b| - 1], f);
      assert (a + b)[..|a + b| - 1] == a + b[..|b| - 1];
    }
  }

  lemma {:induction false} SumSeqPermute<T>(a: seq<T>, b: seq<T>, f: T -> real)
    requires multiset(a) == multiset(b)
    ensures SumSeq(a, f) == SumSeq(b, f)
  {
    assert |a| == |multiset(a)| == |multiset(b)| == |b|;
    if a != [] {
      var n := |a| - 1;
      assert a == a[..n] + [a[n]];
      assert a[n] in multiset(b);
      var i :| 0 <= i < |b| && b[i] == a[n];
      assert b == b[..i] + [b[i]] + b[i + 1..];
      var c := b[..i] + b[i + 1..];
      assert multiset(c) == multiset(b) - multiset{b[i]};
      assert multiset(a[..n]) == multiset(a) - multiset{a[n]};
      SumSeqPermute(a[..n], c, f);
      SumSeqConcat(b[..i] + [b[i]], b[i + 1..], f);
      SumSeqSnoc(b[..i], b[i], f);
      SumSeqConcat(b[..i], b[i + 1..], f);
    }
  }

  lemma {:induction false} SumSeqPrefix<T>(s: seq<T>, n: nat, f: T -> real)
    requires n <= |s|
    requires forall i | 0 <= i < |s| :: f(s[i]) >= 0.0
    ensures 0.0 <= SumSeq(s[..n], f) <= SumSeq(s, f)
  {
    if n < |s| {
      assert s[..|s| - 1][..n] == s[..n];
      SumSeqPrefix(s[..|s| - 1], n, f);
    } else {
      assert s[..n] == s;
      if s != [] {
        assert s[..|s| - 1][..|s| - 1] == s[..|s| - 1];
        SumSeqPrefix(s[..|s| - 1], |s| - 1, f);
      }
    }
  }

  lemma {:induction false} SumSeqZero<T>(s: seq<T>, f: T -> real)
    requires forall i | 0 <= i < |s| :: f(s[i]) == 0.0
    ensures SumSeq(s, f) == 0.0
  {
    if s != [] { SumSeqZero(s[..|s| - 1], f); }
  }

  /** Only one term is not zero. */
  lemma {:induction false} SumSeqOne<T>(s: seq<T>, f: T -> real, k: nat)
    requires k < |s| && forall i | 0 <= i < |s| && i != k :: f(s[i]) == 0.0
    ensures SumSeq(s, f) == f(s[k])
  {
    var n := |s| - 1;
    if k == n { SumSeqZero(s[..n], f); } else { SumSeqOne(s[..n], f, k); }
  }

  /** A list without repetitions sums like the set of its elements. */
  lemma {:induction false} SumSeqIsSumSet<T(!new)>(s: seq<T>, t: set<T>, f: T -> real)
    requires forall x :: x in s <==> x in t
    requires forall i, j | 0 <= i < j < |s| :: s[i] != s[j]
    ensures SumSeq(s, f) == SumSet(t, f)
  {
    if s == [] {
      assert t == {};
    } else {
      var n := |s| - 1;
      assert s[n] in s;
      SumSetTake(t, f, s[n]);
      forall x ensures x in s[..n] <==> x in t - {s[n]} {
        if x in t - {s[n]} { assert x in s; var i :| 0 <= i < |s| && s[i] == x; assert s[..n][i] == x; }
        if x in s[..n] { var i :| 0 <= i < n && s[i] == x; assert x in s; }
      }
      SumSeqIsSumSet(s[..n], t - {s[n]}, f);
    }
  }

  /** A list comprehension. */
  function Map<T, U>(f: T -> U, s: seq<T>): (r: seq<U>)
    ensures |r| == |s|
    ensures forall i | 0 <= i < |s| :: r[i] == f(s[i])
  {
    if s == [] then [] else Map(f, s[..|s| - 1]) + [f(s[|s| - 1])]
  }

  lemma MapConcat<T, U>(f: T -> U, a: seq<T>, b: seq<T>)
    ensures Map(f, a + b) == Map(f, a) + Map(f, b)
  {
  }

  lemma {:induction false} MapPermute<T, U>(f: T -> U, a: seq<T>, b: seq<T>)
    requires multiset(a) == multiset(b)
    ensures multiset(Map(f, a)) == multiset(Map(f, b))
  {
    assert |a| == |multiset(a)| == |multiset(b)| == |b|;
    if a != [] {
      var n := |a| - 1;
      assert a == a[..n] + [a[n]];
      assert a[n] in multiset(b);
      var i :| 0 <= i < |b| && b[i] == a[n];
      var u, v := b[..i], b[i + 1..];
      assert b == u + [b[i]] + v;
      assert multiset(u + v) == multiset(b) - multiset{b[i]} == multiset(a[..n]);
      MapPermute(f, a[..n], u + v);
      MapInsert(f, u, b[i], v);
      MapConcat(f, a[..n], [a[n]]);
    }
  }

  lemma MapInsert<T, U>(f: T -> U, u: seq<T>, x: T, v: seq<T>)
    ensures multiset(Map(f, u + [x] + v)) == multiset(Map(f, u + v)) + multiset{f(x)}
  {
    MapConcat(f, u + [x], v);
    MapConcat(f, u, [x]);
    MapConcat(f, u, v);
    assert Map(f, [x]) == [f(x)];
  }

  lemma {:induction false} SumOfMap<T, U>(f: T -> U, s: seq<T>, g: U -> real, h: T -> real)
    requires forall x :: x in s ==> h(x) == g(f(x))
    ensures SumSeq(Map(f, s), g) == SumSeq(s, h)
  {
    if s != [] {
      assert s[|s| - 1] in s;
      SumOfMap(f, s[..|s| - 1], g, h);
      SumSeqSnoc(Map(f, s[..|s| - 1]), f(s[|s| - 1]), g);
    }
  }
}
