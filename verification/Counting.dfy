/** Selecting the elements of a list that satisfy a test. */
module Counting {

  function Filter<T>(s: seq<T>, p: T -> bool): seq<T> {
    if s == [] then [] else Filter(s[..|s| - 1], p) + if p(s[|s| - 1]) then [s[|s| - 1]] else []
  }

  lemma FilterSnoc<T>(s: seq<T>, x: T, p: T -> bool)
    ensures Filter(s + [x], p) == Filter(s, p) + if p(x) then [x] else []
  {
    assert (s + [x])[..|s|] == s;
  }

  lemma {:induction false} FilterConcat<T>(a: seq<T>, b: seq<T>, p: T -> bool)
    ensures Filter(a + b, p) == Filter(a, p) + Filter(b, p)
  {
    if b == [] {
      assert a + b == a;
    } else {
      FilterConcat(a, b[..|b| - 1], p);
      assert (a + b)[..|a + b| - 1] == a + b[..|b| - 1];
    }
  }

  lemma {:induction false} FilterMembers<T>(s: seq<T>, p: T -> bool)
    ensures forall x :: x in Filter(s, p) ==> x in s && p(x)
    ensures forall x :: x in s && p(x) ==> x in Filter(s, p)
  {
    if s != [] {
      FilterMembers(s[..|s| - 1], p);
      assert s == s[..|s| - 1] + [s[|s| - 1]];
    }
  }

  /** The only element of `s` that satisfies `p`, at the only place it has. */
  ghost predicate Sole<T>(s: seq<T>, p: T -> bool, x: T) {
    exists i :: SoleAt(s, p, x, i)
  }

  ghost predicate SoleAt<T>(s: seq<T>, p: T -> bool, x: T, i: int) {
    0 <= i < |s| && s[i] == x && p(x) && forall j | 0 <= j < |s| && p(s[j]) :: j == i
  }

  lemma {:induction false} FilterSole<T>(s: seq<T>, p: T -> bool, x: T)
    ensures Sole(s, p, x) <==> Filter(s, p) == [x]
  {
    if s != [] {
      var n := |s| - 1;
      FilterSole(s[..n], p, x);
      FilterMembers(s[..n], p);
      if p(s[n]) {
        LastIsSole(s, p, x);
      } else {
        if i :| SoleAt(s[..n], p, x, i) { assert SoleAt(s, p, x, i); }
        if i :| SoleAt(s, p, x, i) { assert i < n && s[..n][i] == s[i]; assert SoleAt(s[..n], p, x, i); }
      }
    }
  }

  lemma {:induction false} LastIsSole<T>(s: seq<T>, p: T -> bool, x: T)
    requires s != [] && p(s[|s| - 1])
    ensures Sole(s, p, x) <==> Filter(s, p) == [x]
  {
    var n := |s| - 1;
    var f := Filter(s[..n], p);
    assert Filter(s, p) == f + [s[n]];
    FilterMembers(s[..n], p);
    if f != [] {
      var y := f[0];
      assert y in f;
      assert y in s[..n] && p(y);
      var j :| 0 <= j < |s[..n]| && s[..n][j] == y;
      assert p(s[j]) && p(s[n]) && j != n;
      assert |Filter(s, p)| > 1;
    } else {
      forall j | 0 <= j < n ensures !p(s[j]) { assert s[..n][j] in s[..n]; }
      assert Filter(s, p) == [s[n]];
      if s[n] == x { assert SoleAt(s, p, x, n); }
    }
  }

  lemma {:induction false} FilterSame<T>(s: seq<T>, p: T -> bool, q: T -> bool)
    requires forall i | 0 <= i < |s| :: p(s[i]) == q(s[i])
    ensures Filter(s, p) == Filter(s, q)
  {
    if s != [] {
      var n := |s| - 1;
      assert forall i | 0 <= i < n :: s[..n][i] == s[i];
      FilterSame(s[..n], p, q);
    }
  }

  lemma {:induction false} FilterNone<T>(s: seq<T>, p: T -> bool)
    requires forall i | 0 <= i < |s| :: !p(s[i])
    ensures Filter(s, p) == []
  {
    if s != [] {
      var n := |s| - 1;
      assert forall i | 0 <= i < n :: s[..n][i] == s[i];
      FilterNone(s[..n], p);
    }
  }

  lemma {:induction false} FilterPermute<T>(a: seq<T>, b: seq<T>, p: T -> bool)
    requires multiset(a) == multiset(b)
    ensures multiset(Filter(a, p)) == multiset(Filter(b, p))
  {
    assert |a| == |multiset(a)| == |multiset(b)| == |b|;
    if a != [] {
      var n := |a| - 1;
      assert a == a[..n] + [a[n]];
      assert a[n] in multiset(b);
      var i :| 0 <= i < |b| && b[i] == a[n];
      var u, v := b[..i], b[i + 1..];
      assert b == u + [b[i]] + v;
      assert multiset(u + v) == multiset(b) - multiset{b[i]} == multiset(a[..n]);
      FilterPermute(a[..n], u + v, p);
      FilterInsert(u, b[i], v, p);
      FilterSnoc(a[..n], a[n], p);
    }
  }

  lemma FilterInsert<T>(u: seq<T>, x: T, v: seq<T>, p: T -> bool)
    ensures multiset(Filter(u + [x] + v, p)) == multiset(Filter(u + v, p)) + if p(x) then multiset{x} else multiset{}
  {
    FilterConcat(u + [x], v, p);
    FilterSnoc(u, x, p);
    FilterConcat(u, v, p);
  }

  /** Being the sole element does not depend on the order of the list. */
  lemma SolePermute<T>(a: seq<T>, b: seq<T>, p: T -> bool, x: T)
    requires multiset(a) == multiset(b)
    ensures Sole(a, p, x) <==> Sole(b, p, x)
  {
    FilterPermute(a, b, p);
    FilterSole(a, p, x);
    FilterSole(b, p, x);
    var f, g := Filter(a, p), Filter(b, p);
    assert |f| == |multiset(f)| == |multiset(g)| == |g|;
    if |f| == 1 { assert f == [f[0]] && g == [g[0]]; assert f[0] in multiset(g); }
  }
}
