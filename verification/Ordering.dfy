/** Python's string order, and sorting by a strict order. */
module Ordering {

  /** Lexicographic order by code point, as Python compares strings. */
  predicate StrLess(a: string, b: string) {
    if b == "" then false
    else if a == "" then true
    else a[0] < b[0] || (a[0] == b[0] && StrLess(a[1..], b[1..]))
  }

  ghost predicate StrictOrder<T(!new)>(lt: (T, T) -> bool) {
    && (forall x :: !lt(x, x))
    && (forall x, y, z :: lt(x, y) && lt(y, z) ==> lt(x, z))
  }

  ghost predicate StrictTotal<T(!new)>(lt: (T, T) -> bool) {
    && StrictOrder(lt)
    && (forall x, y :: x == y || lt(x, y) || lt(y, x))
  }

  lemma {:induction false} StrLessIrreflexive(a: string)
    ensures !StrLess(a, a)
  {
    if a != "" { StrLessIrreflexive(a[1..]); }
  }

  lemma {:induction false} StrLessTransitive(a: string, b: string, c: string)
    requires StrLess(a, b) && StrLess(b, c)
    ensures StrLess(a, c)
  {
    if a != "" && a[0] == b[0] == c[0] {
      StrLessTransitive(a[1..], b[1..], c[1..]);
    }
  }

  lemma {:induction false} StrLessConnected(a: string, b: string)
    ensures a == b || StrLess(a, b) || StrLess(b, a)
  {
    if a != "" && b != "" && a[0] == b[0] {
      StrLessConnected(a[1..], b[1..]);
      assert a == [a[0]] + a[1..] && b == [b[0]] + b[1..];
    }
  }

  lemma StrLessTotal()
    ensures StrictTotal(StrLess)
  {
    forall x ensures !StrLess(x, x) { StrLessIrreflexive(x); }
    forall x, y, z | StrLess(x, y) && StrLess(y, z) ensures StrLess(x, z) { StrLessTransitive(x, y, z); }
    forall x, y ensures x == y || StrLess(x, y) || StrLess(y, x) { StrLessConnected(x, y); }
  }

  /** The first difference decides; without one, the shorter string comes first. */
  lemma {:induction false} FirstDifferenceDecides(a: string, b: string, k: nat)
    requires k <= |a| && k <= |b| && forall i | 0 <= i < k :: a[i] == b[i]
    ensures k < |a| && k < |b| && a[k] != b[k] ==> (StrLess(a, b) <==> a[k] < b[k])
    ensures k == |a| < |b| ==> StrLess(a, b) && !StrLess(b, a)
  {
    if k > 0 {
      assert forall i | 0 <= i < k - 1 :: a[1..][i] == a[i + 1] && b[1..][i] == b[i + 1];
      FirstDifferenceDecides(a[1..], b[1..], k - 1);
    }
  }

  ghost predicate Ascending<T>(lt: (T, T) -> bool, s: seq<T>) {
    forall i, j | 0 <= i < j < |s| :: lt(s[i], s[j])
  }

  lemma AscendingDistinct<T(!new)>(lt: (T, T) -> bool, s: seq<T>)
    requires StrictOrder(lt) && Ascending(lt, s)
    ensures forall i, j | 0 <= i < j < |s| :: s[i] != s[j]
  {
  }

  /** A set has at most one ascending enumeration. */
  lemma {:induction false} AscendingUnique<T(!new)>(lt: (T, T) -> bool, a: seq<T>, b: seq<T>)
    requires StrictOrder(lt)
    requires Ascending(lt, a) && Ascending(lt, b)
    requires forall x :: x in a <==> x in b
    ensures a == b
  {
    assert |a| > 0 ==> a[0] in a;
    assert |b| > 0 ==> b[0] in b;
    if |a| > 0 && |b| > 0 {
      HeadIsLeast(lt, a, b);
      HeadIsLeast(lt, b, a);
      var x, y := a[0], b[0];
      assert x == y || !lt(x, y) || !lt(y, x);
      forall x ensures x in a[1..] <==> x in b[1..] {
        TailMembers(lt, a, x);
        TailMembers(lt, b, x);
      }
      AscendingUnique(lt, a[1..], b[1..]);
      assert a == [a[0]] + a[1..] && b == [b[0]] + b[1..];
    }
  }

  lemma TailMembers<T(!new)>(lt: (T, T) -> bool, s: seq<T>, x: T)
    requires StrictOrder(lt) && |s| > 0 && Ascending(lt, s)
    ensures x in s[1..] <==> x in s && x != s[0]
  {
    assert s == [s[0]] + s[1..];
    if x in s[1..] {
      var i :| 0 <= i < |s[1..]| && s[1..][i] == x;
      assert lt(s[0], s[1 + i]);
    }
  }

  lemma HeadIsLeast<T(!new)>(lt: (T, T) -> bool, a: seq<T>, b: seq<T>)
    requires StrictOrder(lt)
    requires |a| > 0 && |b| > 0 && Ascending(lt, a) && Ascending(lt, b)
    requires forall x :: x in a <==> x in b
    ensures a[0] == b[0] || lt(b[0], a[0])
  {
    assert a[0] in a;
    var i :| 0 <= i < |b| && b[i] == a[0];
    if i > 0 { assert lt(b[0], b[i]); }
  }

  ghost predicate Least<T>(lt: (T, T) -> bool, s: set<T>, m: T) {
    m in s && forall y | y in s :: y == m || lt(m, y)
  }

  lemma {:induction false} LeastExists<T(!new)>(lt: (T, T) -> bool, s: set<T>) returns (m: T)
    requires StrictTotal(lt) && s != {}
    ensures Least(lt, s, m)
  {
    var x :| x in s;
    m := x;
    if s - {x} != {} {
      var n := LeastExists(lt, s - {x});
      m := LeastOfTwo(lt, s, x, n);
    } else {
      assert forall y | y in s :: y == x || y in s - {x};
    }
  }

  lemma LeastOfTwo<T(!new)>(lt: (T, T) -> bool, s: set<T>, x: T, n: T) returns (m: T)
    requires StrictTotal(lt) && x in s && Least(lt, s - {x}, n)
    ensures Least(lt, s, m)
  {
    m := if lt(x, n) then x else n;
    forall y | y in s ensures y == m || lt(m, y) {
      if y != x { assert y in s - {x}; }
    }
  }

  /** The elements of a set in ascending order: what `sorted(...)` yields. */
  ghost function Sorted<T(!new)>(lt: (T, T) -> bool, s: set<T>): (r: seq<T>)
    requires StrictTotal(lt)
    ensures Ascending(lt, r)
    ensures forall x :: x in r <==> x in s
    ensures |r| == |s|
  {
    if s == {} then [] else
      assert exists m :: Least(lt, s, m) by { var m := LeastExists(lt, s); }
      var m :| Least(lt, s, m);
      [m] + Sorted(lt, s - {m})
  }

  /** Inserting into an ascending list. */
  function Insert<T>(lt: (T, T) -> bool, x: T, s: seq<T>): (r: seq<T>)
    ensures multiset(r) == multiset(s) + multiset{x}
  {
    if s == [] then [x]
    else if lt(s[0], x) then
      assert s == [s[0]] + s[1..];
      [s[0]] + Insert(lt, x, s[1..])
    else [x] + s
  }

  lemma {:induction false} InsertAscending<T(!new)>(lt: (T, T) -> bool, x: T, s: seq<T>)
    requires StrictOrder(lt) && Ascending(lt, s)
    requires forall y | y in s :: lt(x, y) || lt(y, x)
    ensures Ascending(lt, Insert(lt, x, s))
  {
    var r := Insert(lt, x, s);
    if s != [] && lt(s[0], x) {
      assert s == [s[0]] + s[1..];
      InsertAscending(lt, x, s[1..]);
      var t := Insert(lt, x, s[1..]);
      forall j | 0 < j < |r| ensures lt(r[0], r[j]) {
        assert t[j - 1] in multiset(t);
        assert r[j] == x || r[j] in multiset(s[1..]);
        if r[j] != x { var k :| 0 <= k < |s[1..]| && s[1..][k] == r[j]; assert lt(s[0], s[1 + k]); }
      }
    } else if s != [] {
      assert s[0] in s;
      forall j | 0 < j < |r| ensures lt(r[0], r[j]) {
        assert r[j] == s[j - 1];
        if j > 1 { assert lt(s[0], s[j - 1]); }
      }
    }
  }

  /** `sorted(...)` of a list. */
  function Sort<T>(lt: (T, T) -> bool, s: seq<T>): (r: seq<T>)
    ensures multiset(r) == multiset(s)
  {
    if s == [] then [] else
      assert s == s[..|s| - 1] + [s[|s| - 1]];
      Insert(lt, s[|s| - 1], Sort(lt, s[..|s| - 1]))
  }

  lemma {:induction false} SortAscending<T(!new)>(lt: (T, T) -> bool, s: seq<T>)
    requires StrictOrder(lt)
    requires forall i, j | 0 <= i < j < |s| :: lt(s[i], s[j]) || lt(s[j], s[i])
    ensures Ascending(lt, Sort(lt, s))
  {
    if s != [] {
      var n := |s| - 1;
      SortAscending(lt, s[..n]);
      var t := Sort(lt, s[..n]);
      forall y | y in t ensures lt(s[n], y) || lt(y, s[n]) {
        assert y in multiset(t);
        var k :| 0 <= k < n && s[..n][k] == y;
        assert lt(s[k], s[n]) || lt(s[n], s[k]);
      }
      InsertAscending(lt, s[n], t);
    }
  }

  lemma SameElements<T>(a: seq<T>, b: seq<T>)
    requires multiset(a) == multiset(b)
    ensures |a| == |b|
    ensures forall x :: x in a <==> x in b
  {
    assert |a| == |multiset(a)| == |multiset(b)| == |b|;
    forall x ensures x in a <==> x in b {
      assert x in a <==> x in multiset(a);
      assert x in b <==> x in multiset(b);
    }
  }

  /** `sorted(...)` of a set, or a query ordered by its key. */
  method SortedList<T(!new, ==)>(lt: (T, T) -> bool, keys: set<T>) returns (r: seq<T>)
    requires StrictTotal(lt)
    ensures Ascending(lt, r) && |r| == |keys|
    ensures forall k :: k in r <==> k in keys
    ensures r == Sorted(lt, keys)
  {
    r := [];
    var todo := keys;
    while todo != {}
      invariant todo <= keys
      invariant Ascending(lt, r) && |r| + |todo| == |keys|
      invariant forall k :: k in r <==> k in keys - todo
      decreases todo
    {
      var k :| k in todo;
      InsertAscending(lt, k, r);
      ghost var before := r;
      r := Insert(lt, k, r);
      forall x ensures x in r <==> x == k || x in before {
        assert x in r <==> x in multiset(r);
        assert x in before <==> x in multiset(before);
      }
      todo := todo - {k};
    }
    AscendingUnique(lt, r, Sorted(lt, keys));
  }
}
