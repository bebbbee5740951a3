/**
  Tables as sequences of rows, and the few operations the services run on them: a `where`
  clause (Filter), a bulk update (Map), and an `orderBy` or a comparator sort (Sort).

  Every recursion peels the last element, so that a loop going front to back can carry
  `acc == F(s[..i])` as its invariant.
*/
module Rows {
  function Filter<T>(p: T -> bool, s: seq<T>): seq<T> {
    if s == [] then []
    else Filter(p, s[..|s| - 1]) + if p(s[|s| - 1]) then [s[|s| - 1]] else []
  }

  function Map<T, U>(f: T -> U, s: seq<T>): (r: seq<U>)
    ensures |r| == |s|
    ensures forall i | 0 <= i < |s| :: r[i] == f(s[i])
  {
    seq(|s|, i requires 0 <= i < |s| => f(s[i]))
  }

  function Flatten<T>(s: seq<seq<T>>): seq<T> {
    if s == [] then [] else Flatten(s[..|s| - 1]) + s[|s| - 1]
  }

  /** Puts x behind everything that may stand before it, so equal keys keep their order. */
  function Insert<T>(le: (T, T) -> bool, s: seq<T>, x: T): seq<T> {
    if s == [] || le(s[|s| - 1], x) then s + [x]
    else Insert(le, s[..|s| - 1], x) + [s[|s| - 1]]
  }

  /** A stable sort, as `Array.prototype.sort` is. */
  function Sort<T>(le: (T, T) -> bool, s: seq<T>): seq<T> {
    if s == [] then [] else Insert(le, Sort(le, s[..|s| - 1]), s[|s| - 1])
  }

  ghost predicate TotalPreorder<T(!new)>(le: (T, T) -> bool) {
    && (forall x, y :: le(x, y) || le(y, x))
    && (forall x, y, z :: le(x, y) && le(y, z) ==> le(x, z))
  }

  ghost predicate Sorted<T>(le: (T, T) -> bool, s: seq<T>) {
    forall i, j | 0 <= i < j < |s| :: le(s[i], s[j])
  }

  ghost predicate AntisymmetricOn<T>(le: (T, T) -> bool, s: seq<T>) {
    forall x, y | x in s && y in s && le(x, y) && le(y, x) :: x == y
  }

  ghost predicate Distinct<T>(s: seq<T>) {
    forall i, j | 0 <= i < j < |s| :: s[i] != s[j]
  }

  // ---- Filter ----

  lemma {:induction false} FilterIn<T>(p: T -> bool, s: seq<T>)
    ensures forall x | x in Filter(p, s) :: x in s && p(x)
    ensures forall x | x in s && p(x) :: x in Filter(p, s)
    ensures |Filter(p, s)| <= |s|
  {
    if s != [] {
      FilterIn(p, s[..|s| - 1]);
      assert s == s[..|s| - 1] + [s[|s| - 1]];
    }
  }

  lemma {:induction false} FilterAppend<T>(p: T -> bool, a: seq<T>, b: seq<T>)
    ensures Filter(p, a + b) == Filter(p, a) + Filter(p, b)
  {
    if b == [] {
      assert a + b == a;
    } else {
      FilterAppend(p, a, b[..|b| - 1]);
      assert (a + b)[..|a + b| - 1] == a + b[..|b| - 1];
    }
  }

  lemma FilterOne<T>(p: T -> bool, x: T)
    ensures Filter(p, [x]) == if p(x) then [x] else []
  {
    assert [x][..0] == [];
  }

  lemma FilterAllBut<T>(p: T -> bool, a: seq<T>, x: T, b: seq<T>)
    requires (forall y | y in a :: p(y)) && (forall y | y in b :: p(y)) && !p(x)
    ensures Filter(p, a + [x] + b) == a + b
  {
    var ax := a + [x];
    FilterAppend(p, ax, b);
    assert Filter(p, b) == b by { FilterAll(p, b); }
    assert Filter(p, ax) == a by {
      assert ax[..|ax| - 1] == a;
      FilterAll(p, a);
    }
  }

  lemma FilterAppendAll<T>(p: T -> bool, a: seq<T>, b: seq<T>)
    requires forall x | x in b :: p(x)
    ensures Filter(p, a + b) == Filter(p, a) + b
  {
    FilterAppend(p, a, b);
    FilterAll(p, b);
  }

  lemma FilterOldOnly<T>(p: T -> bool, a: seq<T>, b: seq<T>)
    requires forall x | x in b :: !p(x)
    ensures Filter(p, a + b) == Filter(p, a)
  {
    FilterAppend(p, a, b);
    FilterNone(p, b);
    NothingBehind(Filter(p, a));
  }

  lemma FilterNewOnly<T>(p: T -> bool, a: seq<T>, b: seq<T>)
    requires (forall x | x in a :: !p(x)) && forall x | x in b :: p(x)
    ensures Filter(p, a + b) == b
  {
    FilterAppend(p, a, b);
    FilterNone(p, a);
    FilterAll(p, b);
    NothingBehind(b);
  }

  lemma NothingBehind<T>(s: seq<T>)
    ensures s + [] == s && [] + s == s
  {
  }

  lemma {:induction false} FilterSuffix<T>(p: T -> bool, s: seq<T>, n: nat)
    requires n <= |s|
    requires forall k | 0 <= k < |s| :: p(s[k]) <==> n <= k
    ensures Filter(p, s) == s[n..]
    decreases |s|
  {
    if n == |s| {
      FilterNone(p, s);
    } else {
      FilterSuffix(p, s[..|s| - 1], n);
      assert s[n..] == s[..|s| - 1][n..] + [s[|s| - 1]];
    }
  }

  /** Row counts split over a `where` clause and its negation. */
  lemma {:induction false} FilterSplit<T>(p: T -> bool, q: T -> bool, s: seq<T>)
    requires forall x | x in s :: q(x) == !p(x)
    ensures |Filter(p, s)| + |Filter(q, s)| == |s|
  {
    if s != [] {
      assert s[|s| - 1] in s;
      FilterSplit(p, q, s[..|s| - 1]);
    }
  }

  lemma {:induction false} FilterAll<T>(p: T -> bool, s: seq<T>)
    requires forall x | x in s :: p(x)
    ensures Filter(p, s) == s
  {
    if s != [] {
      assert s[|s| - 1] in s;
      FilterAll(p, s[..|s| - 1]);
    }
  }

  lemma {:induction false} FilterTwice<T>(p: T -> bool, q: T -> bool, r: T -> bool, s: seq<T>)
    requires forall x | x in s :: r(x) <==> p(x) && q(x)
    ensures Filter(q, Filter(p, s)) == Filter(r, s)
  {
    if s != [] {
      var last := s[|s| - 1];
      assert last in s;
      FilterTwice(p, q, r, s[..|s| - 1]);
      FilterAppend(q, Filter(p, s[..|s| - 1]), if p(last) then [last] else []);
      FilterOne(q, last);
    }
  }

  lemma {:induction false} FilterAgree<T>(p: T -> bool, q: T -> bool, s: seq<T>)
    requires forall x | x in s :: p(x) == q(x)
    ensures Filter(p, s) == Filter(q, s)
  {
    if s != [] {
      assert s[|s| - 1] in s;
      FilterAgree(p, q, s[..|s| - 1]);
    }
  }

  /** Selecting after a bulk update that selects alike is updating the selection. */
  lemma {:induction false} FilterMap<T, U>(p: U -> bool, f: T -> U, q: T -> bool, s: seq<T>)
    requires forall x | x in s :: p(f(x)) == q(x)
    ensures Filter(p, Map(f, s)) == Map(f, Filter(q, s))
  {
    if s != [] {
      var rest, last := s[..|s| - 1], s[|s| - 1];
      assert last in s;
      FilterMap(p, f, q, rest);
      assert Map(f, s)[..|s| - 1] == Map(f, rest);
      assert Map(f, Filter(q, rest) + [last]) == Map(f, Filter(q, rest)) + [f(last)];
    }
  }

  lemma MapFilterIn<T, U>(f: T -> U, p: T -> bool, s: seq<T>)
    ensures forall x | x in s && p(x) :: f(x) in Map(f, Filter(p, s))
    ensures forall y | y in Map(f, Filter(p, s)) :: exists x :: x in s && p(x) && y == f(x)
  {
    var kept := Filter(p, s);
    FilterIn(p, s);
    forall x | x in kept ensures f(x) in Map(f, kept) {
      var k :| 0 <= k < |kept| && kept[k] == x;
      assert Map(f, kept)[k] == f(x);
    }
    forall y | y in Map(f, kept) ensures exists x :: x in s && p(x) && y == f(x) {
      var k :| 0 <= k < |kept| && Map(f, kept)[k] == y;
      assert kept[k] in kept;
    }
  }

  lemma MapAgree<T, U>(f: T -> U, g: T -> U, s: seq<T>)
    requires forall x | x in s :: f(x) == g(x)
    ensures Map(f, s) == Map(g, s)
  {
    forall k | 0 <= k < |s| ensures f(s[k]) == g(s[k]) { assert s[k] in s; }
  }

  lemma MapTwice<T, U, V>(f: T -> U, g: U -> V, h: T -> V, s: seq<T>)
    requires forall x | x in s :: g(f(x)) == h(x)
    ensures Map(g, Map(f, s)) == Map(h, s)
  {
    forall k | 0 <= k < |s| ensures g(f(s[k])) == h(s[k]) { assert s[k] in s; }
  }

  lemma MapSame<T>(f: T -> T, s: seq<T>)
    requires forall x | x in s :: f(x) == x
    ensures Map(f, s) == s
  {
    forall k | 0 <= k < |s| ensures f(s[k]) == s[k] { assert s[k] in s; }
  }

  /** Taking the last row off one arrangement and its twin off the other. */
  lemma DropTwin<T>(a: seq<T>, b: seq<T>) returns (k: nat)
    requires multiset(a) == multiset(b) && a != []
    ensures |a| == |b| && k < |b| && b[k] == a[|a| - 1]
    ensures multiset(a[..|a| - 1]) == multiset(b[..k] + b[k + 1..])
  {
    assert |a| == |multiset(a)| == |multiset(b)| == |b|;
    var x := a[|a| - 1];
    assert x in multiset(a);
    assert x in b;
    k :| 0 <= k < |b| && b[k] == x;
    assert a == a[..|a| - 1] + [x];
    assert b == b[..k] + ([x] + b[k + 1..]);
    assert multiset(a[..|a| - 1]) == multiset(a) - multiset{x};
    assert multiset(b[..k] + b[k + 1..]) == multiset(b) - multiset{x};
  }

  lemma FilterMiddle<T>(p: T -> bool, l: seq<T>, x: T, r: seq<T>)
    ensures multiset(Filter(p, l + [x] + r)) == multiset(Filter(p, l + r)) + multiset(if p(x) then [x] else [])
  {
    var lx := l + [x];
    FilterAppend(p, lx, r);
    FilterAppend(p, l, r);
    assert Filter(p, lx) == Filter(p, l) + if p(x) then [x] else [] by { assert lx[..|lx| - 1] == l; }
  }

  lemma {:induction false} FilterPermutation<T>(p: T -> bool, a: seq<T>, b: seq<T>)
    requires multiset(a) == multiset(b)
    ensures multiset(Filter(p, a)) == multiset(Filter(p, b))
    decreases |a|
  {
    if a == [] {
      assert |b| == |multiset(b)| == 0;
    } else {
      var k := DropTwin(a, b);
      var l, x, r := b[..k], b[k], b[k + 1..];
      FilterPermutation(p, a[..|a| - 1], l + r);
      FilterMiddle(p, l, x, r);
      assert b == l + [x] + r;
    }
  }

  /** One row more in a selection over distinct keys. */
  lemma {:induction false} FilterOneMore<T, K>(p: T -> bool, q: T -> bool, key: T -> K, s: seq<T>, x: T)
    requires Distinct(Map(key, s)) && x in s && !p(x)
    requires forall y | y in s :: q(y) <==> p(y) || key(y) == key(x)
    ensures |Filter(q, s)| == |Filter(p, s)| + 1
  {
    var n := |s| - 1;
    var t := s[..n];
    assert s == t + [s[n]] && s[n] in s;
    assert forall i | 0 <= i < n :: Map(key, t)[i] == Map(key, s)[i];
    if s[n] == x {
      forall y | y in t ensures p(y) == q(y) {
        var i :| 0 <= i < n && t[i] == y;
        assert Map(key, s)[i] != Map(key, s)[n];
        assert y in s;
      }
      FilterAgree(p, q, t);
    } else {
      assert x in t;
      var i :| 0 <= i < n && t[i] == x;
      assert Map(key, s)[i] != Map(key, s)[n];
      forall y | y in t ensures q(y) <==> p(y) || key(y) == key(x) { assert y in s; }
      FilterOneMore(p, q, key, t, x);
    }
  }

  /** Rows of two kinds that do not overlap. */
  lemma {:induction false} FilterEither<T>(p: T -> bool, q: T -> bool, r: T -> bool, s: seq<T>)
    requires forall x | x in s :: (r(x) <==> p(x) || q(x)) && !(p(x) && q(x))
    ensures |Filter(r, s)| == |Filter(p, s)| + |Filter(q, s)|
  {
    if s != [] {
      assert s[|s| - 1] in s;
      FilterEither(p, q, r, s[..|s| - 1]);
    }
  }

  /** Two tables that correspond row by row still do so after matching selections. */
  lemma {:induction false} FilterPairs<A, B>(p: A -> bool, q: B -> bool, rel: (A, B) -> bool, a: seq<A>, b: seq<B>)
    requires |a| == |b| && forall k | 0 <= k < |a| :: rel(a[k], b[k]) && p(a[k]) == q(b[k])
    ensures |Filter(p, a)| == |Filter(q, b)|
    ensures forall k | 0 <= k < |Filter(p, a)| :: rel(Filter(p, a)[k], Filter(q, b)[k])
  {
    if a != [] {
      var n := |a| - 1;
      assert rel(a[n], b[n]);
      FilterPairs(p, q, rel, a[..n], b[..n]);
    }
  }

  lemma FilterNone<T>(p: T -> bool, s: seq<T>)
    ensures (forall x | x in s :: !p(x)) <==> Filter(p, s) == []
  {
    FilterIn(p, s);
    assert Filter(p, s) != [] ==> Filter(p, s)[0] in Filter(p, s);
  }

  /** Dropping a row from a selection makes it smaller. */
  lemma {:induction false} FilterFewer<T>(p: T -> bool, q: T -> bool, s: seq<T>)
    requires forall y | y in s && q(y) :: p(y)
    ensures |Filter(q, s)| <= |Filter(p, s)|
    ensures (exists x :: x in s && p(x) && !q(x)) ==> |Filter(q, s)| < |Filter(p, s)|
  {
    if s != [] {
      var t := s[..|s| - 1];
      assert s == t + [s[|s| - 1]] && s[|s| - 1] in s;
      forall y | y in t && q(y) ensures p(y) { assert y in s; }
      FilterFewer(p, q, t);
    }
  }

  lemma {:induction false} FilterDistinct<T, K>(p: T -> bool, key: T -> K, s: seq<T>)
    requires Distinct(Map(key, s))
    ensures Distinct(Map(key, Filter(p, s)))
  {
    if s != [] {
      var t := s[..|s| - 1];
      assert forall i | 0 <= i < |t| :: Map(key, t)[i] == Map(key, s)[i];
      FilterDistinct(p, key, t);
      FilterIn(p, t);
      var f := Filter(p, t);
      forall i | 0 <= i < |f| ensures key(f[i]) != key(s[|s| - 1]) {
        assert f[i] in f;
        assert f[i] in t;
        var k :| 0 <= k < |t| && t[k] == f[i];
        assert Map(key, s)[k] != Map(key, s)[|s| - 1];
      }
    }
  }

  // ---- Sort ----

  lemma {:induction false} InsertPermutation<T>(le: (T, T) -> bool, s: seq<T>, x: T)
    ensures multiset(Insert(le, s, x)) == multiset(s) + multiset{x}
  {
    if !(s == [] || le(s[|s| - 1], x)) {
      InsertPermutation(le, s[..|s| - 1], x);
      assert s == s[..|s| - 1] + [s[|s| - 1]];
    }
  }

  lemma {:induction false} SortPermutation<T>(le: (T, T) -> bool, s: seq<T>)
    ensures multiset(Sort(le, s)) == multiset(s)
    ensures |Sort(le, s)| == |s|
    ensures forall x :: x in Sort(le, s) <==> x in s
  {
    if s != [] {
      SortPermutation(le, s[..|s| - 1]);
      InsertPermutation(le, Sort(le, s[..|s| - 1]), s[|s| - 1]);
      assert s == s[..|s| - 1] + [s[|s| - 1]];
    }
    assert |Sort(le, s)| == |multiset(Sort(le, s))| == |multiset(s)|;
    forall x ensures x in Sort(le, s) <==> x in s {
      assert x in multiset(Sort(le, s)) <==> x in multiset(s);
    }
  }

  lemma {:induction false} InsertSorted<T(!new)>(le: (T, T) -> bool, s: seq<T>, x: T)
    requires TotalPreorder(le) && Sorted(le, s)
    ensures Sorted(le, Insert(le, s, x))
  {
    if s == [] || le(s[|s| - 1], x) {
    } else {
      var t := s[..|s| - 1];
      InsertSorted(le, t, x);
      InsertPermutation(le, t, x);
      var r := Insert(le, t, x);
      forall i | 0 <= i < |r| ensures le(r[i], s[|s| - 1]) {
        assert r[i] in multiset(r);
        assert r[i] in t || r[i] == x;
      }
    }
  }

  lemma {:induction false} SortSorted<T(!new)>(le: (T, T) -> bool, s: seq<T>)
    requires TotalPreorder(le)
    ensures Sorted(le, Sort(le, s))
  {
    if s != [] {
      SortSorted(le, s[..|s| - 1]);
      InsertSorted(le, Sort(le, s[..|s| - 1]), s[|s| - 1]);
    }
  }

  lemma {:induction false} SortFixpoint<T>(le: (T, T) -> bool, s: seq<T>)
    requires Sorted(le, s)
    ensures Sort(le, s) == s
  {
    if s != [] {
      SortFixpoint(le, s[..|s| - 1]);
    }
  }

  /** Two sorted arrangements of the same rows are the same sequence. */
  lemma {:induction false} SortedUnique<T>(le: (T, T) -> bool, a: seq<T>, b: seq<T>)
    requires Sorted(le, a) && Sorted(le, b) && multiset(a) == multiset(b)
    requires AntisymmetricOn(le, a)
    ensures a == b
    decreases |a|
  {
    if a == [] {
      assert |b| == |multiset(b)| == 0;
    } else {
      var n := |a| - 1;
      assert |b| == |multiset(b)| == |multiset(a)| == |a|;
      LastOfSorted(le, a, b);
      DropLast(a, b);
      forall x, y | x in a[..n] && y in a[..n] && le(x, y) && le(y, x) ensures x == y {
        assert x in a && y in a;
      }
      SortedUnique(le, a[..n], b[..n]);
    }
  }

  lemma DropLast<T>(a: seq<T>, b: seq<T>)
    requires multiset(a) == multiset(b) && a != [] && |a| == |b| && a[|a| - 1] == b[|b| - 1]
    ensures multiset(a[..|a| - 1]) == multiset(b[..|b| - 1])
  {
    var n := |a| - 1;
    assert a == a[..n] + [a[n]] && b == b[..n] + [b[n]];
    assert multiset(a[..n]) == multiset(a) - multiset{a[n]};
    assert multiset(b[..n]) == multiset(b) - multiset{b[n]};
  }

  lemma LastOfSorted<T>(le: (T, T) -> bool, a: seq<T>, b: seq<T>)
    requires Sorted(le, a) && Sorted(le, b) && multiset(a) == multiset(b)
    requires AntisymmetricOn(le, a) && a != [] && |a| == |b|
    ensures a[|a| - 1] == b[|b| - 1]
  {
    var n := |a| - 1;
    assert a[n] in multiset(b) && b[n] in multiset(a);
    var i :| 0 <= i <= n && b[i] == a[n];
    var j :| 0 <= j <= n && a[j] == b[n];
    if i < n && j < n {
      assert le(b[i], b[n]) && le(a[j], a[n]);
      assert a[n] in a && a[j] in a;
    }
  }

  /** `s` is what sorting `t` gives, when s is sorted, holds t's rows and has no ties. */
  lemma SortIs<T(!new)>(le: (T, T) -> bool, t: seq<T>, s: seq<T>)
    requires TotalPreorder(le) && Sorted(le, s) && multiset(s) == multiset(t)
    requires AntisymmetricOn(le, s)
    ensures Sort(le, t) == s
  {
    SortPermutation(le, t);
    SortSorted(le, t);
    SortedUnique(le, s, Sort(le, t));
  }

  /**
    A comparator sort gives one answer for every arrangement of its input exactly when rows that
    tie under the comparator are the same row.
  */
  lemma CanonicalExactlyWithoutTies<T(!new)>(le: (T, T) -> bool, s: seq<T>)
    requires TotalPreorder(le)
    ensures (forall t: seq<T> | multiset(t) == multiset(s) :: Sort(le, t) == Sort(le, s)) <==> AntisymmetricOn(le, s)
  {
    SortPermutation(le, s);
    SortSorted(le, s);
    var r := Sort(le, s);
    if AntisymmetricOn(le, s) {
      forall t: seq<T> | multiset(t) == multiset(s) ensures Sort(le, t) == r {
        SortIs(le, t, r);
      }
    } else {
      var x, y :| x in s && y in s && le(x, y) && le(y, x) && x != y;
      var t := TiedArrangement(le, r, x, y);
      assert multiset(t) == multiset(s) && Sort(le, t) != Sort(le, s);
    }
  }

  /** Swapping two rows that tie gives another sorted arrangement. */
  lemma TiedArrangement<T(!new)>(le: (T, T) -> bool, r: seq<T>, x: T, y: T) returns (t: seq<T>)
    requires TotalPreorder(le) && Sorted(le, r) && x in r && y in r && le(x, y) && le(y, x) && x != y
    ensures multiset(t) == multiset(r) && Sort(le, t) == t && t != r
  {
    var i :| 0 <= i < |r| && r[i] == x;
    var j :| 0 <= j < |r| && r[j] == y;
    t := r[i := y][j := x];
    SwapPermutation(r, i, j);
    forall a, b | 0 <= a < b < |t| ensures le(t[a], t[b]) {
      SwapTied(le, r, i, j, a, b);
    }
    SortFixpoint(le, t);
    assert t[i] != r[i];
  }

  lemma SwapPermutation<T>(r: seq<T>, i: nat, j: nat)
    requires i < |r| && j < |r| && i != j
    ensures multiset(r[i := r[j]][j := r[i]]) == multiset(r)
  {
  }

  lemma SwapTied<T(!new)>(le: (T, T) -> bool, r: seq<T>, i: nat, j: nat, a: nat, b: nat)
    requires TotalPreorder(le) && Sorted(le, r)
    requires i < |r| && j < |r| && le(r[i], r[j]) && le(r[j], r[i])
    requires a < b < |r|
    ensures le(r[i := r[j]][j := r[i]][a], r[i := r[j]][j := r[i]][b])
  {
    var t := r[i := r[j]][j := r[i]];
    assert le(r[a], r[b]);
    assert le(t[a], r[a]) && le(r[b], t[b]);
    assert le(t[a], r[b]);
  }

  // ---- Map ----

  lemma MapMiddle<T, U>(f: T -> U, l: seq<T>, x: T, r: seq<T>)
    ensures multiset(Map(f, l + [x] + r)) == multiset(Map(f, l + r)) + multiset{f(x)}
  {
    assert Map(f, l + [x] + r) == Map(f, l) + [f(x)] + Map(f, r);
    assert Map(f, l + r) == Map(f, l) + Map(f, r);
  }

  lemma {:induction false} MapMultiset<T, U>(f: T -> U, a: seq<T>, b: seq<T>)
    requires multiset(a) == multiset(b)
    ensures multiset(Map(f, a)) == multiset(Map(f, b))
    decreases |a|
  {
    if a == [] {
      assert |b| == |multiset(b)| == 0;
    } else {
      var k := DropTwin(a, b);
      var l, x, r := b[..k], b[k], b[k + 1..];
      MapMultiset(f, a[..|a| - 1], l + r);
      assert Map(f, a) == Map(f, a[..|a| - 1]) + [f(x)];
      MapMiddle(f, l, x, r);
      assert b == l + [x] + r;
    }
  }

  // ---- Distinct keys ----

  lemma {:induction false} DistinctCount<T>(s: seq<T>)
    ensures Distinct(s) <==> forall x | x in s :: multiset(s)[x] == 1
  {
    if s != [] {
      var n := |s| - 1;
      DistinctCount(s[..n]);
      assert s == s[..n] + [s[n]];
      if Distinct(s) {
        assert s[n] !in s[..n];
        assert s[n] !in multiset(s[..n]);
      } else if Distinct(s[..n]) {
        var i, j :| 0 <= i < j < |s| && s[i] == s[j];
        assert j == n && s[n] in s[..n] && s[n] in multiset(s[..n]);
        assert s[n] in s && multiset(s)[s[n]] != 1;
      } else {
        var x :| x in s[..n] && multiset(s[..n])[x] != 1;
        assert x in s && x in multiset(s[..n]) && multiset(s)[x] != 1;
      }
    }
  }

  lemma DistinctPermutation<T, K>(key: T -> K, a: seq<T>, b: seq<T>)
    requires multiset(a) == multiset(b) && Distinct(Map(key, a))
    ensures Distinct(Map(key, b))
  {
    MapMultiset(key, a, b);
    DistinctCount(Map(key, a));
    DistinctCount(Map(key, b));
    forall k | k in Map(key, b) ensures multiset(Map(key, b))[k] == 1 {
      assert k in multiset(Map(key, b)) && k in multiset(Map(key, a));
    }
  }

  /** With distinct keys, a row is found by its key. */
  lemma KeyDetermines<T, K>(key: T -> K, s: seq<T>, x: T, y: T)
    requires Distinct(Map(key, s)) && x in s && y in s && key(x) == key(y)
    ensures x == y
  {
    var i :| 0 <= i < |s| && s[i] == x;
    var j :| 0 <= j < |s| && s[j] == y;
    assert Map(key, s)[i] == Map(key, s)[j];
    assert i == j;
  }

  // ---- First occurrences ----

  /** What a JS Set holds after adding the elements in order, in its iteration order. */
  function Dedupe<T(==)>(s: seq<T>): seq<T> {
    if s == [] then []
    else
      var d := Dedupe(s[..|s| - 1]);
      if s[|s| - 1] in d then d else d + [s[|s| - 1]]
  }

  lemma {:induction false} DedupeIsFirstOccurrences<T>(s: seq<T>)
    ensures Distinct(Dedupe(s))
    ensures forall x | x in s :: x in Dedupe(s)
    ensures forall x | x in Dedupe(s) :: x in s
  {
    if s != [] {
      DedupeIsFirstOccurrences(s[..|s| - 1]);
      assert s == s[..|s| - 1] + [s[|s| - 1]];
    }
  }

  // ---- Slices ----

  lemma PrefixMore<T>(s: seq<T>, k: nat)
    requires k <= |s|
    ensures k < |s| ==> s[..k + 1] == s[..k] + [s[k]] && s[..k + 1][..k] == s[..k]
    ensures s[..|s|] == s
  {
  }

  lemma Around<T>(s: seq<T>, k: nat)
    requires k < |s|
    ensures s == s[..k] + [s[k]] + s[k + 1..]
  {
  }

  lemma AppendLast<T>(a: seq<T>, b: seq<T>)
    requires b != []
    ensures (a + b)[..|a + b| - 1] == a + b[..|b| - 1] && (a + b)[|a + b| - 1] == b[|b| - 1]
  {
  }

  lemma Append3<T>(a: seq<T>, b: seq<T>, c: seq<T>)
    ensures a + b + c == a + (b + c)
  {
  }

  lemma MapAppend<T, U>(f: T -> U, a: seq<T>, b: seq<T>)
    ensures Map(f, a + b) == Map(f, a) + Map(f, b)
  {
  }

  // ---- Sums ----

  function Sum<T>(f: T -> nat, s: seq<T>): nat {
    if s == [] then 0 else Sum(f, s[..|s| - 1]) + f(s[|s| - 1])
  }

  lemma {:induction false} SumAppend<T>(f: T -> nat, a: seq<T>, b: seq<T>)
    ensures Sum(f, a + b) == Sum(f, a) + Sum(f, b)
  {
    if b == [] {
      assert a + b == a;
    } else {
      SumAppend(f, a, b[..|b| - 1]);
      AppendLast(a, b);
    }
  }

  lemma SumMore<T>(f: T -> nat, s: seq<T>, x: T)
    ensures Sum(f, s + [x]) == Sum(f, s) + f(x)
  {
    assert (s + [x])[..|s|] == s;
  }

  lemma SumMiddle<T>(f: T -> nat, l: seq<T>, x: T, r: seq<T>)
    ensures Sum(f, l + [x] + r) == Sum(f, l + r) + f(x)
  {
    SumAppend(f, l + [x], r);
    SumAppend(f, l, r);
    SumMore(f, l, x);
  }

  lemma {:induction false} SumPermutation<T>(f: T -> nat, a: seq<T>, b: seq<T>)
    requires multiset(a) == multiset(b)
    ensures Sum(f, a) == Sum(f, b)
    decreases |a|
  {
    if a == [] {
      assert |b| == |multiset(b)| == 0;
    } else {
      var k := DropTwin(a, b);
      SumPermutation(f, a[..|a| - 1], b[..k] + b[k + 1..]);
      SumMiddle(f, b[..k], b[k], b[k + 1..]);
      assert b == b[..k] + [b[k]] + b[k + 1..];
    }
  }

  lemma {:induction false} SumAgree<T>(f: T -> nat, g: T -> nat, s: seq<T>)
    requires forall x | x in s :: f(x) == g(x)
    ensures Sum(f, s) == Sum(g, s)
  {
    if s != [] {
      assert s[|s| - 1] in s;
      SumAgree(f, g, s[..|s| - 1]);
    }
  }

  lemma {:induction false} SumPositive<T>(f: T -> nat, s: seq<T>)
    ensures Sum(f, s) > 0 <==> exists x :: x in s && f(x) > 0
  {
    if s != [] {
      SumPositive(f, s[..|s| - 1]);
      assert s[|s| - 1] in s;
      assert forall x :: x in s <==> x in s[..|s| - 1] || x == s[|s| - 1];
    }
  }
}
