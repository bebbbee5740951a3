/**
  One page of a keyset-paged query: `where … AND key > cursor ORDER BY key LIMIT n`.

  The comment redaction, the due-soon scan and every cursor list of the API are loops over it.
*/
module Keyset {
  import opened Rows
  import opened Wrappers

  ghost predicate StrictOrder<K(!new)>(lt: (K, K) -> bool) {
    && (forall x :: !lt(x, x))
    && (forall x, y :: x == y || lt(x, y) || lt(y, x))
    && (forall x, y, z :: lt(x, y) && lt(y, z) ==> lt(x, z))
  }

  predicate After<K>(lt: (K, K) -> bool, cursor: Option<K>, k: K) {
    cursor.None? || lt(cursor.value, k)
  }

  function ByKey<T, K>(key: T -> K, lt: (K, K) -> bool): (T, T) -> bool {
    (a: T, b: T) => !lt(key(b), key(a))
  }

  function Selected<T, K>(selects: T -> bool, key: T -> K, lt: (K, K) -> bool, cursor: Option<K>): T -> bool {
    (r: T) => selects(r) && After(lt, cursor, key(r))
  }

  function Page<T, K>(rows: seq<T>, selects: T -> bool, key: T -> K, lt: (K, K) -> bool, cursor: Option<K>, take: nat)
    : seq<T>
  {
    var found := Sort(ByKey(key, lt), Filter(Selected(selects, key, lt, cursor), rows));
    if |found| > take then found[..take] else found
  }

  /** What a page holds: the smallest `take` selected rows past the cursor, in key order. */
  ghost predicate IsPage<T, K>(rows: seq<T>, selects: T -> bool, key: T -> K, lt: (K, K) -> bool,
                               cursor: Option<K>, take: nat, page: seq<T>)
  {
    && |page| <= take
    && (forall r | r in page :: r in rows && selects(r) && After(lt, cursor, key(r)))
    && (forall i, j | 0 <= i < j < |page| :: lt(key(page[i]), key(page[j])))
    && (forall r | r in rows && selects(r) && After(lt, cursor, key(r)) ::
          r in page || (|page| == take && forall i | 0 <= i < take :: lt(key(page[i]), key(r))))
  }

  lemma PageIsPage<T(!new), K(!new)>(rows: seq<T>, selects: T -> bool, key: T -> K, lt: (K, K) -> bool,
                                     cursor: Option<K>, take: nat)
    requires StrictOrder(lt) && Distinct(Map(key, rows))
    ensures IsPage(rows, selects, key, lt, cursor, take, Page(rows, selects, key, lt, cursor, take))
  {
    var le, p := ByKey(key, lt), Selected(selects, key, lt, cursor);
    var hits := Filter(p, rows);
    var found := Sort(le, hits);
    var page := Page(rows, selects, key, lt, cursor, take);
    assert TotalPreorder(le);
    FilterIn(p, rows);
    FilterDistinct(p, key, rows);
    SortPermutation(le, hits);
    SortSorted(le, hits);
    DistinctPermutation(key, hits, found);
    forall i, j | 0 <= i < j < |found| ensures lt(key(found[i]), key(found[j])) {
      assert le(found[i], found[j]);
      assert Map(key, found)[i] != Map(key, found)[j];
    }
    forall r | r in page ensures r in rows && p(r) {
      assert r in found && r in hits;
    }
    forall r | r in rows && p(r)
      ensures r in page || (|page| == take && forall i | 0 <= i < take :: lt(key(page[i]), key(r)))
    {
      assert r in hits && r in found;
      var k :| 0 <= k < |found| && found[k] == r;
      if k < |page| {
        assert page[k] == r;
      }
    }
  }

  /** Every selected row, in key order: what the pages are cut from. */
  function Listing<T, K>(rows: seq<T>, selects: T -> bool, key: T -> K, lt: (K, K) -> bool): seq<T> {
    Sort(ByKey(key, lt), Filter(selects, rows))
  }

  lemma ListingFacts<T(!new), K(!new)>(rows: seq<T>, selects: T -> bool, key: T -> K, lt: (K, K) -> bool)
    requires StrictOrder(lt) && Distinct(Map(key, rows))
    ensures var all := Listing(rows, selects, key, lt);
            && multiset(all) == multiset(Filter(selects, rows)) && Distinct(Map(key, all))
            && (forall r :: r in all <==> r in rows && selects(r))
            && (forall i, j | 0 <= i < j < |all| :: lt(key(all[i]), key(all[j])))
  {
    var hits := Filter(selects, rows);
    var le := ByKey(key, lt);
    var all := Sort(le, hits);
    assert TotalPreorder(le);
    FilterIn(selects, rows);
    FilterDistinct(selects, key, rows);
    SortPermutation(le, hits);
    SortSorted(le, hits);
    DistinctPermutation(key, hits, all);
    forall i, j | 0 <= i < j < |all| ensures lt(key(all[i]), key(all[j])) {
      assert le(all[i], all[j]);
      assert Map(key, all)[i] != Map(key, all)[j];
    }
  }

  /** A page after the n-th row is the next stretch of the listing. */
  lemma PageIsSlice<T(!new),
      K(!new)>(rows: seq<T>, selects: T -> bool, key: T -> K, lt: (K, K) -> bool, n: nat, take: nat)
    requires StrictOrder(lt) && Distinct(Map(key, rows)) && n <= |Listing(rows, selects, key, lt)|
    ensures var all := Listing(rows, selects, key, lt);
            var cursor := if n == 0 then None else Some(key(all[n - 1]));
            Page(rows, selects, key, lt, cursor, take) == all[n..if |all| - n > take then n + take else |all|]
  {
    var all := Listing(rows, selects, key, lt);
    var cursor := if n == 0 then None else Some(key(all[n - 1]));
    ListingFacts(rows, selects, key, lt);
    RestSorts(rows, selects, key, lt, n, cursor);
  }

  function Past<T, K>(key: T -> K, lt: (K, K) -> bool, cursor: Option<K>): T -> bool {
    (r: T) => After(lt, cursor, key(r))
  }

  lemma RestSorts<T(!new),
      K(!new)>(rows: seq<T>, selects: T -> bool, key: T -> K, lt: (K, K) -> bool, n: nat, cursor: Option<K>)
    requires StrictOrder(lt) && Distinct(Map(key, rows)) && n <= |Listing(rows, selects, key, lt)|
    requires cursor == if n == 0 then None else Some(key(Listing(rows, selects, key, lt)[n - 1]))
    ensures Sort(ByKey(key, lt), Filter(Selected(selects, key, lt, cursor), rows))
            == Listing(rows, selects, key, lt)[n..]
  {
    var all := Listing(rows, selects, key, lt);
    ListingFacts(rows, selects, key, lt);
    FilterTwice(selects, Past(key, lt, cursor), Selected(selects, key, lt, cursor), rows);
    FilterPermutation(Past(key, lt, cursor), all, Filter(selects, rows));
    RestIsPast(all, key, lt, n, cursor);
    RestSorted(all, key, lt, n);
    SortIs(ByKey(key, lt), Filter(Selected(selects, key, lt, cursor), rows), all[n..]);
  }

  lemma RestSorted<T(!new), K(!new)>(all: seq<T>, key: T -> K, lt: (K, K) -> bool, n: nat)
    requires StrictOrder(lt) && n <= |all| && Distinct(Map(key, all))
    requires forall i, j | 0 <= i < j < |all| :: lt(key(all[i]), key(all[j]))
    ensures TotalPreorder(ByKey(key, lt))
    ensures Sorted(ByKey(key, lt), all[n..]) && AntisymmetricOn(ByKey(key, lt), all[n..])
  {
    var le, rest := ByKey(key, lt), all[n..];
    forall i, j | 0 <= i < j < |rest| ensures le(rest[i], rest[j]) {
      assert lt(key(all[n + i]), key(all[n + j]));
    }
    forall x, y | x in rest && y in rest && le(x, y) && le(y, x) ensures x == y {
      assert x in all && y in all;
      KeyDetermines(key, all, x, y);
    }
  }

  lemma RestIsPast<T, K(!new)>(all: seq<T>, key: T -> K, lt: (K, K) -> bool, n: nat, cursor: Option<K>)
    requires StrictOrder(lt) && n <= |all| && cursor == if n == 0 then None else Some(key(all[n - 1]))
    requires forall i, j | 0 <= i < j < |all| :: lt(key(all[i]), key(all[j]))
    ensures Filter(Past(key, lt, cursor), all) == all[n..]
  {
    forall k | 0 <= k < |all| ensures Past(key, lt, cursor)(all[k]) <==> n <= k {
      assert 0 < n && k < n - 1 ==> lt(key(all[k]), key(all[n - 1]));
      assert 0 < n <= k ==> lt(key(all[n - 1]), key(all[k]));
    }
    FilterSuffix(Past(key, lt, cursor), all, n);
  }
}
