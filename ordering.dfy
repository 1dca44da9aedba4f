/**
 * Ordering and slicing of in-memory result lists.
 *
 * Database querysets (`order_by(...)`, `[:n]`, `filter(...)`) become the
 * functions of this module over sequences: a stable insertion sort driven by a
 * comparator, a prefix, and an order-preserving filter.
 */
module Ordering {

  /** `before(a, b)` holds when `a` may be listed ahead of `b`. */
  ghost predicate TotalPreorder<T(!new)>(before: (T, T) -> bool) {
    && (forall a, b :: before(a, b) || before(b, a))
    && (forall a, b, c :: before(a, b) && before(b, c) ==> before(a, c))
  }

  ghost predicate SortedBy<T>(s: seq<T>, before: (T, T) -> bool) {
    forall i, j :: 0 <= i < j < |s| ==> before(s[i], s[j])
  }

  /** No element occurs twice. */
  ghost predicate Distinct<T>(s: seq<T>) {
    forall i, j :: 0 <= i < j < |s| ==> s[i] != s[j]
  }

  /** Descending order of a numeric key, as `order_by('-key')` lists rows. */
  function ByKeyDesc<T>(key: T -> real): (T, T) -> bool {
    (a: T, b: T) => key(a) >= key(b)
  }

  lemma KeyDescIsTotalPreorder<T(!new)>(key: T -> real)
    ensures TotalPreorder(ByKeyDesc(key))
  {
  }

  /** Inserts `x` ahead of the first element it may precede. */
  function Insert<T>(x: T, s: seq<T>, before: (T, T) -> bool): (r: seq<T>)
    ensures |r| == |s| + 1
  {
    if s == [] || before(x, s[0]) then [x] + s
    else [s[0]] + Insert(x, s[1..], before)
  }

  lemma {:induction false} InsertPermutes<T>(x: T, s: seq<T>, before: (T, T) -> bool)
    ensures multiset(Insert(x, s, before)) == multiset(s) + multiset{x}
  {
    if s != [] && !before(x, s[0]) {
      assert s == [s[0]] + s[1..];
      InsertPermutes(x, s[1..], before);
    }
  }

  /**
   * Stable insertion sort: equal elements keep their input order, which is
   * the order the store yields them in.
   */
  function SortBy<T>(s: seq<T>, before: (T, T) -> bool): (r: seq<T>)
    ensures |r| == |s|
  {
    if s == [] then []
    else Insert(s[0], SortBy(s[1..], before), before)
  }

  /** Sorting only reorders: the result is a permutation of the input. */
  lemma {:induction false} SortByPermutes<T>(s: seq<T>, before: (T, T) -> bool)
    ensures multiset(SortBy(s, before)) == multiset(s)
  {
    if s != [] {
      assert s == [s[0]] + s[1..];
      SortByPermutes(s[1..], before);
      InsertPermutes(s[0], SortBy(s[1..], before), before);
    }
  }

  lemma {:induction false} InsertSorted<T(!new)>(x: T, s: seq<T>, before: (T, T) -> bool)
    requires TotalPreorder(before) && SortedBy(s, before)
    ensures SortedBy(Insert(x, s, before), before)
  {
    if s == [] || before(x, s[0]) {
    } else {
      var tail := s[1..];
      InsertSorted(x, tail, before);
      InsertPermutes(x, tail, before);
      var r := Insert(x, tail, before);
      forall j | 0 <= j < |r| ensures before(s[0], r[j]) {
        assert r[j] in multiset(r);
        if r[j] != x {
          assert r[j] in multiset(tail);
          var k :| 0 <= k < |tail| && tail[k] == r[j];
          assert s[k + 1] == r[j];
        }
      }
    }
  }

  lemma {:induction false} SortBySorted<T(!new)>(s: seq<T>, before: (T, T) -> bool)
    requires TotalPreorder(before)
    ensures SortedBy(SortBy(s, before), before)
  {
    if s != [] {
      SortBySorted(s[1..], before);
      InsertSorted(s[0], SortBy(s[1..], before), before);
    }
  }

  lemma {:induction false} InsertDistinct<T>(x: T, s: seq<T>, before: (T, T) -> bool)
    requires Distinct(s) && x !in s
    ensures Distinct(Insert(x, s, before))
  {
    if s == [] || before(x, s[0]) {
    } else {
      var tail := s[1..];
      InsertDistinct(x, tail, before);
      InsertPermutes(x, tail, before);
      var r := Insert(x, tail, before);
      forall j | 0 <= j < |r| ensures r[j] != s[0] {
        assert r[j] in multiset(r);
        if r[j] != x {
          assert r[j] in multiset(tail);
          var k :| 0 <= k < |tail| && tail[k] == r[j];
          assert s[k + 1] == r[j];
        }
      }
    }
  }

  lemma {:induction false} SortByDistinct<T>(s: seq<T>, before: (T, T) -> bool)
    requires Distinct(s)
    ensures Distinct(SortBy(s, before))
  {
    if s != [] {
      SortByDistinct(s[1..], before);
      SortByPermutes(s[1..], before);
      assert s[0] !in multiset(s[1..]);
      InsertDistinct(s[0], SortBy(s[1..], before), before);
    }
  }

  /** The first `n` elements, or all of them when there are fewer: `s[:n]`. */
  function Prefix<T>(s: seq<T>, n: nat): (r: seq<T>)
    ensures |r| == if n <= |s| then n else |s|
    ensures forall i :: 0 <= i < |r| ==> r[i] == s[i]
    ensures r == s[..|r|]
  {
    if n <= |s| then s[..n] else s
  }

  lemma PrefixSubMultiset<T>(s: seq<T>, n: nat)
    ensures multiset(Prefix(s, n)) <= multiset(s)
  {
    if n <= |s| {
      assert s == s[..n] + s[n..];
    }
  }

  /** The elements that satisfy `keep`, in their original order. */
  function Filter<T>(s: seq<T>, keep: T -> bool): (r: seq<T>)
    ensures |r| <= |s|
    ensures forall i :: 0 <= i < |r| ==> keep(r[i])
  {
    if s == [] then []
    else (if keep(s[0]) then [s[0]] else []) + Filter(s[1..], keep)
  }

  /** `Filter` keeps exactly the elements that satisfy `keep`. */
  lemma {:induction false} FilterMembers<T>(s: seq<T>, keep: T -> bool)
    ensures forall i :: 0 <= i < |Filter(s, keep)| ==> Filter(s, keep)[i] in s
    ensures forall i :: 0 <= i < |s| && keep(s[i]) ==> s[i] in Filter(s, keep)
  {
    if s != [] {
      FilterMembers(s[1..], keep);
      var r := Filter(s, keep);
      forall i | 0 <= i < |s| && keep(s[i])
        ensures s[i] in r
      {
        if i > 0 {
          assert s[1..][i - 1] == s[i];
        }
      }
    }
  }

  lemma {:induction false} FilterSubMultiset<T>(s: seq<T>, keep: T -> bool)
    ensures multiset(Filter(s, keep)) <= multiset(s)
  {
    if s != [] {
      assert s == [s[0]] + s[1..];
      FilterSubMultiset(s[1..], keep);
    }
  }

  lemma {:induction false} FilterAppend<T>(a: seq<T>, b: seq<T>, keep: T -> bool)
    ensures Filter(a + b, keep) == Filter(a, keep) + Filter(b, keep)
  {
    if a != [] {
      assert (a + b)[1..] == a[1..] + b;
      FilterAppend(a[1..], b, keep);
    } else {
      assert a + b == b;
    }
  }

  /** Filtering one more element appends it when it is kept. */
  lemma FilterSnoc<T>(s: seq<T>, i: nat, keep: T -> bool)
    requires i < |s|
    ensures Filter(s[..i + 1], keep) == Filter(s[..i], keep) + (if keep(s[i]) then [s[i]] else [])
  {
    assert s[..i + 1] == s[..i] + [s[i]];
    FilterAppend(s[..i], [s[i]], keep);
    assert [s[i]][1..] == [];
  }

  /** Filtering a prefix gives a prefix of the filtered sequence. */
  lemma FilterOfPrefix<T>(s: seq<T>, k: nat, keep: T -> bool)
    requires k <= |s|
    ensures Filter(s[..k], keep) <= Filter(s, keep)
  {
    assert s == s[..k] + s[k..];
    FilterAppend(s[..k], s[k..], keep);
  }

  lemma {:induction false} FilterDistinct<T>(s: seq<T>, keep: T -> bool)
    requires Distinct(s)
    ensures Distinct(Filter(s, keep))
  {
    if s != [] {
      FilterDistinct(s[1..], keep);
      FilterMembers(s[1..], keep);
    }
  }

  /** Every element of a sorted prefix may precede every element left out of it. */
  lemma PrefixPrecedesRest<T>(s: seq<T>, n: nat, before: (T, T) -> bool, x: T, y: T)
    requires SortedBy(s, before)
    requires x in Prefix(s, n) && y in s && y !in Prefix(s, n)
    ensures before(x, y)
  {
    var i :| 0 <= i < |Prefix(s, n)| && Prefix(s, n)[i] == x;
    var j :| 0 <= j < |s| && s[j] == y;
  }

  /** Cutting the tail of a concatenation leaves a prefix of it. */
  lemma ConcatPrefix<T>(a: seq<T>, b: seq<T>, k: nat)
    requires k <= |b|
    ensures a + b[..k] <= a + b
  {
    assert (a + b)[..|a| + k] == a + b[..k];
  }

  /** One more element of `b` taken after `a`. */
  lemma ConcatSnoc<T>(a: seq<T>, b: seq<T>, k: nat)
    requires k < |b|
    ensures a + b[..k + 1] == (a + b[..k]) + [b[k]]
  {
    assert b[..k + 1] == b[..k] + [b[k]];
  }

  /** An element of a sub-multiset is an element of the larger sequence. */
  lemma SubMultisetMembers<T>(r: seq<T>, s: seq<T>)
    requires multiset(r) <= multiset(s)
    ensures forall i :: 0 <= i < |r| ==> r[i] in s
  {
    forall i | 0 <= i < |r|
      ensures r[i] in s
    {
      assert r[i] in multiset(r);
    }
  }

  /** `order_by(...)[:n]`: the first `n` elements of the sorted sequence. */
  function Top<T>(s: seq<T>, before: (T, T) -> bool, n: nat): (r: seq<T>)
    ensures |r| == if n <= |s| then n else |s|
  {
    Prefix(SortBy(s, before), n)
  }

  lemma TopMembers<T>(s: seq<T>, before: (T, T) -> bool, n: nat)
    ensures forall i :: 0 <= i < |Top(s, before, n)| ==> Top(s, before, n)[i] in s
  {
    TopSubMultiset(s, before, n);
    SubMultisetMembers(Top(s, before, n), s);
  }

  lemma TopSubMultiset<T>(s: seq<T>, before: (T, T) -> bool, n: nat)
    ensures multiset(Prefix(SortBy(s, before), n)) <= multiset(s)
  {
    SortByPermutes(s, before);
    PrefixSubMultiset(SortBy(s, before), n);
  }

  /** The top of a filtered sequence is a sub-multiset of the unfiltered one. */
  lemma TopOfFilter<T>(s: seq<T>, keep: T -> bool, before: (T, T) -> bool, n: nat)
    ensures multiset(Top(Filter(s, keep), before, n)) <= multiset(s)
  {
    TopSubMultiset(Filter(s, keep), before, n);
    FilterSubMultiset(s, keep);
  }

  lemma TopSorted<T(!new)>(s: seq<T>, before: (T, T) -> bool, n: nat)
    requires TotalPreorder(before)
    ensures SortedBy(Top(s, before, n), before)
  {
    SortBySorted(s, before);
  }

  /** Whatever `Top` leaves out may follow everything it keeps. */
  lemma TopPrecedesRest<T(!new)>(s: seq<T>, before: (T, T) -> bool, n: nat, x: T, y: T)
    requires TotalPreorder(before)
    requires x in Top(s, before, n) && y in s && y !in Top(s, before, n)
    ensures before(x, y)
  {
    var sorted := SortBy(s, before);
    SortBySorted(s, before);
    SortByPermutes(s, before);
    assert y in multiset(sorted);
    PrefixPrecedesRest(sorted, n, before, x, y);
  }

  /** The position of the first occurrence of `x`, or `|s|` when absent. */
  function IndexOf<T(==)>(s: seq<T>, x: T): (k: nat)
    ensures k <= |s|
    ensures k < |s| <==> x in s
    ensures k < |s| ==> s[k] == x && forall i :: 0 <= i < k ==> s[i] != x
  {
    if s == [] then 0
    else if s[0] == x then 0
    else 1 + IndexOf(s[1..], x)
  }

  /** Two equal elements at different positions make the element count at least two. */
  lemma CountTwo<T>(s: seq<T>, i: nat, j: nat)
    requires i < j < |s| && s[i] == s[j]
    ensures multiset(s)[s[i]] >= 2
  {
    assert s == s[..j] + s[j..];
    assert s[i] in s[..j];
    assert s[j] in s[j..];
  }

  /** In a sequence without repetitions every element occurs at most once. */
  lemma {:induction false} CountAtMostOne<T>(s: seq<T>, x: T)
    requires Distinct(s)
    ensures multiset(s)[x] <= 1
  {
    if s != [] {
      var prev := s[..|s| - 1];
      assert s == prev + [s[|s| - 1]];
      CountAtMostOne(prev, x);
      if s[|s| - 1] == x {
        assert x !in prev;
      }
    }
  }

  /** In a sequence without repetitions, the element at position `k` is first found at `k`. */
  lemma IndexOfDistinct<T>(s: seq<T>, k: nat)
    requires Distinct(s) && k < |s|
    ensures IndexOf(s, s[k]) == k
  {
  }

  /** `range(n)`: the positions `0 .. n-1` in order. */
  function Range(n: nat): (r: seq<int>)
    ensures |r| == n
    ensures forall i :: 0 <= i < n ==> r[i] == i
    ensures Distinct(r)
  {
    seq(n, i => i)
  }
}
