/**
 * Sequence helpers used across the model: order-preserving filtering and
 * counting, a stable insertion sort by an integer-pair key (the behaviour of
 * Array.prototype.sort with a consistent comparator), and the insertion order
 * of a JavaScript Map or Set.
 */
module Seqs {
  import opened Wrappers

  predicate Distinct<T(==)>(s: seq<T>) {
    forall i, j :: 0 <= i < j < |s| ==> s[i] != s[j]
  }

  function Min(a: int, b: int): int { if a <= b then a else b }

  function Max(a: int, b: int): int { if a >= b then a else b }

  /** The first `n` elements, or all of them when there are fewer (`slice(0, n)`). */
  function Take<T>(s: seq<T>, n: nat): (r: seq<T>)
    ensures |r| == Min(n, |s|)
    ensures r <= s
  {
    if n <= |s| then s[..n] else s
  }

  /** The first `n` elements of a filtered sequence all come from it and pass the test; there are all of them when there are at most `n`. */
  lemma TakeFiltered<T>(p: T -> bool, s: seq<T>, n: nat)
    ensures forall i :: 0 <= i < |Take(Filter(p, s), n)| ==> Take(Filter(p, s), n)[i] in s && p(Take(Filter(p, s), n)[i])
    ensures |Filter(p, s)| <= n ==> Take(Filter(p, s), n) == Filter(p, s)
  {
    var f := Filter(p, s);
    assert forall i :: 0 <= i < |Take(f, n)| ==> Take(f, n)[i] == f[i];
  }

  // ---------------------------------------------------------------- filtering

  /** `Array.prototype.filter`: the elements satisfying `p`, in their original order. */
  function Filter<T>(p: T -> bool, s: seq<T>): (r: seq<T>)
    ensures |r| <= |s|
    ensures forall i :: 0 <= i < |r| ==> r[i] in s && p(r[i])
    ensures forall i :: 0 <= i < |s| && p(s[i]) ==> s[i] in r
    ensures forall x :: x in r ==> x in s && p(x)
  {
    if s == [] then [] else (if p(s[0]) then [s[0]] else []) + Filter(p, s[1..])
  }

  /** `r` is `s` with some elements left out, the rest in their order. */
  predicate SubseqOf<T(==)>(r: seq<T>, s: seq<T>)
    decreases |s|
  {
    r == [] || (s != [] && ((r[0] == s[0] && SubseqOf(r[1..], s[1..])) || SubseqOf(r, s[1..])))
  }

  lemma {:induction false} SubseqSelf<T>(s: seq<T>)
    ensures SubseqOf(s, s)
  {
    if s != [] {
      SubseqSelf(s[1..]);
    }
  }

  /**
   * What the filter keeps is a subsequence as long as the number of
   * qualifying elements: every qualifying element is kept, in order.
   */
  lemma {:induction false} FilterSubseq<T>(p: T -> bool, s: seq<T>)
    ensures SubseqOf(Filter(p, s), s)
    ensures |Filter(p, s)| == Count(p, s)
  {
    CountIsFilterLength(p, s);
    if s != [] {
      FilterSubseq(p, s[1..]);
      var r := Filter(p, s);
      if p(s[0]) {
        assert r[0] == s[0] && r[1..] == Filter(p, s[1..]);
      } else {
        assert r == Filter(p, s[1..]);
      }
    }
  }

  lemma {:induction false} FilterAppend<T>(p: T -> bool, a: seq<T>, b: seq<T>)
    ensures Filter(p, a + b) == Filter(p, a) + Filter(p, b)
  {
    if a == [] {
      assert a + b == b;
    } else {
      assert (a + b)[1..] == a[1..] + b;
      FilterAppend(p, a[1..], b);
    }
  }

  /** Filtering a prefix one element longer appends that element when it qualifies. */
  lemma FilterSnoc<T>(p: T -> bool, s: seq<T>, i: nat)
    requires i < |s|
    ensures Filter(p, s[..i + 1]) == Filter(p, s[..i]) + (if p(s[i]) then [s[i]] else [])
  {
    assert s[..i + 1] == s[..i] + [s[i]];
    FilterAppend(p, s[..i], [s[i]]);
  }

  lemma {:induction false} FilterDistinct<T>(p: T -> bool, s: seq<T>)
    requires Distinct(s)
    ensures Distinct(Filter(p, s))
  {
    if s != [] {
      FilterDistinct(p, s[1..]);
      assert s[0] !in s[1..];
    }
  }

  /** Filtering keeps every occurrence of a qualifying element and drops the rest. */
  lemma {:induction false} FilterCount<T>(p: T -> bool, s: seq<T>, x: T)
    ensures multiset(Filter(p, s))[x] == if p(x) then multiset(s)[x] else 0
  {
    if s != [] {
      FilterCount(p, s[1..], x);
      var h := if p(s[0]) then [s[0]] else [];
      assert Filter(p, s) == h + Filter(p, s[1..]);
      assert multiset(Filter(p, s)) == multiset(h) + multiset(Filter(p, s[1..]));
      assert s == [s[0]] + s[1..];
      assert multiset(s) == multiset([s[0]]) + multiset(s[1..]);
    }
  }

  /** The number of elements satisfying `p`. */
  function Count<T>(p: T -> bool, s: seq<T>): (n: nat)
    ensures n <= |s|
  {
    if s == [] then 0 else (if p(s[0]) then 1 else 0) + Count(p, s[1..])
  }

  lemma {:induction false} CountIsFilterLength<T>(p: T -> bool, s: seq<T>)
    ensures Count(p, s) == |Filter(p, s)|
  {
    if s != [] {
      CountIsFilterLength(p, s[1..]);
    }
  }

  lemma {:induction false} CountAppend<T>(p: T -> bool, a: seq<T>, b: seq<T>)
    ensures Count(p, a + b) == Count(p, a) + Count(p, b)
  {
    if a == [] {
      assert a + b == b;
    } else {
      assert (a + b)[1..] == a[1..] + b;
      CountAppend(p, a[1..], b);
    }
  }

  lemma CountSnoc<T>(p: T -> bool, s: seq<T>, i: nat)
    requires i < |s|
    ensures Count(p, s[..i + 1]) == Count(p, s[..i]) + (if p(s[i]) then 1 else 0)
  {
    assert s[..i + 1] == s[..i] + [s[i]];
    CountAppend(p, s[..i], [s[i]]);
  }

  /** A condition implied by another never counts more elements. */
  lemma {:induction false} CountMonotone<T>(p: T -> bool, q: T -> bool, s: seq<T>)
    requires forall x :: p(x) ==> q(x)
    ensures Count(p, s) <= Count(q, s)
  {
    if s != [] {
      CountMonotone(p, q, s[1..]);
    }
  }

  // ---------------------------------------------------------------- tallies by key

  /** How many elements have key `Some(k)`. */
  function CountKey<T, K(==)>(key: T -> Option<K>, s: seq<T>, k: K): nat {
    Count(x => key(x) == Some(k), s)
  }

  /** The tallies of the keys `ks`, added up. */
  function SumCounts<T, K(==)>(key: T -> Option<K>, s: seq<T>, ks: seq<K>): nat {
    if ks == [] then 0 else CountKey(key, s, ks[0]) + SumCounts(key, s, ks[1..])
  }

  /** How many of `ks` the key `o` names. */
  function Hits<K(==)>(o: Option<K>, ks: seq<K>): nat {
    if ks == [] then 0 else (if o == Some(ks[0]) then 1 else 0) + Hits(o, ks[1..])
  }

  lemma {:induction false} HitsAbsent<K>(v: K, ks: seq<K>)
    requires v !in ks
    ensures Hits(Some(v), ks) == 0
  {
    if ks != [] {
      HitsAbsent(v, ks[1..]);
    }
  }

  lemma {:induction false} HitsAtMostOne<K>(o: Option<K>, ks: seq<K>)
    requires Distinct(ks)
    ensures Hits(o, ks) <= if o.Some? then 1 else 0
  {
    if ks != [] {
      HitsAtMostOne(o, ks[1..]);
      if o == Some(ks[0]) {
        assert ks[0] !in ks[1..];
        HitsAbsent(ks[0], ks[1..]);
      }
    }
  }

  /** Tallying a prefix one element longer adds that element to its own key's tally. */
  lemma CountKeySnoc<T, K>(key: T -> Option<K>, s: seq<T>, i: nat, k: K)
    requires i < |s|
    ensures CountKey(key, s[..i + 1], k) == CountKey(key, s[..i], k) + (if key(s[i]) == Some(k) then 1 else 0)
  {
    CountSnoc(x => key(x) == Some(k), s, i);
  }

  /** A tally map: an entry for exactly the keys that occur, holding how often each does. */
  ghost predicate Tallies<T, K(!new)>(counts: map<K, nat>, key: T -> Option<K>, s: seq<T>) {
    forall k :: (k in counts <==> CountKey(key, s, k) > 0)
                && (k in counts ==> counts[k] == CountKey(key, s, k))
  }

  /**
   * The `counts[k] = (counts[k] || 0) + 1` loop: one pass over `s`, adding
   * one to the tally of each element's key, if it has one.
   */
  method Tally<T, K(!new)>(key: T -> Option<K>, s: seq<T>) returns (counts: map<K, nat>)
    ensures Tallies(counts, key, s)
  {
    counts := map[];
    var i := 0;
    assert s[..0] == [];
    while i < |s|
      invariant i <= |s| && Tallies(counts, key, s[..i])
    {
      var x := s[i];
      forall k
        ensures CountKey(key, s[..i + 1], k) == CountKey(key, s[..i], k) + (if key(x) == Some(k) then 1 else 0)
      {
        CountKeySnoc(key, s, i, k);
      }
      if key(x).Some? {
        var k := key(x).value;
        counts := counts[k := (if k in counts then counts[k] else 0) + 1];
      }
      i := i + 1;
    }
    assert s[..i] == s;
  }

  lemma {:induction false} SumCountsEmpty<T, K>(key: T -> Option<K>, ks: seq<K>)
    ensures SumCounts(key, [], ks) == 0
  {
    if ks != [] {
      SumCountsEmpty(key, ks[1..]);
    }
  }

  lemma {:induction false} SumCountsCons<T, K>(key: T -> Option<K>, s: seq<T>, ks: seq<K>)
    requires s != []
    ensures SumCounts(key, s, ks) == SumCounts(key, s[1..], ks) + Hits(key(s[0]), ks)
  {
    if ks != [] {
      SumCountsCons(key, s, ks[1..]);
    }
  }

  /**
   * Tallies over distinct keys never add up to more than the number of
   * elements satisfying a condition that every element with a key meets:
   * every element is counted at most once.
   */
  lemma {:induction false} SumCountsBound<T, K>(key: T -> Option<K>, p: T -> bool, s: seq<T>, ks: seq<K>)
    requires Distinct(ks)
    requires forall x :: key(x).Some? ==> p(x)
    ensures SumCounts(key, s, ks) <= Count(p, s)
  {
    if s == [] {
      SumCountsEmpty(key, ks);
    } else {
      SumCountsCons(key, s, ks);
      SumCountsBound(key, p, s[1..], ks);
      HitsAtMostOne(key(s[0]), ks);
    }
  }

  // ---------------------------------------------------------------- stable sort

  /** Lexicographic order on integer pairs: the comparator's "not after". */
  predicate PairLe(a: (int, int), b: (int, int)) {
    a.0 < b.0 || (a.0 == b.0 && a.1 <= b.1)
  }

  ghost predicate SortedBy<T>(key: T -> (int, int), s: seq<T>) {
    forall i, j :: 0 <= i < j < |s| ==> PairLe(key(s[i]), key(s[j]))
  }

  /** Places `x` before the first element whose key is not smaller than its own. */
  function Insert<T>(key: T -> (int, int), x: T, s: seq<T>): seq<T> {
    if s == [] then [x]
    else if PairLe(key(x), key(s[0])) then [x] + s
    else [s[0]] + Insert(key, x, s[1..])
  }

  /** Insertion sort; an element is inserted ahead of later ones with an equal key, so it is stable. */
  function SortBy<T>(key: T -> (int, int), s: seq<T>): seq<T> {
    if s == [] then [] else Insert(key, s[0], SortBy(key, s[1..]))
  }

  lemma {:induction false} InsertMultiset<T>(key: T -> (int, int), x: T, s: seq<T>)
    ensures multiset(Insert(key, x, s)) == multiset(s) + multiset{x}
  {
    if s != [] && !PairLe(key(x), key(s[0])) {
      InsertMultiset(key, x, s[1..]);
      assert s == [s[0]] + s[1..];
    }
  }

  /** Every element of `s` and `x` itself are at least `lo`, so all of the insertion is. */
  lemma InsertLowerBound<T>(key: T -> (int, int), x: T, s: seq<T>, lo: (int, int))
    requires PairLe(lo, key(x))
    requires forall k :: 0 <= k < |s| ==> PairLe(lo, key(s[k]))
    ensures forall k :: 0 <= k < |Insert(key, x, s)| ==> PairLe(lo, key(Insert(key, x, s)[k]))
  {
    var t := Insert(key, x, s);
    InsertMultiset(key, x, s);
    forall k | 0 <= k < |t|
      ensures PairLe(lo, key(t[k]))
    {
      assert t[k] in multiset(t);
      if t[k] != x {
        assert t[k] in multiset(s);
        var m :| 0 <= m < |s| && s[m] == t[k];
      }
    }
  }

  lemma {:induction false} InsertSorted<T>(key: T -> (int, int), x: T, s: seq<T>)
    requires SortedBy(key, s)
    ensures SortedBy(key, Insert(key, x, s))
  {
    if s != [] && !PairLe(key(x), key(s[0])) {
      var rest := s[1..];
      InsertSorted(key, x, rest);
      var t := Insert(key, x, rest);
      InsertLowerBound(key, x, rest, key(s[0]));
      var r := [s[0]] + t;
      forall i, j | 0 <= i < j < |r|
        ensures PairLe(key(r[i]), key(r[j]))
      {
        if i == 0 {
          assert r[j] == t[j - 1];
        } else {
          assert r[i] == t[i - 1] && r[j] == t[j - 1];
        }
      }
    }
  }

  /** The sort orders by key and only reorders: the result is a permutation of the input. */
  lemma {:induction false} SortBySorted<T>(key: T -> (int, int), s: seq<T>)
    ensures SortedBy(key, SortBy(key, s))
    ensures multiset(SortBy(key, s)) == multiset(s)
  {
    if s != [] {
      SortBySorted(key, s[1..]);
      InsertSorted(key, s[0], SortBy(key, s[1..]));
      InsertMultiset(key, s[0], SortBy(key, s[1..]));
      assert s == [s[0]] + s[1..];
    }
  }

  /**
   * A prefix of a sorted sequence is sorted, and nothing it leaves out
   * comes before anything it keeps.
   */
  lemma TakeSorted<T>(key: T -> (int, int), s: seq<T>, n: nat)
    requires SortedBy(key, s)
    ensures SortedBy(key, Take(s, n))
    ensures forall e, x :: e in s && e !in Take(s, n) && x in Take(s, n) ==> PairLe(key(x), key(e))
  {
    var r := Take(s, n);
    forall e, x | e in s && e !in r && x in r
      ensures PairLe(key(x), key(e))
    {
      var j :| 0 <= j < |s| && s[j] == e;
      var i :| 0 <= i < |r| && r[i] == x;
      assert j >= |r|;
      assert s[i] == x;
    }
  }

  /** A prefix holds each value at most as often as the whole sequence. */
  lemma TakeMultiset<T>(s: seq<T>, n: nat)
    ensures multiset(Take(s, n)) <= multiset(s)
    ensures n >= |s| ==> Take(s, n) == s
  {
    if n < |s| {
      assert s == s[..n] + s[n..];
      assert multiset(s) == multiset(s[..n]) + multiset(s[n..]);
      assert Take(s, n) == s[..n];
    } else {
      assert s[..|s|] == s;
    }
  }

  /** The sort keeps exactly the elements it was given. */
  lemma SortByMembers<T>(key: T -> (int, int), s: seq<T>)
    ensures forall x :: x in SortBy(key, s) <==> x in s
  {
    SortBySorted(key, s);
    forall x
      ensures x in SortBy(key, s) <==> x in s
    {
      assert x in SortBy(key, s) <==> x in multiset(SortBy(key, s));
      assert x in s <==> x in multiset(s);
    }
  }

  lemma SortByLength<T>(key: T -> (int, int), s: seq<T>)
    ensures |SortBy(key, s)| == |s|
  {
    SortBySorted(key, s);
    assert |multiset(SortBy(key, s))| == |multiset(s)|;
  }

  // ---------------------------------------------------------------- Map / Set insertion order

  /** A subsequence stays one when an element is added at the end, of the whole or of both. */
  lemma {:induction false} SubseqSnoc<T>(r: seq<T>, s: seq<T>, x: T)
    requires SubseqOf(r, s)
    ensures SubseqOf(r, s + [x])
    ensures SubseqOf(r + [x], s + [x])
    decreases |s|
  {
    if s != [] {
      assert (s + [x])[1..] == s[1..] + [x];
      if r != [] && r[0] == s[0] && SubseqOf(r[1..], s[1..]) {
        SubseqSnoc(r[1..], s[1..], x);
        assert (r + [x])[1..] == r[1..] + [x];
      } else {
        SubseqSnoc(r, s[1..], x);
      }
    }
  }

  /** Key order after `map.set(k, v)`: an existing key keeps its place, a new one goes last. */
  function OrderAfterSet<K(==)>(order: seq<K>, k: K): (r: seq<K>)
    ensures k in r
    ensures forall i :: 0 <= i < |order| ==> order[i] in r
    ensures forall i :: 0 <= i < |r| ==> r[i] in order || r[i] == k
    ensures forall x :: x in order ==> x in r
    ensures forall x :: x in r ==> x in order || x == k
  {
    if k in order then order else order + [k]
  }

  /** Key order after `map.delete(k)`. */
  function OrderAfterDelete<K(==)>(order: seq<K>, k: K): (r: seq<K>)
    ensures k !in r
    ensures forall i :: 0 <= i < |order| && order[i] != k ==> order[i] in r
    ensures forall i :: 0 <= i < |r| ==> r[i] in order && r[i] != k
    ensures forall x :: x in order && x != k ==> x in r
    ensures forall x :: x in r ==> x in order && x != k
  {
    Filter(x => x != k, order)
  }

  lemma AppendAssoc<T>(a: seq<T>, b: seq<T>, c: seq<T>)
    ensures (a + b) + c == a + (b + c)
  {
  }

  /** Filtering with a condition every element meets changes nothing. */
  lemma {:induction false} FilterAll<T>(p: T -> bool, s: seq<T>)
    requires forall i :: 0 <= i < |s| ==> p(s[i])
    ensures Filter(p, s) == s
  {
    if s != [] {
      FilterAll(p, s[1..]);
    }
  }

  /** Deleting the first key of a duplicate-free order leaves the rest as they were. */
  lemma DeleteFirst<K>(order: seq<K>)
    requires Distinct(order) && order != []
    ensures OrderAfterDelete(order, order[0]) == order[1..]
  {
    var k := order[0];
    FilterAll(x => x != k, order[1..]);
  }

  /** Deleting an absent key changes nothing. */
  lemma DeleteAbsent<K>(order: seq<K>, k: K)
    requires k !in order
    ensures OrderAfterDelete(order, k) == order
  {
    FilterAll(x => x != k, order);
  }

  /** Deleting a key that was just appended restores the order before it. */
  lemma DeleteLast<K>(order: seq<K>, k: K)
    requires k !in order
    ensures OrderAfterDelete(order + [k], k) == order
  {
    FilterAppend(x => x != k, order, [k]);
    FilterAll(x => x != k, order);
  }

  lemma OrderAfterSetDistinct<K>(order: seq<K>, k: K)
    requires Distinct(order)
    ensures Distinct(OrderAfterSet(order, k))
  {
  }

  lemma OrderAfterDeleteDistinct<K>(order: seq<K>, k: K)
    requires Distinct(order)
    ensures Distinct(OrderAfterDelete(order, k))
  {
    FilterDistinct(x => x != k, order);
  }

  /** Setting a key that was deleted re-inserts it at the end, after every other key. */
  lemma DeleteThenSetMovesLast<K>(order: seq<K>, k: K)
    ensures OrderAfterSet(OrderAfterDelete(order, k), k) == OrderAfterDelete(order, k) + [k]
  {
  }

  /** Removing a key and then setting it is the same as setting it. */
  lemma SetTwice<K, V>(m: map<K, V>, k: K, a: V, b: V)
    ensures m[k := a][k := b] == m[k := b]
  {
  }

  lemma RemoveThenSet<K, V>(m: map<K, V>, k: K, v: V)
    ensures (m - {k})[k := v] == m[k := v]
  {
  }

}
