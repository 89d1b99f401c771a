/** What the list endpoints do with a collection once the store has picked
    the matching records: sort by a timestamp field and cut to a limit. */
module Listing {

  predicate SortedAsc<T>(s: seq<T>, key: T -> int) {
    forall i, j | 0 <= i < j < |s| :: key(s[i]) <= key(s[j])
  }

  predicate SortedDesc<T>(s: seq<T>, key: T -> int) {
    forall i, j | 0 <= i < j < |s| :: key(s[i]) >= key(s[j])
  }

  /** A record no later than any of a sorted sequence can go in front. */
  lemma ConsSorted<T>(h: T, s: seq<T>, key: T -> int)
    requires SortedAsc(s, key)
    requires forall y | y in s :: key(h) <= key(y)
    ensures SortedAsc([h] + s, key)
  {
    forall i, j | 0 <= i < j < |[h] + s| ensures key(([h] + s)[i]) <= key(([h] + s)[j]) {
      if i > 0 {
        assert ([h] + s)[i] == s[i - 1];
      }
      assert ([h] + s)[j] == s[j - 1];
    }
  }

  /** A record no later than the head of a sorted sequence goes in front. */
  lemma FrontSorted<T>(x: T, s: seq<T>, key: T -> int)
    requires SortedAsc(s, key) && s != [] && key(x) <= key(s[0])
    ensures SortedAsc([x] + s, key)
  {
    forall y | y in s ensures key(x) <= key(y) {
      var k :| 0 <= k < |s| && s[k] == y;
      assert k == 0 || key(s[0]) <= key(s[k]);
    }
    ConsSorted(x, s, key);
  }

  /** The head of a sorted sequence stays in front of the rest once a later
      record is inserted into it. */
  lemma HeadSorted<T>(x: T, s: seq<T>, rest: seq<T>, key: T -> int)
    requires SortedAsc(s, key) && s != [] && key(s[0]) < key(x)
    requires SortedAsc(rest, key)
    requires forall y | y in rest :: y == x || y in s[1..]
    ensures SortedAsc([s[0]] + rest, key)
  {
    forall y | y in rest ensures key(s[0]) <= key(y) {
      if y != x {
        var k :| 0 <= k < |s[1..]| && s[1..][k] == y;
        assert s[k + 1] == y;
      }
    }
    ConsSorted(s[0], rest, key);
  }

  function Insert<T>(x: T, s: seq<T>, key: T -> int): (r: seq<T>)
    requires SortedAsc(s, key)
    ensures SortedAsc(r, key)
    ensures multiset(r) == multiset(s) + multiset{x}
    ensures forall y | y in r :: y == x || y in s
  {
    if s == [] then [x]
    else if key(x) <= key(s[0]) then
      FrontSorted(x, s, key);
      [x] + s
    else
      var rest := Insert(x, s[1..], key);
      assert s == [s[0]] + s[1..];
      HeadSorted(x, s, rest, key);
      [s[0]] + rest
  }

  /** `.sort({ field: 1 })`: ascending by key. Records with equal keys come
      out in one fixed order. */
  function SortAsc<T>(s: seq<T>, key: T -> int): (r: seq<T>)
    ensures SortedAsc(r, key)
    ensures multiset(r) == multiset(s)
  {
    if s == [] then []
    else
      assert s == [s[0]] + s[1..];
      Insert(s[0], SortAsc(s[1..], key), key)
  }

  /** Two sequences with the same multiset hold the same elements. */
  lemma SameMembers<T>(a: seq<T>, b: seq<T>)
    requires multiset(a) == multiset(b)
    ensures (forall x | x in a :: x in b) && (forall x | x in b :: x in a)
  {
    forall x | x in a ensures x in b {
      assert x in multiset(a);
    }
    forall x | x in b ensures x in a {
      assert x in multiset(b);
    }
  }

  /** `.sort({ field: -1 })`: newest first. */
  function SortDesc<T>(s: seq<T>, key: T -> int): (r: seq<T>)
    ensures SortedDesc(r, key)
    ensures multiset(r) == multiset(s)
    ensures (forall x | x in r :: x in s) && (forall x | x in s :: x in r)
  {
    var neg := (x: T) => -key(x);
    var r := SortAsc(s, neg);
    assert forall i, j | 0 <= i < j < |r| :: neg(r[i]) <= neg(r[j]);
    SameMembers(r, s);
    r
  }

  /** `.limit(n)` */
  function Take<T>(s: seq<T>, n: nat): (r: seq<T>)
    ensures |r| <= n && |r| <= |s|
    ensures |r| == n || |r| == |s|
    ensures r == s[..|r|]
    ensures multiset(r) <= multiset(s)
  {
    if |s| <= n then s
    else
      assert s == s[..n] + s[n..];
      s[..n]
  }

  /** The records a query filter selects, in collection order. */
  function Select<T>(s: seq<T>, p: T -> bool): (r: seq<T>)
    ensures |r| <= |s|
    ensures forall x | x in r :: x in s && p(x)
    ensures forall x | x in s && p(x) :: x in r
  {
    if s == [] then []
    else
      var rest := Select(s[1..], p);
      assert forall x | x in s :: x == s[0] || x in s[1..];
      if p(s[0]) then [s[0]] + rest else rest
  }

  /** A matching record is selected as often as it occurs; any other
      record not at all. */
  lemma {:induction false} SelectCount<T>(s: seq<T>, p: T -> bool)
    ensures forall x | x in s :: multiset(Select(s, p))[x] == if p(x) then multiset(s)[x] else 0
    ensures multiset(Select(s, p)) <= multiset(s)
  {
    SelectCounts(s, p);
    forall x ensures multiset(Select(s, p))[x] <= multiset(s)[x] {
      if x !in s {
        assert x !in Select(s, p);
      }
    }
  }

  /** The per-record half of `SelectCount`, by induction on `s`. */
  lemma {:induction false} SelectCounts<T>(s: seq<T>, p: T -> bool)
    ensures forall x | x in s :: multiset(Select(s, p))[x] == if p(x) then multiset(s)[x] else 0
  {
    if s != [] {
      SelectCounts(s[1..], p);
      assert s == [s[0]] + s[1..];
      forall x | x in s
        ensures multiset(Select(s, p))[x] == if p(x) then multiset(s)[x] else 0
      {
        if x !in s[1..] {
          assert x !in Select(s[1..], p);
        }
      }
    }
  }

  /** Records whose keys are pairwise distinct keep them distinct once
      filtered. */
  lemma {:induction false} SelectKeepsDistinct<T, K>(s: seq<T>, p: T -> bool, key: T -> K)
    requires forall i, j | 0 <= i < j < |s| :: key(s[i]) != key(s[j])
    ensures forall i, j | 0 <= i < j < |Select(s, p)| :: key(Select(s, p)[i]) != key(Select(s, p)[j])
  {
    if s != [] {
      SelectKeepsDistinct(s[1..], p, key);
      var rest := Select(s[1..], p);
      forall x | x in rest ensures key(x) != key(s[0]) {
        var k :| 0 <= k < |s[1..]| && s[1..][k] == x;
        assert s[k + 1] == x;
      }
      var r := Select(s, p);
      if p(s[0]) {
        assert r == [s[0]] + rest;
        forall i, j | 0 <= i < j < |r| ensures key(r[i]) != key(r[j]) {
          assert r[j] == rest[j - 1] && rest[j - 1] in rest;
          if i > 0 {
            assert r[i] == rest[i - 1];
            assert key(rest[i - 1]) != key(rest[j - 1]);
          }
        }
      } else {
        assert r == rest;
      }
    }
  }

  /** Filtering a concatenation filters each part. */
  lemma {:induction false} SelectAppend<T>(a: seq<T>, b: seq<T>, p: T -> bool)
    ensures Select(a + b, p) == Select(a, p) + Select(b, p)
  {
    if a != [] {
      assert (a + b)[1..] == a[1..] + b;
      SelectAppend(a[1..], b, p);
    } else {
      assert a + b == b;
    }
  }

  /** Records none of which matches are all filtered out. */
  lemma {:induction false} SelectNone<T>(s: seq<T>, p: T -> bool)
    requires forall i | 0 <= i < |s| :: !p(s[i])
    ensures Select(s, p) == []
  {
    if s != [] {
      SelectNone(s[1..], p);
    }
  }

  /** Two filters that agree on every record select the same records. */
  lemma {:induction false} SelectAgree<T>(s: seq<T>, p: T -> bool, q: T -> bool)
    requires forall i | 0 <= i < |s| :: p(s[i]) == q(s[i])
    ensures Select(s, p) == Select(s, q)
  {
    if s != [] {
      SelectAgree(s[1..], p, q);
    }
  }

  lemma SortedPrefix<T>(s: seq<T>, n: nat, key: T -> int)
    requires n <= |s|
    ensures SortedAsc(s, key) ==> SortedAsc(s[..n], key)
    ensures SortedDesc(s, key) ==> SortedDesc(s[..n], key)
  {
  }

  /** A prefix of a reordering of the selection holds matching records,
      none more often than it is stored. */
  lemma SelectedPrefix<T>(s: seq<T>, p: T -> bool, sorted: seq<T>, r: seq<T>)
    requires multiset(sorted) == multiset(Select(s, p))
    requires |r| <= |sorted| && r == sorted[..|r|]
    ensures forall x | x in r :: x in s && p(x)
    ensures multiset(r) <= multiset(s)
  {
    assert sorted == r + sorted[|r|..];
    SelectCount(s, p);
    forall x | x in r ensures x in s && p(x) {
      assert x in multiset(Select(s, p));
    }
  }

  /** A reordering of the whole selection holds each matching record as
      often as it is stored. */
  lemma WholeSelection<T>(s: seq<T>, p: T -> bool, sorted: seq<T>)
    requires multiset(sorted) == multiset(Select(s, p))
    ensures forall x | x in s && p(x) :: x in sorted
    ensures forall x | x in s && p(x) :: multiset(sorted)[x] == multiset(s)[x]
  {
    SelectCount(s, p);
    forall x | x in s && p(x) ensures x in sorted {
      assert x in multiset(Select(s, p));
    }
  }

  /** A record left out of a prefix of a sorted sequence is no earlier than
      any record kept. */
  lemma KeptPrefix<T>(s: seq<T>, p: T -> bool, sorted: seq<T>, r: seq<T>, key: T -> int)
    requires SortedAsc(sorted, key)
    requires forall x | x in s && p(x) :: x in sorted
    requires |r| <= |sorted| && r == sorted[..|r|]
    ensures forall x, y | x in s && p(x) && x !in r && y in r :: key(y) <= key(x)
  {
    forall x, y | x in s && p(x) && x !in r && y in r ensures key(y) <= key(x) {
      var i :| 0 <= i < |sorted| && sorted[i] == x;
      var j :| 0 <= j < |r| && r[j] == y;
      assert j < i;
    }
  }

  /** `.find(p).sort({ key: 1 }).limit(n)`: the `n` matching records with the
      smallest keys, smallest first. */
  function QueryAsc<T>(s: seq<T>, p: T -> bool, key: T -> int, n: nat): (r: seq<T>)
    ensures |r| <= n && SortedAsc(r, key)
    ensures forall x | x in r :: x in s && p(x)
    ensures |r| < n ==> forall x | x in s && p(x) :: x in r
    ensures forall x, y | x in s && p(x) && x !in r && y in r :: key(y) <= key(x)
    ensures multiset(r) <= multiset(s)
    ensures |r| < n ==> forall x | x in s && p(x) :: multiset(r)[x] == multiset(s)[x]
  {
    var sorted := SortAsc(Select(s, p), key);
    var r := Take(sorted, n);
    SortedPrefix(sorted, |r|, key);
    SelectedPrefix(s, p, sorted, r);
    WholeSelection(s, p, sorted);
    KeptPrefix(s, p, sorted, r, key);
    assert |r| < n ==> r == sorted;
    r
  }

  /** `.find(p).sort({ key: -1 }).limit(n)`: the `n` matching records with
      the largest keys, largest first. */
  function QueryDesc<T>(s: seq<T>, p: T -> bool, key: T -> int, n: nat): (r: seq<T>)
    ensures |r| <= n && SortedDesc(r, key)
    ensures forall x | x in r :: x in s && p(x)
    ensures |r| < n ==> forall x | x in s && p(x) :: x in r
    ensures forall x, y | x in s && p(x) && x !in r && y in r :: key(y) >= key(x)
    ensures multiset(r) <= multiset(s)
    ensures |r| < n ==> forall x | x in s && p(x) :: multiset(r)[x] == multiset(s)[x]
  {
    var neg := (x: T) => -key(x);
    var r := QueryAsc(s, p, neg, n);
    assert forall i, j | 0 <= i < j < |r| :: neg(r[i]) <= neg(r[j]);
    forall x, y | x in s && p(x) && x !in r && y in r ensures key(y) >= key(x) {
      assert neg(y) <= neg(x);
    }
    r
  }

  /** A query returns a sub-multiset of what its filter selects, and all of
      it when the limit is not reached. */
  lemma QuerySelected<T>(s: seq<T>, p: T -> bool, key: T -> int, n: nat)
    ensures multiset(QueryAsc(s, p, key, n)) <= multiset(Select(s, p))
    ensures |QueryAsc(s, p, key, n)| < n ==> multiset(QueryAsc(s, p, key, n)) == multiset(Select(s, p))
    ensures multiset(QueryDesc(s, p, key, n)) <= multiset(Select(s, p))
  {
    var r := QueryAsc(s, p, key, n);
    SelectCount(s, p);
    forall x ensures multiset(r)[x] <= multiset(Select(s, p))[x] {
      if x in r {
        assert x in s;
      }
    }
    if |r| < n {
      forall x ensures multiset(r)[x] == multiset(Select(s, p))[x] {
        if x in s {
        } else {
          assert x !in r;
          assert x !in Select(s, p);
        }
      }
    }
    var neg := (x: T) => -key(x);
    var d := QueryAsc(s, p, neg, n);
    forall x ensures multiset(d)[x] <= multiset(Select(s, p))[x] {
      if x in d {
        assert x in s;
      }
    }
  }
}
