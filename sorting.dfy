/**
  `Array.prototype.sort` with a comparator of the form `(a, b) => key(a) - key(b)`, as the
  layout calls it (js/er-diagram/layout.js:42, 47, 68-74, 126). The sort is stable and the
  comparator is consistent, so the result is determined: the elements in ascending key order,
  equal keys in their original order. It is written as an insertion sort from the back.
*/
module StableSort {
  /** x placed before the first element whose key is not smaller than its own. */
  function Insert<T>(x: T, s: seq<T>, key: T -> real): (r: seq<T>)
    ensures |r| == |s| + 1
    ensures multiset(r) == multiset(s) + multiset{x}
    decreases |s|
  {
    if s == [] || key(x) <= key(s[0]) then [x] + s
    else
      assert s == [s[0]] + s[1..];
      [s[0]] + Insert(x, s[1..], key)
  }

  function SortBy<T>(xs: seq<T>, key: T -> real): (r: seq<T>)
    ensures |r| == |xs|
    ensures multiset(r) == multiset(xs)
    decreases |xs|
  {
    if xs == [] then []
    else
      assert xs == [xs[0]] + xs[1..];
      Insert(xs[0], SortBy(xs[1..], key), key)
  }

  predicate SortedBy<T>(s: seq<T>, key: T -> real) {
    forall i, j :: 0 <= i < j < |s| ==> key(s[i]) <= key(s[j])
  }

  lemma {:induction false} InsertSorted<T>(x: T, s: seq<T>, key: T -> real)
    requires SortedBy(s, key)
    ensures SortedBy(Insert(x, s, key), key)
    decreases |s|
  {
    if s != [] && key(x) > key(s[0]) {
      InsertSorted(x, s[1..], key);
      var r := Insert(x, s, key);
      var t := Insert(x, s[1..], key);
      assert r == [s[0]] + t;
      forall k | 0 <= k < |t| ensures key(s[0]) <= key(t[k]) {
        assert t[k] in multiset(t);
        assert t[k] in multiset(s[1..]) + multiset{x};
        if t[k] != x {
          assert t[k] in s[1..];
        }
      }
    }
  }

  /** The sort puts the keys in ascending order. */
  lemma {:induction false} SortByIsSorted<T>(xs: seq<T>, key: T -> real)
    ensures SortedBy(SortBy(xs, key), key)
    decreases |xs|
  {
    if xs != [] {
      SortByIsSorted(xs[1..], key);
      InsertSorted(xs[0], SortBy(xs[1..], key), key);
    }
  }

  /** The first position of a smallest key. */
  function FirstMin<T>(xs: seq<T>, key: T -> real): (i: nat)
    requires |xs| > 0
    ensures i < |xs|
    ensures forall k :: 0 <= k < |xs| ==> key(xs[i]) <= key(xs[k])
    ensures forall k :: 0 <= k < i ==> key(xs[k]) > key(xs[i])
    decreases |xs|
  {
    if |xs| == 1 then 0
    else
      var j := 1 + FirstMin(xs[1..], key);
      if key(xs[0]) <= key(xs[j]) then 0 else j
  }

  lemma {:induction false} InsertHead<T>(x: T, s: seq<T>, key: T -> real)
    ensures Insert(x, s, key)[0] == if s == [] || key(x) <= key(s[0]) then x else s[0]
  {
  }

  /** The head of the sorted list is the earliest element with the smallest key. */
  lemma {:induction false} SortByHead<T>(xs: seq<T>, key: T -> real)
    requires |xs| > 0
    ensures SortBy(xs, key)[0] == xs[FirstMin(xs, key)]
    decreases |xs|
  {
    if |xs| > 1 {
      SortByHead(xs[1..], key);
      InsertHead(xs[0], SortBy(xs[1..], key), key);
    }
  }

  lemma SortByMembers<T>(xs: seq<T>, key: T -> real)
    ensures forall x :: x in SortBy(xs, key) <==> x in xs
  {
    forall x ensures x in SortBy(xs, key) <==> x in xs {
      assert x in SortBy(xs, key) <==> x in multiset(SortBy(xs, key));
      assert x in xs <==> x in multiset(xs);
    }
  }
}
