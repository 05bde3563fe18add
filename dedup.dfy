/**
  The removal of duplicate relationships at the end of `parseSQL`
  (js/er-diagram/parser.js:88-96): walking the list in order, a relationship is kept when
  its key has not been seen before. The walk is stated for any key function and any element
  type; `RelKey` is the key the source uses.
*/
module RelationshipDedup {
  import opened Text
  import opened ErSchema

  /** The lower-cased text `from.table.cols->to.table.cols` the source keys relationships by. */
  function RelKey(r: Relationship): string {
    Lower(r.from.table + "." + Join(r.from.columns, ",") + "->" + r.to.table + "." + Join(r.to.columns, ","))
  }

  /** The elements kept so far and the set of keys seen. */
  datatype DedupAcc<T, K> = DedupAcc(kept: seq<T>, seen: set<K>)

  function DedupPrefix<T, K(==)>(xs: seq<T>, key: T -> K): DedupAcc<T, K>
    decreases |xs|
  {
    if xs == [] then DedupAcc([], {})
    else
      var a := DedupPrefix(xs[..|xs| - 1], key);
      var x := xs[|xs| - 1];
      if key(x) in a.seen then a else DedupAcc(a.kept + [x], a.seen + {key(x)})
  }

  function DedupBy<T, K(==)>(xs: seq<T>, key: T -> K): seq<T> {
    DedupPrefix(xs, key).kept
  }

  function Dedup(rels: seq<Relationship>): seq<Relationship> {
    DedupBy(rels, RelKey)
  }

  /** The loop of parser.js:90-96, with `relSet` as a set of keys. */
  method DedupRelationships(rels: seq<Relationship>) returns (kept: seq<Relationship>)
    ensures kept == Dedup(rels)
  {
    var seen: set<string> := {};
    kept := [];
    for i := 0 to |rels|
      invariant DedupAcc(kept, seen) == DedupPrefix(rels[..i], RelKey)
    {
      assert rels[..i + 1][..i] == rels[..i];
      var key := RelKey(rels[i]);
      if key !in seen {
        seen := seen + {key};
        kept := kept + [rels[i]];
      }
    }
    assert rels[..|rels|] == rels;
  }

  /** The keys of a list. */
  function KeysOf<T, K>(xs: seq<T>, key: T -> K): set<K>
    decreases |xs|
  {
    if xs == [] then {} else KeysOf(xs[..|xs| - 1], key) + {key(xs[|xs| - 1])}
  }

  lemma {:induction false} KeyOfMember<T, K>(xs: seq<T>, key: T -> K, i: nat)
    requires i < |xs|
    ensures key(xs[i]) in KeysOf(xs, key)
    decreases |xs|
  {
    if i < |xs| - 1 {
      KeyOfMember(xs[..|xs| - 1], key, i);
    }
  }

  lemma {:induction false} MemberOfKey<T, K>(xs: seq<T>, key: T -> K, k: K) returns (i: nat)
    requires k in KeysOf(xs, key)
    ensures i < |xs| && key(xs[i]) == k
    decreases |xs|
  {
    if key(xs[|xs| - 1]) == k {
      i := |xs| - 1;
    } else {
      i := MemberOfKey(xs[..|xs| - 1], key, k);
    }
  }

  /** xs is taken from ys in order, with elements of ys possibly left out. */
  predicate IsSubsequence<T(==)>(xs: seq<T>, ys: seq<T>)
    decreases |ys|
  {
    if xs == [] then true
    else if ys == [] then false
    else if xs[|xs| - 1] == ys[|ys| - 1] then IsSubsequence(xs[..|xs| - 1], ys[..|ys| - 1])
    else IsSubsequence(xs, ys[..|ys| - 1])
  }

  lemma {:induction false} SubsequenceDropLast<T>(xs: seq<T>, ys: seq<T>)
    requires xs != [] && IsSubsequence(xs, ys)
    ensures IsSubsequence(xs[..|xs| - 1], ys)
    decreases |ys|, 0
  {
    var ys' := ys[..|ys| - 1];
    assert ys' + [ys[|ys| - 1]] == ys;
    if xs[|xs| - 1] != ys[|ys| - 1] {
      SubsequenceDropLast(xs, ys');
    }
    SubsequenceExtend(xs[..|xs| - 1], ys', ys[|ys| - 1]);
  }

  lemma {:induction false} SubsequenceExtend<T>(xs: seq<T>, ys: seq<T>, y: T)
    requires IsSubsequence(xs, ys)
    ensures IsSubsequence(xs, ys + [y])
    decreases |ys|, 1
  {
    assert (ys + [y])[..|ys|] == ys;
    if xs != [] && xs[|xs| - 1] == y {
      SubsequenceDropLast(xs, ys);
    }
  }

  /** The keys seen are the keys of the input, and they are the keys of what is kept. */
  lemma {:induction false} DedupKeys<T, K>(xs: seq<T>, key: T -> K)
    ensures DedupPrefix(xs, key).seen == KeysOf(xs, key) == KeysOf(DedupPrefix(xs, key).kept, key)
    decreases |xs|
  {
    if xs != [] {
      var init := xs[..|xs| - 1];
      var x := xs[|xs| - 1];
      DedupKeys(init, key);
      var a := DedupPrefix(init, key);
      if key(x) !in a.seen {
        assert (a.kept + [x])[..|a.kept|] == a.kept;
      }
    }
  }

  /** What is kept keeps its input order. */
  lemma {:induction false} DedupSubsequence<T, K>(xs: seq<T>, key: T -> K)
    ensures IsSubsequence(DedupBy(xs, key), xs)
    decreases |xs|
  {
    if xs != [] {
      var init := xs[..|xs| - 1];
      var x := xs[|xs| - 1];
      DedupSubsequence(init, key);
      var a := DedupPrefix(init, key);
      assert init + [x] == xs;
      if key(x) in a.seen {
        SubsequenceExtend(a.kept, init, x);
      } else {
        assert (a.kept + [x])[..|a.kept|] == a.kept;
      }
    }
  }

  /** No two kept elements have the same key. */
  lemma {:induction false} DedupKeysDiffer<T, K>(xs: seq<T>, key: T -> K)
    ensures var d := DedupBy(xs, key);
            forall i, j :: 0 <= i < j < |d| ==> key(d[i]) != key(d[j])
    decreases |xs|
  {
    if xs != [] {
      var init := xs[..|xs| - 1];
      var x := xs[|xs| - 1];
      DedupKeysDiffer(init, key);
      DedupKeys(init, key);
      var a := DedupPrefix(init, key);
      assert DedupBy(init, key) == a.kept;
      assert forall i, j :: 0 <= i < j < |a.kept| ==> key(a.kept[i]) != key(a.kept[j]);
      if key(x) !in a.seen {
        var d := a.kept + [x];
        assert DedupBy(xs, key) == d;
        forall i, j | 0 <= i < j < |d| ensures key(d[i]) != key(d[j]) {
          assert d[i] == a.kept[i];
          if j == |a.kept| {
            KeyOfMember(a.kept, key, i);
            assert key(d[i]) in a.seen;
          } else {
            assert d[j] == a.kept[j];
            assert key(a.kept[i]) != key(a.kept[j]);
          }
        }
      }
    }
  }

  /** An element whose key no earlier element has is kept. */
  lemma {:induction false} DedupKeepsFirstAt<T, K>(xs: seq<T>, key: T -> K, i: nat)
    requires i < |xs|
    requires forall j :: 0 <= j < i ==> key(xs[j]) != key(xs[i])
    ensures xs[i] in DedupBy(xs, key)
    decreases |xs|
  {
    var init := xs[..|xs| - 1];
    var x := xs[|xs| - 1];
    DedupKeys(init, key);
    var a := DedupPrefix(init, key);
    if i < |init| {
      assert init[i] == xs[i];
      DedupKeepsFirstAt(init, key, i);
    } else if key(x) in a.seen {
      var j := MemberOfKey(init, key, key(x));
      assert false;
    }
  }

  /** The first element with each key is kept. */
  lemma DedupKeepsFirst<T, K>(xs: seq<T>, key: T -> K)
    ensures forall i :: 0 <= i < |xs| && (forall j :: 0 <= j < i ==> key(xs[j]) != key(xs[i])) ==>
              xs[i] in DedupBy(xs, key)
  {
    forall i | 0 <= i < |xs| && (forall j :: 0 <= j < i ==> key(xs[j]) != key(xs[i]))
      ensures xs[i] in DedupBy(xs, key)
    {
      DedupKeepsFirstAt(xs, key, i);
    }
  }

  /** A list whose keys already differ comes back unchanged. */
  lemma {:induction false} DedupDistinct<T, K>(xs: seq<T>, key: T -> K)
    requires forall i, j :: 0 <= i < j < |xs| ==> key(xs[i]) != key(xs[j])
    ensures DedupPrefix(xs, key) == DedupAcc(xs, KeysOf(xs, key))
    decreases |xs|
  {
    if xs != [] {
      var init := xs[..|xs| - 1];
      var x := xs[|xs| - 1];
      forall i, j | 0 <= i < j < |init| ensures key(init[i]) != key(init[j]) {
        assert init[i] == xs[i] && init[j] == xs[j];
      }
      DedupDistinct(init, key);
      if key(x) in KeysOf(init, key) {
        var j := MemberOfKey(init, key, key(x));
        assert false;
      }
      assert init + [x] == xs;
    }
  }

  /** Removing duplicates twice removes nothing more. */
  lemma DedupIdempotent(rels: seq<Relationship>)
    ensures Dedup(Dedup(rels)) == Dedup(rels)
  {
    DedupKeysDiffer(rels, RelKey);
    DedupDistinct(Dedup(rels), RelKey);
  }

  /** The relationships parseSQL returns: in input order, one per key, with pairwise
      different keys, the first relationship with each key among them, and every key of
      the input present. */
  lemma DedupRelationshipsSpec(rels: seq<Relationship>)
    ensures IsSubsequence(Dedup(rels), rels)
    ensures forall i, j :: 0 <= i < j < |Dedup(rels)| ==> RelKey(Dedup(rels)[i]) != RelKey(Dedup(rels)[j])
    ensures forall i :: 0 <= i < |rels| && (forall j :: 0 <= j < i ==> RelKey(rels[j]) != RelKey(rels[i])) ==>
              rels[i] in Dedup(rels)
    ensures KeysOf(Dedup(rels), RelKey) == KeysOf(rels, RelKey)
  {
    DedupSubsequence(rels, RelKey);
    DedupKeysDiffer(rels, RelKey);
    DedupKeepsFirst(rels, RelKey);
    DedupKeys(rels, RelKey);
  }
}
