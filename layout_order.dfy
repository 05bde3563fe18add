/**
  Phase 2 of `computeLayout` (js/er-diagram/layout.js:65-75): every layer after the first is
  sorted by the barycenter of its tables' parents in the layer above, which has already been
  sorted itself.
*/
module LayoutOrder {
  import opened LayoutGraph
  import opened LayoutLayers
  import opened StableSort

  /** `ps.filter(p => prev.includes(p))`. */
  function OnLayer(ps: seq<string>, prev: seq<string>): (r: seq<string>)
    ensures |r| <= |ps|
    ensures forall p :: p in r <==> p in ps && p in prev
    decreases |ps|
  {
    if ps == [] then []
    else (if ps[0] in prev then [ps[0]] else []) + OnLayer(ps[1..], prev)
  }

  /** `prev.indexOf(p)` for a p that is in prev: its first position. */
  function IndexOf(prev: seq<string>, p: string): (i: nat)
    requires p in prev
    ensures i < |prev| && prev[i] == p
    ensures forall j :: 0 <= j < i ==> prev[j] != p
    decreases |prev|
  {
    if prev[0] == p then 0 else 1 + IndexOf(prev[1..], p)
  }

  /** `ps.reduce((s, p) => s + prev.indexOf(p), 0)`. */
  function IndexSum(ps: seq<string>, prev: seq<string>): real
    requires forall p :: p in ps ==> p in prev
    decreases |ps|
  {
    if ps == [] then 0.0 else IndexSum(ps[..|ps| - 1], prev) + IndexOf(prev, ps[|ps| - 1]) as real
  }

  /** The key of a table: the average position of its parents in the layer above, or the
      middle of that layer when none of its parents is there. */
  function Barycenter(g: Graph, prev: seq<string>, n: string): real {
    var ps := OnLayer(ParentsOf(g, n), prev);
    if |ps| > 0 then IndexSum(ps, prev) / (|ps| as real) else (|prev| as real) / 2.0
  }

  function BaryKey(g: Graph, prev: seq<string>): string -> real {
    n => Barycenter(g, prev, n)
  }

  /** m added k times. */
  function Repeat(k: nat, m: real): real {
    if k == 0 then 0.0 else Repeat(k - 1, m) + m
  }

  lemma {:induction false} RepeatIsProduct(k: nat, m: real)
    ensures Repeat(k, m) == (k as real) * m
  {
    if k > 0 {
      RepeatIsProduct(k - 1, m);
      assert (k as real) * m == ((k - 1) as real) * m + m;
    }
  }

  /** A sum of k values in [0, m], divided by k, lies in [0, m]. */
  lemma AverageBounds(s: real, k: nat, m: real)
    requires k > 0 && 0.0 <= s <= Repeat(k, m)
    ensures 0.0 <= s / (k as real) <= m
  {
    RepeatIsProduct(k, m);
    var q := s / (k as real);
    assert q * (k as real) == s;
  }

  lemma {:induction false} IndexSumBounds(ps: seq<string>, prev: seq<string>, m: real)
    requires forall p :: p in ps ==> p in prev
    requires forall p :: p in ps ==> IndexOf(prev, p) as real <= m
    ensures 0.0 <= IndexSum(ps, prev) <= Repeat(|ps|, m)
    decreases |ps|
  {
    if ps != [] {
      assert forall p :: p in ps[..|ps| - 1] ==> p in ps;
      IndexSumBounds(ps[..|ps| - 1], prev, m);
    }
  }

  /** A barycenter lies on the layer above: between its first and its last position when
      the table has a parent there, and in the middle otherwise. */
  lemma BarycenterBounds(g: Graph, prev: seq<string>, n: string)
    ensures var ps := OnLayer(ParentsOf(g, n), prev);
            && 0.0 <= Barycenter(g, prev, n)
            && (ps != [] ==> Barycenter(g, prev, n) <= (|prev| - 1) as real)
            && (ps == [] ==> Barycenter(g, prev, n) == (|prev| as real) / 2.0)
  {
    var ps := OnLayer(ParentsOf(g, n), prev);
    if ps != [] {
      var m := (|prev| - 1) as real;
      assert forall p :: p in ps ==> p in prev && IndexOf(prev, p) as real <= m;
      IndexSumBounds(ps, prev, m);
      AverageBounds(IndexSum(ps, prev), |ps|, m);
    }
  }

  /** The layers after the iterations for li = 1 .. n - 1. */
  function Ordered(g: Graph, layers: seq<seq<string>>, n: nat): (r: seq<seq<string>>)
    requires n <= |layers|
    ensures |r| == |layers|
    ensures forall i :: (i == 0 || n <= i) && i < |layers| ==> r[i] == layers[i]
  {
    if n <= 1 then layers
    else
      var o := Ordered(g, layers, n - 1);
      o[n - 1 := SortBy(o[n - 1], BaryKey(g, o[n - 2]))]
  }

  /** The loop of layout.js:66-75. */
  method OrderLayers(g: Graph, layers: seq<seq<string>>) returns (r: seq<seq<string>>)
    ensures r == Ordered(g, layers, |layers|)
  {
    r := layers;
    var li := 1;
    while li < |layers|
      invariant 1 <= li && (li <= |layers| || |layers| == 0)
      invariant r == Ordered(g, layers, if |layers| == 0 then 0 else li)
    {
      var prevLayer := r[li - 1];
      r := r[li := SortBy(r[li], BaryKey(g, prevLayer))];
      li := li + 1;
    }
  }

  /** Each layer after the first is sorted by the barycenters over the final layer above it,
      and holds the same tables as before. */
  lemma {:induction false} OrderedLayers(g: Graph, layers: seq<seq<string>>, n: nat)
    requires n <= |layers|
    ensures var r := Ordered(g, layers, n);
            && (forall i :: 0 <= i < |layers| ==> multiset(r[i]) == multiset(layers[i]))
            && (forall i :: 1 <= i < n ==> SortedBy(r[i], BaryKey(g, r[i - 1])))
  {
    if n > 1 {
      OrderedLayers(g, layers, n - 1);
      var o := Ordered(g, layers, n - 1);
      SortByIsSorted(o[n - 1], BaryKey(g, o[n - 2]));
    }
  }

  lemma {:induction false} FlattenSameMultisets(a: seq<seq<string>>, b: seq<seq<string>>)
    requires |a| == |b| && forall i :: 0 <= i < |a| ==> multiset(a[i]) == multiset(b[i])
    ensures multiset(Flatten(a)) == multiset(Flatten(b))
    decreases |a|
  {
    if a != [] {
      FlattenSameMultisets(a[..|a| - 1], b[..|b| - 1]);
    }
  }

  /** Ordering moves no table from one layer to another. */
  lemma OrderedFlatten(g: Graph, layers: seq<seq<string>>)
    ensures multiset(Flatten(Ordered(g, layers, |layers|))) == multiset(Flatten(layers))
  {
    OrderedLayers(g, layers, |layers|);
    FlattenSameMultisets(Ordered(g, layers, |layers|), layers);
  }
}
