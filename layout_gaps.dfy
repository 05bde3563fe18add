/**
  What phase 5 of `computeLayout` (js/er-diagram/layout.js:124-133) guarantees across the
  layers: each layer ends gapped in the order it was swept in, later layers leave it so, and
  no two tables of a layer overlap.
*/
module LayoutGaps {
  import opened LayoutSizes
  import opened LayoutLayers
  import opened LayoutPlace
  import opened LayoutRefine
  import opened LayoutSeparate
  import opened StableSort

  /** Every name of s has a box, and along s each table starts at least the gap after the right
      edge of the one before. */
  ghost predicate Gapped(r: map<string, Pos>, s: seq<string>) {
    && (forall j :: 0 <= j < |s| ==> s[j] in r)
    && (forall i, j :: 0 <= i < j < |s| && j == i + 1 ==> r[s[j]].x >= r[s[i]].x + r[s[i]].w + MinGap)
  }

  lemma GappedKept(b: map<string, Pos>, c: map<string, Pos>, s: seq<string>)
    requires Gapped(b, s) && forall n :: n in s ==> n in b && n in c && c[n] == b[n]
    ensures Gapped(c, s)
  {
    forall j | 0 <= j < |s| ensures s[j] in c && c[s[j]] == b[s[j]] {
      assert s[j] in s;
    }
  }

  /** A sweep over names none of which comes twice leaves them gapped in its order. */
  lemma SweepGapped(pos: map<string, Pos>, s: seq<string>)
    requires (forall m :: m in s ==> m in pos) && Distinct(s)
    ensures Gapped(Sweep(pos, s, |s|), s)
  {
    var r := Sweep(pos, s, |s|);
    forall i, j | 0 <= i < j < |s| && j == i + 1 ensures r[s[j]].x >= r[s[i]].x + r[s[i]].w + MinGap {
      SweepGaps(pos, s, |s|, j);
    }
    forall j | 0 <= j < |s| ensures s[j] in r {
      assert s[j] in s;
    }
  }

  /** A layer with no name twice ends gapped in the order it was swept in. */
  lemma SeparateLayerGaps(pos: map<string, Pos>, lr: seq<string>)
    requires (forall m :: m in lr ==> m in pos) && NoDup(lr)
    ensures Gapped(SeparateLayer(pos, lr), SortBy(lr, XKey(pos)))
  {
    var s := SortBy(lr, XKey(pos));
    SortByMembers(lr, XKey(pos));
    assert NoDup(s) by {
      assert multiset(s) == multiset(lr);
    }
    NoDupDistinct(s);
    SweepGapped(pos, s);
  }

  /** The order layer i is swept in: by the x coordinates it has after the layers before it. */
  function SweepOrder(pos: map<string, Pos>, layers: seq<seq<string>>, i: nat): seq<string>
    requires Covers(layers, pos) && i < |layers|
  {
    var a := Separated(pos, layers, i);
    SortBy(layers[i], XKey(a))
  }

  /** Sweeping layer k - 1, after layer i, leaves the boxes of layer i as they were. */
  lemma SeparatedKeeps(pos: map<string, Pos>, layers: seq<seq<string>>, i: nat, k: nat, n: string)
    requires Covers(layers, pos) && DisjointLayers(layers) && i + 1 < k <= |layers|
    requires n in layers[i]
    ensures n in Separated(pos, layers, k - 1) && n in Separated(pos, layers, k)
    ensures Separated(pos, layers, k)[n] == Separated(pos, layers, k - 1)[n]
  {
    var b := Separated(pos, layers, k - 1);
    CoversFrame(layers, pos, b);
    assert n !in layers[k - 1];
    SeparateLayerKeepsOthers(b, layers[k - 1], n);
  }

  /** Layer i is gapped in its sweep order once it is swept. */
  lemma SeparatedGapsAt(pos: map<string, Pos>, layers: seq<seq<string>>, i: nat)
    requires Covers(layers, pos) && DisjointLayers(layers) && i < |layers|
    ensures Gapped(Separated(pos, layers, i + 1), SweepOrder(pos, layers, i))
  {
    var a := Separated(pos, layers, i);
    CoversFrame(layers, pos, a);
    SeparateLayerGaps(a, layers[i]);
  }

  /** The positions after each number of layers: entry k holds those after the first k. */
  ghost function Stages(pos: map<string, Pos>, layers: seq<seq<string>>): (ms: seq<map<string, Pos>>)
    requires Covers(layers, pos)
    ensures |ms| == |layers| + 1
    ensures forall k :: 0 <= k <= |layers| ==> ms[k] == Separated(pos, layers, k)
  {
    seq(|layers| + 1, k requires 0 <= k <= |layers| => Separated(pos, layers, k))
  }

  /** Stage j leaves the entry of n as stage j - 1 had it. */
  ghost predicate SameAt(ms: seq<map<string, Pos>>, j: int, n: string) {
    0 < j < |ms| && n in ms[j] && n in ms[j - 1] && ms[j][n] == ms[j - 1][n]
  }

  /** An entry no stage after a changes is, at every later stage, what it was at a. */
  lemma {:induction false} KeptAlong(ms: seq<map<string, Pos>>, a: nat, k: nat, n: string)
    requires a <= k < |ms| && n in ms[a]
    requires forall j :: a < j <= k ==> SameAt(ms, j, n)
    ensures n in ms[k] && ms[k][n] == ms[a][n]
    decreases k
  {
    if k > a {
      assert SameAt(ms, k, n);
      KeptAlong(ms, a, k - 1, n);
    }
  }

  /** Sweeping layer j - 1, after layer i, is a stage that keeps a box of layer i. */
  lemma StageKeeps(pos: map<string, Pos>, layers: seq<seq<string>>, i: nat, j: nat, n: string)
    requires Covers(layers, pos) && DisjointLayers(layers) && i + 1 < j <= |layers| && n in layers[i]
    ensures SameAt(Stages(pos, layers), j, n)
  {
    SeparatedKeeps(pos, layers, i, j, n);
  }

  /** The layers after layer i leave its boxes as its own sweep left them. */
  lemma LayerKept(pos: map<string, Pos>, layers: seq<seq<string>>, i: nat, n: string)
    requires Covers(layers, pos) && DisjointLayers(layers) && i < |layers| && n in layers[i]
    ensures n in Separated(pos, layers, i + 1) && n in Separated(pos, layers, |layers|)
    ensures Separated(pos, layers, |layers|)[n] == Separated(pos, layers, i + 1)[n]
  {
    var ms := Stages(pos, layers);
    forall j | i + 1 < j <= |layers| ensures SameAt(ms, j, n) {
      StageKeeps(pos, layers, i, j, n);
    }
    KeptAlong(ms, i + 1, |layers|, n);
  }

  /** After phase 5 every layer is gapped in the order it was swept in. */
  lemma SeparatedGaps(pos: map<string, Pos>, layers: seq<seq<string>>, i: nat)
    requires Covers(layers, pos) && DisjointLayers(layers) && i < |layers|
    ensures Gapped(Separated(pos, layers, |layers|), SweepOrder(pos, layers, i))
  {
    var s := SweepOrder(pos, layers, i);
    var b := Separated(pos, layers, i + 1);
    var c := Separated(pos, layers, |layers|);
    SeparatedGapsAt(pos, layers, i);
    SortByMembers(layers[i], XKey(Separated(pos, layers, i)));
    forall n | n in s ensures n in b && n in c && c[n] == b[n] {
      LayerKept(pos, layers, i, n);
    }
    GappedKept(b, c, s);
  }

  /** Every box has a width of at least zero. */
  predicate NonNegativeWidths(pos: map<string, Pos>) {
    forall n :: n in pos ==> pos[n].w >= 0.0
  }

  /** Along a gapped list, every later table is gapped from every earlier one. */
  lemma {:induction false} ChainGap(r: map<string, Pos>, s: seq<string>, a: nat, b: nat)
    requires Gapped(r, s) && NonNegativeWidths(r) && a < b < |s|
    ensures r[s[b]].x >= r[s[a]].x + r[s[a]].w + MinGap
    decreases b
  {
    assert r[s[b]].x >= r[s[b - 1]].x + r[s[b - 1]].w + MinGap;
    if a < b - 1 {
      ChainGap(r, s, a, b - 1);
      assert r[s[b - 1]].w >= 0.0;
    }
  }

  /** After phase 5, with disjoint layers and boxes of nonnegative width, no two tables of a
      layer overlap: one of them starts at least the gap after the other ends. */
  lemma SeparatedApart(pos: map<string, Pos>, layers: seq<seq<string>>, i: nat, n: string, m: string)
    requires Covers(layers, pos) && DisjointLayers(layers) && NonNegativeWidths(pos)
    requires i < |layers| && n in layers[i] && m in layers[i] && n != m
    ensures var r := Separated(pos, layers, |layers|);
            n in r && m in r
            && (r[m].x >= r[n].x + r[n].w + MinGap || r[n].x >= r[m].x + r[m].w + MinGap)
  {
    var r := Separated(pos, layers, |layers|);
    var a := Separated(pos, layers, i);
    CoversFrame(layers, pos, a);
    var s := SweepOrder(pos, layers, i);
    SortByMembers(layers[i], XKey(a));
    SeparatedGaps(pos, layers, i);
    var p :| 0 <= p < |s| && s[p] == n;
    var q :| 0 <= q < |s| && s[q] == m;
    if p < q {
      ChainGap(r, s, p, q);
    } else {
      ChainGap(r, s, q, p);
    }
  }
}
