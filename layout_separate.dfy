/**
  Phase 5 of `computeLayout` (js/er-diagram/layout.js:124-133): in every layer, taken left to
  right by x, a table that starts less than 50 after the right edge of the one before it is
  pushed right to exactly that distance.
*/
module LayoutSeparate {
  import opened LayoutSizes
  import opened LayoutLayers
  import opened LayoutPlace
  import opened LayoutRefine
  import opened StableSort

  const MinGap: real := 50.0

  /** The sort key `a.pos.x`. */
  function XKey(pos: map<string, Pos>): string -> real {
    n => if n in pos then pos[n].x else 0.0
  }

  /** One iteration: curr is pushed to at least the gap after the right edge of prev. */
  function Push(pos: map<string, Pos>, prev: string, curr: string): (r: map<string, Pos>)
    requires prev in pos && curr in pos
    ensures SameFrame(pos, r)
    ensures forall m :: m in pos && m != curr ==> r[m] == pos[m]
    ensures r[curr].x == Max(pos[curr].x, pos[prev].x + pos[prev].w + MinGap)
  {
    var p := pos[prev];
    var c := pos[curr];
    var minX := p.x + p.w + MinGap;
    if c.x < minX then pos[curr := c.(x := minX)] else pos
  }

  /** The sweep over the sorted names s after the iterations i = 1 .. k - 1. */
  function Sweep(pos: map<string, Pos>, s: seq<string>, k: nat): (r: map<string, Pos>)
    requires k <= |s| && forall n :: n in s ==> n in pos
    ensures r.Keys == pos.Keys
  {
    if k <= 1 then pos
    else
      var a := Sweep(pos, s, k - 1);
      Push(a, s[k - 2], s[k - 1])
  }

  /** A sweep changes only x coordinates. */
  lemma {:induction false} SweepFrame(pos: map<string, Pos>, s: seq<string>, k: nat)
    requires k <= |s| && forall n :: n in s ==> n in pos
    ensures SameFrame(pos, Sweep(pos, s, k))
  {
    if k > 1 {
      SweepFrame(pos, s, k - 1);
      SameFrameTrans(pos, Sweep(pos, s, k - 1), Sweep(pos, s, k));
    }
  }

  /** One layer: sorted by the x coordinates it has now, then swept. */
  function SeparateLayer(pos: map<string, Pos>, lr: seq<string>): (r: map<string, Pos>)
    requires forall n :: n in lr ==> n in pos
    ensures SameFrame(pos, r)
  {
    var s := SortBy(lr, XKey(pos));
    SortByMembers(lr, XKey(pos));
    SweepFrame(pos, s, |s|);
    Sweep(pos, s, |s|)
  }

  /** The positions after the first k layers. */
  function Separated(pos: map<string, Pos>, layers: seq<seq<string>>, k: nat): (r: map<string, Pos>)
    requires k <= |layers| && Covers(layers, pos)
    ensures SameFrame(pos, r)
  {
    if k == 0 then pos
    else
      var a := Separated(pos, layers, k - 1);
      CoversFrame(layers, pos, a);
      SeparateLayer(a, layers[k - 1])
  }

  /** The body of the loop of layout.js:127-132. */
  method PushRight(pos: map<string, Pos>, prevName: string, currName: string) returns (r: map<string, Pos>)
    requires prevName in pos && currName in pos
    ensures r == Push(pos, prevName, currName)
  {
    r := pos;
    var prev := r[prevName];
    var curr := r[currName];
    var minX := prev.x + prev.w + MinGap;
    if curr.x < minX {
      r := r[currName := curr.(x := minX)];
    }
  }

  /** The loop of layout.js:127-132 over the sorted names. */
  method SweepRow(pos: map<string, Pos>, sorted: seq<string>) returns (r: map<string, Pos>)
    requires forall n :: n in sorted ==> n in pos
    ensures r == Sweep(pos, sorted, |sorted|)
  {
    r := pos;
    var i := 1;
    while i < |sorted|
      invariant 1 <= i && (i <= |sorted| || |sorted| == 0)
      invariant r == Sweep(pos, sorted, if |sorted| == 0 then 0 else i)
    {
      r := PushRight(r, sorted[i - 1], sorted[i]);
      i := i + 1;
    }
  }

  /** One layer of layout.js:125-133. */
  method SeparateRow(pos: map<string, Pos>, lr: seq<string>) returns (r: map<string, Pos>)
    requires forall n :: n in lr ==> n in pos
    ensures r == SeparateLayer(pos, lr)
  {
    var sorted := SortBy(lr, XKey(pos));
    SortByMembers(lr, XKey(pos));
    r := SweepRow(pos, sorted);
  }

  /** Phase 5 (layout.js:125-133). */
  method SeparateLayers(pos: map<string, Pos>, layers: seq<seq<string>>) returns (r: map<string, Pos>)
    requires Covers(layers, pos)
    ensures r == Separated(pos, layers, |layers|)
  {
    r := pos;
    for k := 0 to |layers|
      invariant r == Separated(pos, layers, k)
    {
      CoversFrame(layers, pos, r);
      r := SeparateRow(r, layers[k]);
    }
  }

  /** Tables are only ever pushed right. */
  lemma {:induction false} SweepPushesRight(pos: map<string, Pos>, s: seq<string>, k: nat, n: string)
    requires k <= |s| && (forall m :: m in s ==> m in pos) && n in pos
    ensures Sweep(pos, s, k)[n].x >= pos[n].x
  {
    if k > 1 {
      SweepPushesRight(pos, s, k - 1, n);
    }
  }

  /** A sweep changes only the names it goes over. */
  lemma {:induction false} SweepKeepsOthers(pos: map<string, Pos>, s: seq<string>, k: nat, n: string)
    requires k <= |s| && (forall m :: m in s ==> m in pos) && n in pos && n !in s
    ensures Sweep(pos, s, k)[n] == pos[n]
  {
    if k > 1 {
      SweepKeepsOthers(pos, s, k - 1, n);
    }
  }

  /** A sweep leaves the names from position k on as they were. */
  lemma {:induction false} SweepKeepsRest(pos: map<string, Pos>, s: seq<string>, k: nat, j: nat)
    requires k <= j < |s| && (forall m :: m in s ==> m in pos) && NoDup(s)
    ensures Sweep(pos, s, k)[s[j]] == pos[s[j]]
  {
    if k > 1 {
      NoDupIndexes(s, k - 1, j);
      SweepKeepsRest(pos, s, k - 1, j);
    }
  }

  lemma NoDupIndexes(s: seq<string>, i: nat, j: nat)
    requires NoDup(s) && i < j < |s|
    ensures s[i] != s[j]
  {
    assert s == s[..i] + [s[i]] + s[i + 1..j] + [s[j]] + s[j + 1..];
    assert multiset(s) == multiset(s[..i]) + multiset{s[i]} + multiset(s[i + 1..j]) + multiset{s[j]} + multiset(s[j + 1..]);
    assert multiset(s)[s[i]] <= 1;
  }

  /** No two positions of s hold the same name. */
  predicate Distinct(s: seq<string>) {
    forall a, b :: 0 <= a < b < |s| ==> s[a] != s[b]
  }

  lemma NoDupDistinct(s: seq<string>)
    requires NoDup(s)
    ensures Distinct(s)
  {
    forall a, b | 0 <= a < b < |s| ensures s[a] != s[b] {
      NoDupIndexes(s, a, b);
    }
  }

  /** With no name twice in the list, each name ends at least the gap after the right edge
      of the one before it. */
  lemma {:induction false} SweepGaps(pos: map<string, Pos>, s: seq<string>, k: nat, i: nat)
    requires k <= |s| && (forall m :: m in s ==> m in pos) && Distinct(s) && 1 <= i < k
    ensures var r := Sweep(pos, s, k);
            r[s[i]].x >= r[s[i - 1]].x + r[s[i - 1]].w + MinGap
  {
    if i == k - 1 {
      SweepGapLast(pos, s, k);
    } else {
      SweepGaps(pos, s, k - 1, i);
      PushKeepsGap(Sweep(pos, s, k - 1), s[k - 2], s[k - 1], s[i - 1], s[i]);
    }
  }

  /** Pushing a third box keeps the gap between two others. */
  lemma PushKeepsGap(a: map<string, Pos>, prev: string, curr: string, n: string, m: string)
    requires prev in a && curr in a && n in a && m in a && n != curr && m != curr
    requires a[m].x >= a[n].x + a[n].w + MinGap
    ensures var r := Push(a, prev, curr);
            r[m].x >= r[n].x + r[n].w + MinGap
  {
  }

  /** The name the last iteration pushed stands at least the gap after the one before it. */
  lemma SweepGapLast(pos: map<string, Pos>, s: seq<string>, k: nat)
    requires 2 <= k <= |s| && (forall m :: m in s ==> m in pos) && Distinct(s)
    ensures var r := Sweep(pos, s, k);
            r[s[k - 1]].x >= r[s[k - 2]].x + r[s[k - 2]].w + MinGap
  {
    var a := Sweep(pos, s, k - 1);
    assert Sweep(pos, s, k) == Push(a, s[k - 2], s[k - 1]);
  }

  /** Separating one layer leaves the tables of other layers where they were. */
  lemma SeparateLayerKeepsOthers(pos: map<string, Pos>, lr: seq<string>, n: string)
    requires (forall m :: m in lr ==> m in pos) && n in pos && n !in lr
    ensures SeparateLayer(pos, lr)[n] == pos[n]
  {
    SortByMembers(lr, XKey(pos));
    SweepKeepsOthers(pos, SortBy(lr, XKey(pos)), |lr|, n);
  }
}
