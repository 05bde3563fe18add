/**
  Phase 4 of `computeLayout` (js/er-diagram/layout.js:100-122): four passes that pull every
  table's centre towards the mean centre of its neighbours, first top-down towards the parents
  by half the distance, then bottom-up towards the children by three tenths. Tables are moved
  one at a time, so a move sees the moves before it.
*/
module LayoutRefine {
  import opened LayoutGraph
  import opened LayoutPlace

  const Passes: nat := 4

  /** Only the x coordinates differ: the same names, and the same y, w and h for each. */
  predicate SameFrame(a: map<string, Pos>, b: map<string, Pos>) {
    a.Keys == b.Keys && forall n :: n in a ==> b[n].y == a[n].y && b[n].w == a[n].w && b[n].h == a[n].h
  }

  lemma SameFrameTrans(a: map<string, Pos>, b: map<string, Pos>, c: map<string, Pos>)
    requires SameFrame(a, b) && SameFrame(b, c)
    ensures SameFrame(a, c)
  {
  }

  /** Every name of every layer has a position. */
  predicate Covers(layers: seq<seq<string>>, pos: map<string, Pos>) {
    forall i, n :: 0 <= i < |layers| && n in layers[i] ==> n in pos
  }

  /** The top-down pass looks at parents, the bottom-up pass at children. */
  datatype Side = TowardParents | TowardChildren

  function Neighbours(g: Graph, side: Side, n: string): seq<string> {
    match side
    case TowardParents => ParentsOf(g, n)
    case TowardChildren => ChildrenOf(g, n)
  }

  function Factor(side: Side): real {
    match side
    case TowardParents => 0.5
    case TowardChildren => 0.3
  }

  /** `ns.filter(p => positions.has(p))`. */
  function Present(ns: seq<string>, pos: map<string, Pos>): (r: seq<string>)
    ensures forall n :: n in r <==> n in ns && n in pos
    decreases |ns|
  {
    if ns == [] then []
    else (if ns[0] in pos then [ns[0]] else []) + Present(ns[1..], pos)
  }

  function Center(p: Pos): real {
    p.x + p.w / 2.0
  }

  /** `ns.reduce((s, p) => s + pos.x + pos.w / 2, 0)`. */
  function CenterSum(ns: seq<string>, pos: map<string, Pos>): real
    requires forall n :: n in ns ==> n in pos
    decreases |ns|
  {
    if ns == [] then 0.0 else CenterSum(ns[..|ns| - 1], pos) + Center(pos[ns[|ns| - 1]])
  }

  /** The mean centre of the neighbours that have a position. */
  function Target(g: Graph, side: Side, pos: map<string, Pos>, n: string): real
    requires |Present(Neighbours(g, side, n), pos)| > 0
  {
    var ns := Present(Neighbours(g, side, n), pos);
    CenterSum(ns, pos) / (|ns| as real)
  }

  /** One table's move (layout.js:104-109 and 114-119): nothing when none of its neighbours
      has a position; otherwise only its x changes. */
  function Pull(g: Graph, side: Side, pos: map<string, Pos>, n: string): (r: map<string, Pos>)
    requires n in pos
    ensures SameFrame(pos, r)
    ensures forall m :: m in pos && m != n ==> r[m] == pos[m]
    ensures |Present(Neighbours(g, side, n), pos)| == 0 ==> r == pos
  {
    var ns := Present(Neighbours(g, side, n), pos);
    if |ns| == 0 then pos else pos[n := Shift(pos[n], MeanCenter(ns, pos), side)]
  }

  /** `targetCx`: the mean of the centres. */
  function MeanCenter(ns: seq<string>, pos: map<string, Pos>): real
    requires |ns| > 0 && forall n :: n in ns ==> n in pos
  {
    CenterSum(ns, pos) / (|ns| as real)
  }

  /** `pos.x += (targetCx - myCx) * factor`, with `myCx` the centre of the box. */
  function Shift(p: Pos, targetCx: real, side: Side): Pos {
    var myCx := p.x + p.w / 2.0;
    p.(x := p.x + (targetCx - myCx) * Factor(side))
  }

  /** A table with placed neighbours has its centre moved the factor's share of the way to their
      mean centre, so that what is left of the distance is the rest. */
  lemma PullTowardsTarget(g: Graph, side: Side, pos: map<string, Pos>, n: string)
    requires n in pos && |Present(Neighbours(g, side, n), pos)| > 0
    ensures var r := Pull(g, side, pos, n);
            Center(r[n]) - Target(g, side, pos, n) == (1.0 - Factor(side)) * (Center(pos[n]) - Target(g, side, pos, n))
  {
  }

  /** The moves of the first k names of a layer, one after the other. */
  function PullRow(g: Graph, side: Side, pos: map<string, Pos>, lr: seq<string>, k: nat): (r: map<string, Pos>)
    requires k <= |lr| && forall n :: n in lr ==> n in pos
    ensures SameFrame(pos, r)
  {
    if k == 0 then pos
    else
      var a := PullRow(g, side, pos, lr, k - 1);
      Pull(g, side, a, lr[k - 1])
  }

  /** The top-down loop (layout.js:102-111) after the layers 1 .. k - 1. */
  function Forward(g: Graph, layers: seq<seq<string>>, pos: map<string, Pos>, k: nat): (r: map<string, Pos>)
    requires k <= |layers| && Covers(layers, pos)
    ensures SameFrame(pos, r)
  {
    if k <= 1 then pos
    else
      var a := Forward(g, layers, pos, k - 1);
      PullRow(g, TowardParents, a, layers[k - 1], |layers[k - 1]|)
  }

  /** The bottom-up loop (layout.js:112-121) after the layers |layers| - 2 down to k. */
  function Backward(g: Graph, layers: seq<seq<string>>, pos: map<string, Pos>, k: nat): (r: map<string, Pos>)
    requires Covers(layers, pos)
    ensures SameFrame(pos, r)
    decreases |layers| - k
  {
    if k + 1 >= |layers| then pos
    else
      var a := Backward(g, layers, pos, k + 1);
      PullRow(g, TowardChildren, a, layers[k], |layers[k]|)
  }

  /** One pass: top-down, then bottom-up. */
  function RefinePass(g: Graph, layers: seq<seq<string>>, pos: map<string, Pos>): (r: map<string, Pos>)
    requires Covers(layers, pos)
    ensures SameFrame(pos, r)
  {
    var f := Forward(g, layers, pos, |layers|);
    Backward(g, layers, f, 0)
  }

  /** The positions after the first n passes. Only x coordinates change. */
  function Refined(g: Graph, layers: seq<seq<string>>, pos: map<string, Pos>, n: nat): (r: map<string, Pos>)
    requires Covers(layers, pos)
    ensures SameFrame(pos, r)
  {
    if n == 0 then pos
    else
      var a := Refined(g, layers, pos, n - 1);
      RefinePass(g, layers, a)
  }

  lemma CoversFrame(layers: seq<seq<string>>, a: map<string, Pos>, b: map<string, Pos>)
    requires Covers(layers, a) && SameFrame(a, b)
    ensures Covers(layers, b)
  {
  }

  /** One table's move, with the `continue` of a table without placed neighbours. */
  method PullTable(g: Graph, side: Side, pos: map<string, Pos>, name: string) returns (r: map<string, Pos>)
    requires name in pos
    ensures r == Pull(g, side, pos, name)
  {
    var p := pos[name];
    var mine := Present(Neighbours(g, side, name), pos);
    if |mine| == 0 {
      return pos;
    }
    var targetCx := MeanCenter(mine, pos);
    r := pos[name := Shift(p, targetCx, side)];
  }

  /** The loop over one layer (layout.js:103-110 and 113-120). */
  method PullLayer(g: Graph, side: Side, pos: map<string, Pos>, lr: seq<string>) returns (r: map<string, Pos>)
    requires forall n :: n in lr ==> n in pos
    ensures r == PullRow(g, side, pos, lr, |lr|)
  {
    r := pos;
    for j := 0 to |lr|
      invariant r == PullRow(g, side, pos, lr, j)
    {
      assert SameFrame(pos, r);
      r := PullTable(g, side, r, lr[j]);
    }
  }

  /** The top-down loop of layout.js:102-111. */
  method ForwardPass(g: Graph, layers: seq<seq<string>>, pos: map<string, Pos>) returns (r: map<string, Pos>)
    requires Covers(layers, pos)
    ensures r == Forward(g, layers, pos, |layers|)
  {
    r := pos;
    var li := 1;
    while li < |layers|
      invariant 1 <= li
      invariant r == Forward(g, layers, pos, if li <= |layers| then li else |layers|)
    {
      CoversFrame(layers, pos, r);
      r := PullLayer(g, TowardParents, r, layers[li]);
      li := li + 1;
    }
  }

  /** The bottom-up loop of layout.js:112-121. */
  method BackwardPass(g: Graph, layers: seq<seq<string>>, pos: map<string, Pos>) returns (r: map<string, Pos>)
    requires Covers(layers, pos)
    ensures r == Backward(g, layers, pos, 0)
  {
    r := pos;
    var li := |layers| - 2;
    while li >= 0
      invariant -2 <= li < |layers|
      invariant r == Backward(g, layers, pos, if li + 1 < 0 then 0 else li + 1)
    {
      CoversFrame(layers, pos, r);
      r := PullLayer(g, TowardChildren, r, layers[li]);
      li := li - 1;
    }
  }

  /** Phase 4 (layout.js:101-122). */
  method RefineLayout(g: Graph, layers: seq<seq<string>>, pos: map<string, Pos>) returns (r: map<string, Pos>)
    requires Covers(layers, pos)
    ensures r == Refined(g, layers, pos, Passes)
  {
    r := pos;
    for pass := 0 to Passes
      invariant r == Refined(g, layers, pos, pass)
    {
      CoversFrame(layers, pos, r);
      ghost var start := r;
      r := ForwardPass(g, layers, r);
      CoversFrame(layers, start, r);
      r := BackwardPass(g, layers, r);
    }
  }
}
