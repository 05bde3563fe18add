/**
  Phase 3 of `computeLayout` (js/er-diagram/layout.js:77-98): every layer becomes a row,
  centred on the widest row, the rows 90 apart below one another, each table's box at the
  rounded position of the row it is in.
*/
module LayoutPlace {
  import opened LayoutSizes
  import opened LayoutLayers

  const PaddingX: real := 80.0
  const PaddingY: real := 70.0
  const GapX: real := 120.0
  const GapY: real := 90.0
  const DefaultWidth: real := 250.0
  const DefaultHeight: real := 200.0

  /** The `{ x, y, w, h }` records of the `positions` map. */
  datatype Pos = Pos(x: real, y: real, w: real, h: real)

  /** `Math.round`: the integer nearest to r, halves going up. */
  function Round(r: real): (v: real)
    ensures r - 0.5 < v <= r + 0.5
    ensures v == v.Floor as real
  {
    (r + 0.5).Floor as real
  }

  lemma IntBelow(i: int, j: int)
    requires (i as real) < (j as real) + 1.0
    ensures i <= j
  {
  }

  lemma RoundMonotone(a: real, b: real)
    requires a <= b
    ensures Round(a) <= Round(b)
  {
    IntBelow((a + 0.5).Floor, (b + 0.5).Floor);
  }

  /** Moving by a whole number moves the rounded value by the same amount. */
  lemma RoundShift(a: real, k: int)
    ensures Round(a + k as real) == Round(a) + k as real
  {
    var f := (a + 0.5).Floor;
    var g := (a + k as real + 0.5).Floor;
    assert (f + k) as real <= a + k as real + 0.5;
    assert a + k as real + 0.5 < (f + k) as real + 1.0;
    assert g as real <= a + k as real + 0.5 < g as real + 1.0;
    IntBelow(g, f + k);
    IntBelow(f + k, g);
  }

  /** `dims.get(name)?.w || 250`: a missing or zero width counts as 250. */
  function WidthOr(dims: map<string, Dim>, n: string): real {
    if n in dims && dims[n].w != 0.0 then dims[n].w else DefaultWidth
  }

  /** `w` after the names of lr: every width plus the gap. */
  function RowSpan(dims: map<string, Dim>, lr: seq<string>): real
    decreases |lr|
  {
    if lr == [] then 0.0 else RowSpan(dims, lr[..|lr| - 1]) + WidthOr(dims, lr[|lr| - 1]) + GapX
  }

  /** The width of a row: its boxes with the gaps between them. */
  function LayerWidth(dims: map<string, Dim>, lr: seq<string>): real {
    RowSpan(dims, lr) - GapX
  }

  /** The loop of layout.js:79-81. */
  method ComputeLayerWidth(dims: map<string, Dim>, lr: seq<string>) returns (lw: real)
    ensures lw == LayerWidth(dims, lr)
  {
    var w := 0.0;
    for j := 0 to |lr|
      invariant w == RowSpan(dims, lr[..j])
    {
      assert lr[..j + 1][..j] == lr[..j];
      w := w + WidthOr(dims, lr[j]) + GapX;
    }
    assert lr[..|lr|] == lr;
    lw := w - GapX;
  }

  lemma {:induction false} RowSpanAppend(dims: map<string, Dim>, a: seq<string>, b: seq<string>)
    ensures RowSpan(dims, a + b) == RowSpan(dims, a) + RowSpan(dims, b)
    decreases |b|
  {
    if b == [] {
      assert a + b == a;
    } else {
      assert (a + b)[..|a + b| - 1] == a + b[..|b| - 1];
      RowSpanAppend(dims, a, b[..|b| - 1]);
    }
  }

  lemma RemoveAt(b: seq<string>, k: nat)
    requires k < |b|
    ensures multiset(b) == multiset(b[..k] + b[k + 1..]) + multiset{b[k]}
  {
    assert b == b[..k] + [b[k]] + b[k + 1..];
  }

  /** Taking one name out of a row shortens its span by that name's box and gap. */
  lemma RowSpanRemove(dims: map<string, Dim>, b: seq<string>, k: nat)
    requires k < |b|
    ensures RowSpan(dims, b) == RowSpan(dims, b[..k] + b[k + 1..]) + WidthOr(dims, b[k]) + GapX
  {
    var x := b[k];
    assert b == (b[..k] + [x]) + b[k + 1..];
    RowSpanAppend(dims, b[..k] + [x], b[k + 1..]);
    RowSpanAppend(dims, b[..k], [x]);
    RowSpanAppend(dims, b[..k], b[k + 1..]);
    assert RowSpan(dims, [x]) == WidthOr(dims, x) + GapX by {
      assert [x][..0] == [];
    }
  }

  lemma MultisetCancel(p: multiset<string>, q: multiset<string>, x: string)
    requires p + multiset{x} == q + multiset{x}
    ensures p == q
  {
    forall y ensures p[y] == q[y] {
      assert (p + multiset{x})[y] == p[y] + multiset{x}[y];
      assert (q + multiset{x})[y] == q[y] + multiset{x}[y];
    }
  }

  lemma {:induction false} RowSpanPermutation(dims: map<string, Dim>, a: seq<string>, b: seq<string>)
    requires multiset(a) == multiset(b)
    ensures RowSpan(dims, a) == RowSpan(dims, b)
    decreases |a|
  {
    if a == [] {
      assert |b| == |multiset(b)| == 0;
    } else {
      var x := a[|a| - 1];
      var init := a[..|a| - 1];
      assert a == init + [x];
      assert x in multiset(b);
      var k :| 0 <= k < |b| && b[k] == x;
      RemoveAt(b, k);
      assert multiset(a) == multiset(init) + multiset{x};
      MultisetCancel(multiset(init), multiset(b[..k] + b[k + 1..]), x);
      RowSpanPermutation(dims, init, b[..k] + b[k + 1..]);
      RowSpanRemove(dims, b, k);
    }
  }

  /** The width of a row does not depend on the order of its tables. */
  lemma LayerWidthPermutation(dims: map<string, Dim>, a: seq<string>, b: seq<string>)
    requires multiset(a) == multiset(b)
    ensures LayerWidth(dims, a) == LayerWidth(dims, b)
  {
    RowSpanPermutation(dims, a, b);
  }

  /** `layers.map(...)`: the width of every row. */
  function LayerWidths(dims: map<string, Dim>, layers: seq<seq<string>>): (ws: seq<real>)
    ensures |ws| == |layers|
    ensures forall i :: 0 <= i < |layers| ==> ws[i] == LayerWidth(dims, layers[i])
  {
    seq(|layers|, i requires 0 <= i < |layers| => LayerWidth(dims, layers[i]))
  }

  method ComputeLayerWidths(dims: map<string, Dim>, layers: seq<seq<string>>) returns (ws: seq<real>)
    ensures ws == LayerWidths(dims, layers)
  {
    ws := [];
    for i := 0 to |layers|
      invariant ws == LayerWidths(dims, layers[..i])
    {
      var lw := ComputeLayerWidth(dims, layers[i]);
      ws := ws + [lw];
    }
    assert layers[..|layers|] == layers;
  }

  /** `Math.max(...ws)` over a nonempty list. */
  function MaxOf(ws: seq<real>): (m: real)
    requires |ws| > 0
    ensures forall i :: 0 <= i < |ws| ==> ws[i] <= m
    ensures exists i :: 0 <= i < |ws| && m == ws[i]
    decreases |ws|
  {
    if |ws| == 1 then ws[0]
    else
      var m := MaxOf(ws[..|ws| - 1]);
      assert forall i :: 0 <= i < |ws| - 1 ==> ws[..|ws| - 1][i] == ws[i];
      Max(m, ws[|ws| - 1])
  }

  /** `dims.get(name) || { w: 250, h: 200 }`. */
  function DimOr(dims: map<string, Dim>, n: string): Dim {
    if n in dims then dims[n] else Dim(DefaultWidth, DefaultHeight)
  }

  /** The map, `x` and `maxH` inside the loop over one row. */
  datatype RowAcc = RowAcc(pos: map<string, Pos>, x: real, maxH: real)

  /** The row loop of layout.js:91-96 after the first k names, from x0 at height y. */
  function PlaceRow(dims: map<string, Dim>, pos: map<string, Pos>, lr: seq<string>, x0: real, y: real, k: nat): RowAcc
    requires k <= |lr|
  {
    if k == 0 then RowAcc(pos, x0, 0.0)
    else
      var a := PlaceRow(dims, pos, lr, x0, y, k - 1);
      var n := lr[k - 1];
      var d := DimOr(dims, n);
      RowAcc(a.pos[n := Pos(Round(a.x), Round(y), d.w, d.h)], a.x + d.w + GapX, Max(a.maxH, d.h))
  }

  /** The map and `y` inside the loop over the layers. */
  datatype PlaceAcc = PlaceAcc(pos: map<string, Pos>, y: real)

  /** Where the row of a layer starts: centred on the widest row. */
  function RowStart(maxW: real, lw: real): real {
    PaddingX + (maxW - lw) / 2.0
  }

  /** The loop of layout.js:86-98 after the first k layers. */
  function PlaceLayers(dims: map<string, Dim>, layers: seq<seq<string>>, ws: seq<real>, maxW: real, k: nat): PlaceAcc
    requires |ws| == |layers| && k <= |layers|
  {
    if k == 0 then PlaceAcc(map[], PaddingY)
    else NextLayer(dims, PlaceLayers(dims, layers, ws, maxW, k - 1), layers[k - 1], RowStart(maxW, ws[k - 1]))
  }

  /** One iteration of the loop over the layers: the row placed from x0, then `y` moved past it. */
  function NextLayer(dims: map<string, Dim>, a: PlaceAcc, lr: seq<string>, x0: real): PlaceAcc {
    var row := PlaceRow(dims, a.pos, lr, x0, a.y, |lr|);
    PlaceAcc(row.pos, a.y + row.maxH + GapY)
  }

  /** The positions after phase 3. */
  function Placed(dims: map<string, Dim>, layers: seq<seq<string>>): map<string, Pos>
    requires |layers| > 0
  {
    var ws := LayerWidths(dims, layers);
    PlaceLayers(dims, layers, ws, MaxOf(ws), |layers|).pos
  }

  method FillRow(dims: map<string, Dim>, pos: map<string, Pos>, lr: seq<string>, x0: real, y: real)
    returns (pos': map<string, Pos>, maxH: real)
    ensures pos' == PlaceRow(dims, pos, lr, x0, y, |lr|).pos
    ensures maxH == PlaceRow(dims, pos, lr, x0, y, |lr|).maxH
  {
    pos' := pos;
    var x := x0;
    maxH := 0.0;
    for j := 0 to |lr|
      invariant RowAcc(pos', x, maxH) == PlaceRow(dims, pos, lr, x0, y, j)
    {
      var name := lr[j];
      var dim := DimOr(dims, name);
      pos' := pos'[name := Pos(Round(x), Round(y), dim.w, dim.h)];
      x := x + dim.w + GapX;
      maxH := Max(maxH, dim.h);
    }
  }

  /** Phase 3 (layout.js:78-98). */
  method PlaceTables(dims: map<string, Dim>, layers: seq<seq<string>>) returns (positions: map<string, Pos>)
    requires |layers| > 0
    ensures positions == Placed(dims, layers)
  {
    var ws := ComputeLayerWidths(dims, layers);
    var maxW := MaxOf(ws);
    var acc := PlaceAcc(map[], PaddingY);
    for li := 0 to |layers|
      invariant acc == PlaceLayers(dims, layers, ws, maxW, li)
    {
      PlaceLayersNext(dims, layers, ws, maxW, li);
      acc := PlaceLayer(dims, acc, layers[li], RowStart(maxW, ws[li]));
    }
    positions := acc.pos;
  }

  lemma PlaceLayersNext(dims: map<string, Dim>, layers: seq<seq<string>>, ws: seq<real>, maxW: real, k: nat)
    requires |ws| == |layers| && k < |layers|
    ensures PlaceLayers(dims, layers, ws, maxW, k + 1)
            == NextLayer(dims, PlaceLayers(dims, layers, ws, maxW, k), layers[k], RowStart(maxW, ws[k]))
  {
  }

  /** The body of the loop over the layers (layout.js:87-97). */
  method PlaceLayer(dims: map<string, Dim>, acc: PlaceAcc, lr: seq<string>, x: real) returns (acc': PlaceAcc)
    ensures acc' == NextLayer(dims, acc, lr, x)
  {
    var positions, maxH := FillRow(dims, acc.pos, lr, x, acc.y);
    acc' := PlaceAcc(positions, acc.y + maxH + GapY);
  }

  /** A whole number. */
  predicate Integral(r: real) {
    r == r.Floor as real
  }

  /** A row holds the names it had and the names of the row. */
  lemma {:induction false} RowKeys(dims: map<string, Dim>, pos: map<string, Pos>, lr: seq<string>, x0: real, y: real, k: nat)
    requires k <= |lr|
    ensures forall n :: n in PlaceRow(dims, pos, lr, x0, y, k).pos <==> n in pos || n in lr[..k]
  {
    if k > 0 {
      RowKeys(dims, pos, lr, x0, y, k - 1);
      assert lr[..k] == lr[..k - 1] + [lr[k - 1]];
    }
  }

  /** Every name of the row is at height y with the size of its box. */
  lemma {:induction false} RowEntries(dims: map<string, Dim>, pos: map<string, Pos>, lr: seq<string>, x0: real, y: real, k: nat, n: string)
    requires k <= |lr| && n in lr[..k]
    ensures var r := PlaceRow(dims, pos, lr, x0, y, k).pos;
            n in r && r[n].y == Round(y) && r[n].w == DimOr(dims, n).w && r[n].h == DimOr(dims, n).h
  {
    if n != lr[k - 1] {
      assert lr[..k] == lr[..k - 1] + [lr[k - 1]];
      RowEntries(dims, pos, lr, x0, y, k - 1, n);
    }
  }

  /** The entries of names not in the row stay as they were. */
  lemma {:induction false} RowKeepsOthers(dims: map<string, Dim>, pos: map<string, Pos>, lr: seq<string>, x0: real, y: real, k: nat, n: string)
    requires k <= |lr| && n in pos && n !in lr[..k]
    ensures n in PlaceRow(dims, pos, lr, x0, y, k).pos && PlaceRow(dims, pos, lr, x0, y, k).pos[n] == pos[n]
  {
    if k > 0 {
      assert lr[..k] == lr[..k - 1] + [lr[k - 1]];
      RowKeepsOthers(dims, pos, lr, x0, y, k - 1, n);
    }
  }

  /** `maxH` is the tallest box of the row. */
  lemma {:induction false} RowMaxH(dims: map<string, Dim>, pos: map<string, Pos>, lr: seq<string>, x0: real, y: real, k: nat)
    requires k <= |lr|
    ensures var r := PlaceRow(dims, pos, lr, x0, y, k);
            r.maxH >= 0.0 && forall n :: n in lr[..k] ==> r.maxH >= DimOr(dims, n).h
  {
    if k > 0 {
      RowMaxH(dims, pos, lr, x0, y, k - 1);
      assert lr[..k] == lr[..k - 1] + [lr[k - 1]];
    }
  }

  /** After k layers the map holds exactly their names, each with the size of its box and at a
      whole-number height. */
  lemma {:induction false} LayersFacts(dims: map<string, Dim>, layers: seq<seq<string>>, ws: seq<real>, maxW: real, k: nat)
    requires |ws| == |layers| && k <= |layers|
    ensures var a := PlaceLayers(dims, layers, ws, maxW, k);
            && (forall n :: n in a.pos <==> n in Flatten(layers[..k]))
            && (forall n :: n in a.pos ==> a.pos[n].w == DimOr(dims, n).w && a.pos[n].h == DimOr(dims, n).h)
            && (forall n :: n in a.pos ==> Integral(a.pos[n].y))
  {
    if k > 0 {
      LayersFacts(dims, layers, ws, maxW, k - 1);
      var a := PlaceLayers(dims, layers, ws, maxW, k - 1);
      var lr := layers[k - 1];
      assert lr[..|lr|] == lr;
      RowKeys(dims, a.pos, lr, RowStart(maxW, ws[k - 1]), a.y, |lr|);
      var r := PlaceRow(dims, a.pos, lr, RowStart(maxW, ws[k - 1]), a.y, |lr|).pos;
      forall n | n in r ensures r[n].w == DimOr(dims, n).w && r[n].h == DimOr(dims, n).h && Integral(r[n].y) {
        if n in lr {
          RowEntries(dims, a.pos, lr, RowStart(maxW, ws[k - 1]), a.y, |lr|, n);
        } else {
          RowKeepsOthers(dims, a.pos, lr, RowStart(maxW, ws[k - 1]), a.y, |lr|, n);
        }
      }
      assert layers[..k][..k - 1] == layers[..k - 1];
    }
  }

  /** Each layer's row lies below the previous one by its tallest box and the gap. */
  lemma {:induction false} TopGrows(dims: map<string, Dim>, layers: seq<seq<string>>, ws: seq<real>, maxW: real, i: nat, j: nat, n: string)
    requires |ws| == |layers| && i < j <= |layers| && n in layers[i]
    ensures PlaceLayers(dims, layers, ws, maxW, j).y >= PlaceLayers(dims, layers, ws, maxW, i).y + DimOr(dims, n).h + GapY
    decreases j
  {
    var a := PlaceLayers(dims, layers, ws, maxW, j - 1);
    var lr := layers[j - 1];
    RowMaxH(dims, a.pos, lr, RowStart(maxW, ws[j - 1]), a.y, |lr|);
    assert lr[..|lr|] == lr;
    if i < j - 1 {
      TopGrows(dims, layers, ws, maxW, i, j - 1, n);
    }
  }

  /** With disjoint layers, a table sits at the rounded top of the row of its layer. */
  lemma {:induction false} LayerY(dims: map<string, Dim>, layers: seq<seq<string>>, ws: seq<real>, maxW: real, k: nat, i: nat, n: string)
    requires |ws| == |layers| && DisjointLayers(layers) && i < k <= |layers| && n in layers[i]
    ensures n in PlaceLayers(dims, layers, ws, maxW, k).pos
    ensures PlaceLayers(dims, layers, ws, maxW, k).pos[n].y == Round(PlaceLayers(dims, layers, ws, maxW, i).y)
    decreases k
  {
    var a := PlaceLayers(dims, layers, ws, maxW, k - 1);
    var lr := layers[k - 1];
    assert lr[..|lr|] == lr;
    if i < k - 1 {
      LayerY(dims, layers, ws, maxW, k - 1, i, n);
      assert n !in lr;
      RowKeepsOthers(dims, a.pos, lr, RowStart(maxW, ws[k - 1]), a.y, |lr|, n);
    } else {
      RowEntries(dims, a.pos, lr, RowStart(maxW, ws[k - 1]), a.y, |lr|, n);
    }
  }

  /** The positions of phase 3 are those of the tables in the layers, each with its box and at
      a whole-number height. */
  lemma PlacedFacts(dims: map<string, Dim>, layers: seq<seq<string>>)
    requires |layers| > 0
    ensures forall n :: n in Placed(dims, layers) <==> n in Flatten(layers)
    ensures forall n :: n in Placed(dims, layers) ==>
              Placed(dims, layers)[n].w == DimOr(dims, n).w && Placed(dims, layers)[n].h == DimOr(dims, n).h
    ensures forall n :: n in Placed(dims, layers) ==> Integral(Placed(dims, layers)[n].y)
  {
    var ws := LayerWidths(dims, layers);
    LayersFacts(dims, layers, ws, MaxOf(ws), |layers|);
    assert layers[..|layers|] == layers;
  }

  /** A gap of a whole number survives rounding. */
  lemma GapAfterRound(a: real, b: real, h: real)
    requires b >= a + h + GapY && Integral(h)
    ensures Round(b) >= Round(a) + h + GapY
  {
    RoundMonotone(a + h + GapY, b);
    RoundShift(a, h.Floor + 90);
  }

  /** With disjoint layers and whole-number heights, a table of a later layer sits at least
      the gap below the bottom of every table of an earlier layer. */
  lemma PlacedBelow(dims: map<string, Dim>, layers: seq<seq<string>>, i: nat, j: nat, n: string, m: string)
    requires DisjointLayers(layers) && i < j < |layers| && n in layers[i] && m in layers[j]
    requires Integral(DimOr(dims, n).h)
    ensures n in Placed(dims, layers) && m in Placed(dims, layers)
    ensures Placed(dims, layers)[m].y >= Placed(dims, layers)[n].y + Placed(dims, layers)[n].h + GapY
  {
    var ws := LayerWidths(dims, layers);
    var maxW := MaxOf(ws);
    var p := PlaceLayers(dims, layers, ws, maxW, |layers|).pos;
    assert p == Placed(dims, layers);
    LayerY(dims, layers, ws, maxW, |layers|, i, n);
    LayerY(dims, layers, ws, maxW, |layers|, j, m);
    PlacedFacts(dims, layers);
    TopGrows(dims, layers, ws, maxW, i, j, n);
    GapAfterRound(PlaceLayers(dims, layers, ws, maxW, i).y, PlaceLayers(dims, layers, ws, maxW, j).y, DimOr(dims, n).h);
  }
}
