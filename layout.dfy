/**
  `computeLayout` (js/er-diagram/layout.js:5-144): the position and size of every table box of
  the diagram, computed in six phases from the tables, the relationships and the canvas's text
  measure. An empty list of tables gives an empty map.
*/
module Layout {
  import opened ErSchema
  import opened LayoutSizes
  import opened LayoutGraph
  import opened LayoutLayers
  import opened LayoutOrder
  import opened LayoutPlace
  import opened LayoutRefine
  import opened LayoutSeparate
  import opened LayoutGaps
  import opened LayoutNormalize

  /** The graph of layout.js:22-33. */
  function GraphFor(tables: seq<Table>, rels: seq<Relationship>): Graph {
    GraphOf(NameSet(tables), rels, |rels|)
  }

  /** Every child in the graph is a table. */
  lemma GraphClosed(tables: seq<Table>, rels: seq<Relationship>)
    ensures Closed(GraphFor(tables, rels), NameSet(tables))
  {
    var g := GraphFor(tables, rels);
    forall t, x | x in ChildrenOf(g, t) ensures x in NameSet(tables) {
      GraphWellFormed(NameSet(tables), rels, t, x);
    }
  }

  lemma SameMultisetMembers(a: seq<string>, b: seq<string>)
    requires multiset(a) == multiset(b)
    ensures forall n :: n in a <==> n in b
  {
    forall n ensures n in a <==> n in b {
      assert n in a <==> n in multiset(a);
      assert n in b <==> n in multiset(b);
    }
  }

  /** The layers after phases 1 and 2: at least one, and together they hold every table. */
  function LayersFor(tables: seq<Table>, rels: seq<Relationship>): (ls: seq<seq<string>>)
    requires |tables| > 0
    ensures |ls| > 0
    ensures forall n :: n in Flatten(ls) <==> n in NameSet(tables)
  {
    var g := GraphFor(tables, rels);
    GraphClosed(tables, rels);
    FirstLayerIsSortedSeed(tables, g);
    LayersCover(tables, g);
    var ls := LayersOf(tables, g);
    OrderedFlatten(g, ls);
    SameMultisetMembers(Flatten(Ordered(g, ls, |ls|)), Flatten(ls));
    Ordered(g, ls, |ls|)
  }

  /** Phase 3 gives every name of the layers a box. */
  lemma PlacedCovers(dims: map<string, Dim>, layers: seq<seq<string>>)
    requires |layers| > 0
    ensures Covers(layers, Placed(dims, layers))
  {
    PlacedFacts(dims, layers);
    forall i, n | 0 <= i < |layers| && n in layers[i] ensures n in Placed(dims, layers) {
      FlattenHas(layers, i, n);
    }
  }

  /** The boxes after phase 3. */
  function PlacedFor(tables: seq<Table>, rels: seq<Relationship>, measure: Measure): (r: map<string, Pos>)
    requires |tables| > 0
    ensures Covers(LayersFor(tables, rels), r)
  {
    PlacedCovers(DimsOf(tables, measure, |tables|), LayersFor(tables, rels));
    Placed(DimsOf(tables, measure, |tables|), LayersFor(tables, rels))
  }

  /** The boxes after phase 4. */
  function RefinedFor(tables: seq<Table>, rels: seq<Relationship>, measure: Measure): (r: map<string, Pos>)
    requires |tables| > 0
    ensures Covers(LayersFor(tables, rels), r)
  {
    var p := PlacedFor(tables, rels, measure);
    var r := Refined(GraphFor(tables, rels), LayersFor(tables, rels), p, Passes);
    CoversFrame(LayersFor(tables, rels), p, r);
    r
  }

  /** The boxes after phase 5. */
  function SeparatedFor(tables: seq<Table>, rels: seq<Relationship>, measure: Measure): map<string, Pos>
    requires |tables| > 0
  {
    var ls := LayersFor(tables, rels);
    Separated(RefinedFor(tables, rels, measure), ls, |ls|)
  }

  /** The boxes `computeLayout` returns. */
  ghost function LayoutOf(tables: seq<Table>, rels: seq<Relationship>, measure: Measure): map<string, Pos> {
    if |tables| == 0 then map[] else Normalized(SeparatedFor(tables, rels, measure))
  }

  /** `computeLayout`. */
  method ComputeLayout(tables: seq<Table>, rels: seq<Relationship>, measure: Measure) returns (positions: map<string, Pos>)
    ensures positions == LayoutOf(tables, rels, measure)
  {
    if |tables| == 0 {
      return map[];
    }
    var dims := ComputeDims(tables, measure);
    var g := BuildGraph(tables, rels);
    GraphClosed(tables, rels);
    var layers := AssignLayers(tables, g);
    layers := OrderLayers(g, layers);
    assert layers == LayersFor(tables, rels);
    positions := PlaceTables(dims, layers);
    PlacedCovers(dims, layers);
    positions := RefineLayout(g, layers, positions);
    CoversFrame(layers, PlacedFor(tables, rels, measure), positions);
    positions := SeparateLayers(positions, layers);
    positions := Normalize(positions);
  }

  /** With no tables there is no box. */
  lemma LayoutEmpty(tables: seq<Table>, rels: seq<Relationship>, measure: Measure)
    requires |tables| == 0
    ensures LayoutOf(tables, rels, measure) == map[]
  {
  }

  /** The boxes of phases 3 to 5 keep the sizes phase 3 gave them, at whole-number heights. */
  lemma FramesKept(tables: seq<Table>, rels: seq<Relationship>, measure: Measure)
    requires |tables| > 0
    ensures var p := PlacedFor(tables, rels, measure);
            SameFrame(p, RefinedFor(tables, rels, measure)) && SameFrame(p, SeparatedFor(tables, rels, measure))
  {
    var p := PlacedFor(tables, rels, measure);
    var r := RefinedFor(tables, rels, measure);
    SameFrameTrans(p, r, SeparatedFor(tables, rels, measure));
  }

  /** The dims map has an entry per table name. */
  lemma DimsKeys(tables: seq<Table>, measure: Measure)
    ensures DimsOf(tables, measure, |tables|).Keys == NameSet(tables)
  {
    ByNameKeys(tables, DimFn(measure), |tables|);
    assert tables[..|tables|] == tables;
  }

  /** Boxes keyed by the layered names, sized by the dims map, when the layers hold exactly the
      names the dims map has. */
  lemma SizedBoxes(p: map<string, Pos>, dims: map<string, Dim>, ls: seq<seq<string>>, names: set<string>)
    requires forall n :: n in p <==> n in Flatten(ls)
    requires forall n :: n in Flatten(ls) <==> n in names
    requires dims.Keys == names
    requires forall n :: n in p ==> p[n].w == DimOr(dims, n).w && p[n].h == DimOr(dims, n).h
    ensures p.Keys == names
    ensures forall n :: n in p ==> n in dims && p[n].w == dims[n].w && p[n].h == dims[n].h
  {
  }

  /** Phase 3 gives one box per table name, with its size from the dims map. */
  lemma PlacedBoxes(tables: seq<Table>, rels: seq<Relationship>, measure: Measure)
    requires |tables| > 0
    ensures var p := PlacedFor(tables, rels, measure);
            var dims := DimsOf(tables, measure, |tables|);
            && p.Keys == NameSet(tables)
            && forall n :: n in p ==> n in dims && p[n].w == dims[n].w && p[n].h == dims[n].h
  {
    var dims := DimsOf(tables, measure, |tables|);
    var ls := LayersFor(tables, rels);
    PlacedFacts(dims, ls);
    DimsKeys(tables, measure);
    SizedBoxes(Placed(dims, ls), dims, ls, NameSet(tables));
  }

  /** After phase 5 there is one box per table name, with the size phase 3 gave it. */
  lemma SeparatedBoxes(tables: seq<Table>, rels: seq<Relationship>, measure: Measure)
    requires |tables| > 0
    ensures var s := SeparatedFor(tables, rels, measure);
            var dims := DimsOf(tables, measure, |tables|);
            && s.Keys == NameSet(tables)
            && forall n :: n in s ==> n in dims && s[n].w == dims[n].w && s[n].h == dims[n].h
  {
    PlacedBoxes(tables, rels, measure);
    FramesKept(tables, rels, measure);
  }

  /** There is one box per table name, and it has the size of the last table of that name. */
  lemma LayoutBoxes(tables: seq<Table>, rels: seq<Relationship>, measure: Measure)
    ensures LayoutOf(tables, rels, measure).Keys == NameSet(tables)
    ensures forall n :: n in LayoutOf(tables, rels, measure) ==>
              n in DimsOf(tables, measure, |tables|)
              && LayoutOf(tables, rels, measure)[n].w == DimsOf(tables, measure, |tables|)[n].w
              && LayoutOf(tables, rels, measure)[n].h == DimsOf(tables, measure, |tables|)[n].h
  {
    if |tables| > 0 {
      SeparatedBoxes(tables, rels, measure);
    }
  }

  /** Every box is 240 to 380 wide. */
  lemma LayoutWidths(tables: seq<Table>, rels: seq<Relationship>, measure: Measure, n: string)
    requires n in LayoutOf(tables, rels, measure)
    ensures TableMinWidth <= LayoutOf(tables, rels, measure)[n].w <= TableMaxWidth
  {
    LayoutBoxes(tables, rels, measure);
    DimsBounds(tables, measure, n);
  }

  /** The leftmost box starts at x = 80 and the topmost at y = 70. */
  lemma LayoutCorner(tables: seq<Table>, rels: seq<Relationship>, measure: Measure)
    requires |tables| > 0
    ensures LeastIn(LayoutOf(tables, rels, measure), NameSet(tables), Horizontal, PaddingX)
    ensures LeastIn(LayoutOf(tables, rels, measure), NameSet(tables), Vertical, PaddingY)
  {
    LayoutBoxes(tables, rels, measure);
    var p := SeparatedFor(tables, rels, measure);
    assert tables[0].name in p;
    NormalizedCorner(p);
  }

  /** A box height of phase 3 is a whole number: 44 plus 26 per column. */
  lemma WholeHeight(tables: seq<Table>, measure: Measure, n: string)
    requires n in NameSet(tables)
    ensures Integral(DimOr(DimsOf(tables, measure, |tables|), n).h)
  {
    DimsKeys(tables, measure);
    DimsBounds(tables, measure, n);
    var i :| 0 <= i < |tables| && tables[i].name == n
             && DimsOf(tables, measure, |tables|)[n].h == 44.0 + 26.0 * |tables[i].columns| as real;
    var k := 44 + 26 * |tables[i].columns|;
    assert DimsOf(tables, measure, |tables|)[n].h == k as real;
  }

  /** With distinct table names, the layers are disjoint and have no name twice. */
  lemma LayersDisjoint(tables: seq<Table>, rels: seq<Relationship>)
    requires |tables| > 0 && NoDup(TableNames(tables))
    ensures DisjointLayers(LayersFor(tables, rels))
  {
    var g := GraphFor(tables, rels);
    GraphClosed(tables, rels);
    var ls := LayersOf(tables, g);
    LayersNoDup(tables, g);
    OrderedFlatten(g, ls);
    NoDupLayersDisjoint(LayersFor(tables, rels));
  }

  /** With distinct table names, every box of a later layer starts at least 90 below the bottom
      of every box of an earlier layer. */
  lemma LayoutRows(tables: seq<Table>, rels: seq<Relationship>, measure: Measure, i: nat, j: nat, n: string, m: string)
    requires |tables| > 0 && NoDup(TableNames(tables))
    requires i < j < |LayersFor(tables, rels)| && n in LayersFor(tables, rels)[i] && m in LayersFor(tables, rels)[j]
    ensures n in LayoutOf(tables, rels, measure) && m in LayoutOf(tables, rels, measure)
    ensures var r := LayoutOf(tables, rels, measure); r[m].y >= r[n].y + r[n].h + GapY
  {
    var dims := DimsOf(tables, measure, |tables|);
    var ls := LayersFor(tables, rels);
    var p := PlacedFor(tables, rels, measure);
    var s := SeparatedFor(tables, rels, measure);
    LayersDisjoint(tables, rels);
    FlattenHas(ls, i, n);
    WholeHeight(tables, measure, n);
    PlacedBelow(dims, ls, i, j, n, m);
    PlacedFacts(dims, ls);
    FramesKept(tables, rels, measure);
    NormalizedKeepsRows(s, n, m);
  }

  /** With distinct table names, two boxes of one layer do not overlap: one starts more than 49
      to the right of where the other ends. */
  lemma LayoutApart(tables: seq<Table>, rels: seq<Relationship>, measure: Measure, i: nat, n: string, m: string)
    requires |tables| > 0 && NoDup(TableNames(tables))
    requires i < |LayersFor(tables, rels)| && n in LayersFor(tables, rels)[i] && m in LayersFor(tables, rels)[i] && n != m
    ensures n in LayoutOf(tables, rels, measure) && m in LayoutOf(tables, rels, measure)
    ensures var r := LayoutOf(tables, rels, measure);
            r[m].x > r[n].x + r[n].w + MinGap - 1.0 || r[n].x > r[m].x + r[m].w + MinGap - 1.0
  {
    var dims := DimsOf(tables, measure, |tables|);
    var ls := LayersFor(tables, rels);
    var p := PlacedFor(tables, rels, measure);
    var q := RefinedFor(tables, rels, measure);
    var s := SeparatedFor(tables, rels, measure);
    LayersDisjoint(tables, rels);
    PlacedFacts(dims, ls);
    DimsKeys(tables, measure);
    FramesKept(tables, rels, measure);
    forall k | k in q ensures q[k].w >= 0.0 {
      DimsBounds(tables, measure, k);
    }
    SeparatedApart(q, ls, i, n, m);
    if s[m].x >= s[n].x + s[n].w + MinGap {
      NormalizedKeepsColumns(s, n, m);
    } else {
      NormalizedKeepsColumns(s, m, n);
    }
  }
}
