/**
  Two small diagrams worked through the model of `computeLayout` (js/er-diagram/layout.js:22-75
  for the graph and the layers, js/er-diagram/layout.js:85-141 for the rows): a chain of
  references, and two tables that reference each other. The table names are any distinct names.
*/
module LayoutExamples {
  import opened Wrappers
  import opened ErSchema
  import opened StableSort
  import opened LayoutSizes
  import opened LayoutGraph
  import opened LayoutLayers
  import opened LayoutOrder
  import opened LayoutPlace
  import opened Layout
  import opened ColumnDefs

  /** A table without columns. */
  function Bare(name: string): Table {
    Table(name, None, [], [])
  }

  /** The relationship of an inline `<to>_id … REFERENCES <to>(id)` column of table `from`. */
  function RefTo(from: string, to: string): Relationship {
    InlineRelationship(from, to + "_id", FkRef(to, "id"))
  }

  /** c references b, and b references a. */
  function Chain(a: string, b: string, c: string): seq<Table> {
    [Bare(a), Bare(b), Bare(c)]
  }

  function ChainRefs(a: string, b: string, c: string): seq<Relationship> {
    [RefTo(b, a), RefTo(c, b)]
  }

  /** a and b reference each other. */
  function Pair(a: string, b: string): seq<Table> {
    [Bare(a), Bare(b)]
  }

  function PairRefs(a: string, b: string): seq<Relationship> {
    [RefTo(a, b), RefTo(b, a)]
  }

  lemma SortOne(x: string, key: string -> real)
    ensures SortBy([x], key) == [x]
  {
    assert [x][1..] == [];
  }

  /** A list with no member is empty. */
  lemma NoMembers(s: seq<string>)
    ensures (forall n :: n !in s) ==> s == []
  {
    if s != [] {
      assert s[0] in s;
    }
  }

  /** One iteration of the walk from the level [x], whose children are kids, at most one. */
  lemma WalkStep(g: Graph, x: string, kids: seq<string>, st: LayerState, next: seq<string>)
    requires ChildrenOf(g, x) == kids && |kids| <= 1
    requires next == if kids != [] && Admits(g, st.placed + {x}, [], kids[0]) then kids else []
    ensures StepState(g, [x], st) == LayerState(st.layers + [[x]], st.placed + {x})
    ensures StepNext(g, [x], st) == next
  {
    SortOne(x, ByChildren(g));
    assert StepLevel(g, [x]) == [x];
    assert LevelSet([x]) == {x};
    var placed := st.placed + {x};
    assert StepState(g, [x], st).placed == placed;
    assert NextLevelOf(g, placed, [x], 0) == [];
    assert StepNext(g, [x], st) == AddChildren(g, placed, [], kids);
    if kids != [] {
      assert kids[..|kids| - 1] == [] && kids[|kids| - 1] == kids[0];
      assert AddChildren(g, placed, [], []) == [];
      assert [] + [kids[0]] == kids;
    }
  }

  /** The walk from the level [x]: x gets a layer of its own and the walk goes on from next. */
  lemma LoopOne(g: Graph, names: set<string>, x: string, kids: seq<string>, st: LayerState, next: seq<string>)
    requires Closed(g, names) && CanStep(names, [x], st)
    requires ChildrenOf(g, x) == kids && |kids| <= 1
    requires next == if kids != [] && Admits(g, st.placed + {x}, [], kids[0]) then kids else []
    ensures CanStep(names, next, LayerState(st.layers + [[x]], st.placed + {x}))
    ensures LayerLoop(g, names, [x], st) == LayerLoop(g, names, next, LayerState(st.layers + [[x]], st.placed + {x}))
  {
    WalkStep(g, x, kids, st, next);
    LoopUnfold(g, names, [x], st);
  }

  /** The walk ends once a level is empty. */
  lemma LoopDone(g: Graph, names: set<string>, st: LayerState)
    requires Closed(g, names) && CanStep(names, [], st)
    ensures LayerLoop(g, names, [], st) == st
  {
  }

  /** The walk from the level [x], when no child of x can follow: x gets the last layer. */
  lemma LoopLast(g: Graph, names: set<string>, x: string, kids: seq<string>, st: LayerState)
    requires Closed(g, names) && CanStep(names, [x], st)
    requires ChildrenOf(g, x) == kids && |kids| <= 1
    requires kids != [] ==> !Admits(g, st.placed + {x}, [], kids[0])
    ensures LayerLoop(g, names, [x], st) == LayerState(st.layers + [[x]], st.placed + {x})
  {
    LoopOne(g, names, x, kids, st, []);
    LoopDone(g, names, LayerState(st.layers + [[x]], st.placed + {x}));
  }

  /** The walk leaves no table for the last layer when it placed them all. */
  lemma NoOrphans(tables: seq<Table>, st: LayerState)
    requires NameSet(tables) <= st.placed
    ensures Orphans(tables, st) == []
  {
    OrphansMembers(tables, st);
    NoMembers(Orphans(tables, st));
  }

  /** Sorting a layer of one table changes nothing, so ordering layers of one table each
      leaves them as they are. */
  lemma {:induction false} SinglesOrdered(g: Graph, ls: seq<seq<string>>, n: nat)
    requires n <= |ls| && forall i :: 0 <= i < |ls| ==> |ls[i]| == 1
    ensures Ordered(g, ls, n) == ls
  {
    if n > 1 {
      SinglesOrdered(g, ls, n - 1);
      var x := ls[n - 1][0];
      assert ls[n - 1] == [x];
      SortOne(x, BaryKey(g, ls[n - 2]));
    }
  }

  /** When the walk places every table, one per layer, those are the layers of phases 1 and 2. */
  lemma SinglesWalk(tables: seq<Table>, rels: seq<Relationship>)
    requires |tables| > 0
    requires Closed(GraphFor(tables, rels), NameSet(tables))
    requires NameSet(tables) <= WalkLayers(tables, GraphFor(tables, rels)).placed
    requires var ls := WalkLayers(tables, GraphFor(tables, rels)).layers; forall i :: 0 <= i < |ls| ==> |ls[i]| == 1
    ensures LayersFor(tables, rels) == WalkLayers(tables, GraphFor(tables, rels)).layers
  {
    var g := GraphFor(tables, rels);
    var st := WalkLayers(tables, g);
    NoOrphans(tables, st);
    assert LayersOf(tables, g) == st.layers;
    SinglesOrdered(g, st.layers, |st.layers|);
  }

  /** The children and parents of the chain. */
  predicate ChainShape(g: Graph, a: string, b: string, c: string) {
    && ChildrenOf(g, a) == [b] && ChildrenOf(g, b) == [c] && ChildrenOf(g, c) == []
    && ParentsOf(g, a) == [] && ParentsOf(g, b) == [a] && ParentsOf(g, c) == [b]
  }

  lemma ChainNames(a: string, b: string, c: string)
    ensures NameSet(Chain(a, b, c)) == {a, b, c} && TableNames(Chain(a, b, c)) == [a, b, c]
  {
    var t := Chain(a, b, c);
    assert t[0].name == a && t[1].name == b && t[2].name == c;
  }

  /** The graph of the chain: a's one child is b, b's one child is c, and c has none. */
  lemma ChainGraph(a: string, b: string, c: string)
    requires a != b && b != c && a != c
    ensures ChainShape(GraphFor(Chain(a, b, c), ChainRefs(a, b, c)), a, b, c)
  {
    var rels := ChainRefs(a, b, c);
    var names := NameSet(Chain(a, b, c));
    ChainNames(a, b, c);
    var g0 := EmptyGraph(names);
    assert g0 == GraphOf(names, rels, 0);
    assert rels[0].from.table == b && rels[0].to.table == a && IsEdge(rels[0], names);
    assert rels[1].from.table == c && rels[1].to.table == b && IsEdge(rels[1], names);
    var g1 := GraphOf(names, rels, 1);
    assert g1 == EdgeStep(g0, rels[0], names);
    assert ChildrenOf(g1, a) == [b] && ChildrenOf(g1, b) == [] && ChildrenOf(g1, c) == [];
    assert ParentsOf(g1, a) == [] && ParentsOf(g1, b) == [a] && ParentsOf(g1, c) == [];
  }

  /** The three iterations of the walk of the chain, ending in the state fin. */
  lemma ChainSteps(g: Graph, names: set<string>, a: string, b: string, c: string, fin: LayerState)
    requires a != b && b != c && a != c
    requires ChainShape(g, a, b, c) && Closed(g, names) && a in names && b in names && c in names
    requires fin == LayerState([] + [[a]] + [[b]] + [[c]], {} + {a} + {b} + {c})
    ensures CanStep(names, [a], LayerState([], {}))
    ensures LayerLoop(g, names, [a], LayerState([], {})) == fin
  {
    var st0 := LayerState([], {});
    var st1 := LayerState(st0.layers + [[a]], st0.placed + {a});
    var st2 := LayerState(st1.layers + [[b]], st1.placed + {b});
    assert CanStep(names, [a], st0) && CanStep(names, [b], st1) && CanStep(names, [c], st2);
    assert Admits(g, st0.placed + {a}, [], b) && Admits(g, st1.placed + {b}, [], c);
    LoopOne(g, names, a, [b], st0, [b]);
    LoopOne(g, names, b, [c], st1, [c]);
    LoopLast(g, names, c, [], st2);
  }

  /** The walk of the chain from a, one level per table. */
  lemma ChainLoop(g: Graph, a: string, b: string, c: string)
    requires a != b && b != c && a != c
    requires ChainShape(g, a, b, c) && Closed(g, {a, b, c})
    ensures CanStep({a, b, c}, [a], LayerState([], {}))
    ensures LayerLoop(g, {a, b, c}, [a], LayerState([], {})) == LayerState([[a], [b], [c]], {a, b, c})
  {
    var fin := LayerState([[a], [b], [c]], {a, b, c});
    assert fin == LayerState([] + [[a]] + [[b]] + [[c]], {} + {a} + {b} + {c});
    ChainSteps(g, {a, b, c}, a, b, c, fin);
  }

  /** Only a is without parents in the chain. */
  lemma ChainRoots(g: Graph, a: string, b: string, c: string)
    requires ChainShape(g, a, b, c)
    ensures Roots(Chain(a, b, c), g) == [a]
  {
    var tables := Chain(a, b, c);
    var keep := NoParents(g);
    var t1 := tables[1..];
    var t2 := t1[1..];
    assert t2 == [Bare(c)] && t2[1..] == [];
    assert NamesWhere(t2[1..], keep) == [];
    assert NamesWhere(t2, keep) == [];
    assert NamesWhere(t1, keep) == [];
    assert NamesWhere(tables, keep) == [a] + [];
  }

  /** The walk over the chain's graph. */
  lemma ChainWalk(a: string, b: string, c: string)
    requires a != b && b != c && a != c
    ensures var g := GraphFor(Chain(a, b, c), ChainRefs(a, b, c));
            Closed(g, NameSet(Chain(a, b, c))) && WalkLayers(Chain(a, b, c), g) == LayerState([[a], [b], [c]], {a, b, c})
  {
    var tables := Chain(a, b, c);
    var g := GraphFor(tables, ChainRefs(a, b, c));
    ChainNames(a, b, c);
    ChainGraph(a, b, c);
    GraphClosed(tables, ChainRefs(a, b, c));
    ChainRoots(g, a, b, c);
    ChainLoop(g, a, b, c);
  }

  /** The chain c→b→a: a is in layer 0, b in layer 1 and c in layer 2. */
  lemma ChainLayers(a: string, b: string, c: string)
    requires a != b && b != c && a != c
    ensures LayersFor(Chain(a, b, c), ChainRefs(a, b, c)) == [[a], [b], [c]]
  {
    var ls: seq<seq<string>> := [[a], [b], [c]];
    assert forall i :: 0 <= i < |ls| ==> |ls[i]| == 1;
    ChainNames(a, b, c);
    ChainWalk(a, b, c);
    SinglesWalk(Chain(a, b, c), ChainRefs(a, b, c));
  }

  lemma ThreeNoDup(a: string, b: string, c: string)
    requires a != b && b != c && a != c
    ensures NoDup([a, b, c])
  {
    SingletonNoDup(a);
    SingletonNoDup(b);
    SingletonNoDup(c);
    NoDupConcat([a], [b]);
    NoDupConcat([a, b], [c]);
    assert [a, b] + [c] == [a, b, c];
  }

  /** The chain drawn: each table starts at least 90 below the bottom of the table it
      references, so the y coordinates strictly increase along the chain. */
  lemma ChainRows(a: string, b: string, c: string, measure: Measure)
    requires a != b && b != c && a != c
    ensures var r := LayoutOf(Chain(a, b, c), ChainRefs(a, b, c), measure);
            && r.Keys == {a, b, c}
            && r[b].y >= r[a].y + r[a].h + GapY && r[c].y >= r[b].y + r[b].h + GapY
            && r[a].y < r[b].y < r[c].y
  {
    var tables := Chain(a, b, c);
    var rels := ChainRefs(a, b, c);
    ChainLayers(a, b, c);
    ChainNames(a, b, c);
    ThreeNoDup(a, b, c);
    LayoutRows(tables, rels, measure, 0, 1, a, b);
    LayoutRows(tables, rels, measure, 1, 2, b, c);
    LayoutBoxes(tables, rels, measure);
    DimsBounds(tables, measure, a);
    DimsBounds(tables, measure, b);
  }

  /** The children and parents of the pair. */
  predicate PairShape(g: Graph, a: string, b: string) {
    && ChildrenOf(g, a) == [b] && ChildrenOf(g, b) == [a]
    && ParentsOf(g, a) == [b] && ParentsOf(g, b) == [a]
  }

  lemma PairNames(a: string, b: string)
    ensures NameSet(Pair(a, b)) == {a, b} && TableNames(Pair(a, b)) == [a, b]
  {
    var t := Pair(a, b);
    assert t[0].name == a && t[1].name == b;
  }

  /** The graph of the pair: each table is the other's only child and only parent. */
  lemma PairGraph(a: string, b: string)
    requires a != b
    ensures PairShape(GraphFor(Pair(a, b), PairRefs(a, b)), a, b)
  {
    var rels := PairRefs(a, b);
    var names := NameSet(Pair(a, b));
    PairNames(a, b);
    var g0 := EmptyGraph(names);
    assert g0 == GraphOf(names, rels, 0);
    assert rels[0].from.table == a && rels[0].to.table == b && IsEdge(rels[0], names);
    assert rels[1].from.table == b && rels[1].to.table == a && IsEdge(rels[1], names);
    var g1 := GraphOf(names, rels, 1);
    assert g1 == EdgeStep(g0, rels[0], names);
    assert ChildrenOf(g1, a) == [] && ChildrenOf(g1, b) == [a];
    assert ParentsOf(g1, a) == [b] && ParentsOf(g1, b) == [];
  }

  /** The two iterations of the walk of the pair, ending in the state fin. */
  lemma PairSteps(g: Graph, names: set<string>, a: string, b: string, fin: LayerState)
    requires a != b
    requires PairShape(g, a, b) && Closed(g, names) && a in names && b in names
    requires fin == LayerState([] + [[a]] + [[b]], {} + {a} + {b})
    ensures CanStep(names, [a], LayerState([], {}))
    ensures LayerLoop(g, names, [a], LayerState([], {})) == fin
  {
    var st0 := LayerState([], {});
    var st1 := LayerState(st0.layers + [[a]], st0.placed + {a});
    assert CanStep(names, [a], st0) && CanStep(names, [b], st1);
    assert Admits(g, st0.placed + {a}, [], b) && !Admits(g, st1.placed + {b}, [], a);
    LoopOne(g, names, a, [b], st0, [b]);
    LoopLast(g, names, b, [a], st1);
  }

  /** The walk of the pair from a: b follows, and a, already placed, is not taken again. */
  lemma PairLoop(g: Graph, a: string, b: string)
    requires a != b
    requires PairShape(g, a, b) && Closed(g, {a, b})
    ensures CanStep({a, b}, [a], LayerState([], {}))
    ensures LayerLoop(g, {a, b}, [a], LayerState([], {})) == LayerState([[a], [b]], {a, b})
  {
    var fin := LayerState([[a], [b]], {a, b});
    assert fin == LayerState([] + [[a]] + [[b]], {} + {a} + {b});
    PairSteps(g, {a, b}, a, b, fin);
  }

  /** Every table of the pair has a parent. */
  lemma PairRoots(g: Graph, a: string, b: string)
    requires PairShape(g, a, b)
    ensures Roots(Pair(a, b), g) == []
  {
    var tables := Pair(a, b);
    var keep := NoParents(g);
    var t1 := tables[1..];
    assert t1 == [Bare(b)] && t1[1..] == [];
    assert NamesWhere(t1[1..], keep) == [];
    assert NamesWhere(t1, keep) == [];
  }

  /** With no table without parents, the walk of the pair starts from a: both tables have one
      child, and a comes first. */
  lemma PairSeed(g: Graph, a: string, b: string)
    requires PairShape(g, a, b)
    ensures Seed(Pair(a, b), g) == [a]
  {
    var tables := Pair(a, b);
    PairRoots(g, a, b);
    assert TableByChildren(g)(tables[0]) == TableByChildren(g)(tables[1]);
    assert FirstMin(tables, TableByChildren(g)) == 0;
    SortByHead(tables, TableByChildren(g));
  }

  /** The walk over the pair's graph. */
  lemma PairWalk(a: string, b: string)
    requires a != b
    ensures var g := GraphFor(Pair(a, b), PairRefs(a, b));
            Closed(g, NameSet(Pair(a, b))) && WalkLayers(Pair(a, b), g) == LayerState([[a], [b]], {a, b})
  {
    var tables := Pair(a, b);
    var g := GraphFor(tables, PairRefs(a, b));
    PairNames(a, b);
    PairGraph(a, b);
    GraphClosed(tables, PairRefs(a, b));
    PairSeed(g, a, b);
    PairLoop(g, a, b);
  }

  /** Mutual references: no table is without parents, so the walk is seeded with the first of
      the tables with most children, a, and reaches b from it; each is placed once, one per
      layer, and no table is left for a last layer. */
  lemma PairLayers(a: string, b: string)
    requires a != b
    ensures LayersFor(Pair(a, b), PairRefs(a, b)) == [[a], [b]]
  {
    var ls: seq<seq<string>> := [[a], [b]];
    assert forall i :: 0 <= i < |ls| ==> |ls[i]| == 1;
    PairNames(a, b);
    PairWalk(a, b);
    SinglesWalk(Pair(a, b), PairRefs(a, b));
  }

  lemma TwoNoDup(a: string, b: string)
    requires a != b
    ensures NoDup([a, b])
  {
    SingletonNoDup(a);
    SingletonNoDup(b);
    NoDupConcat([a], [b]);
    assert [a] + [b] == [a, b];
  }

  /** Mutual references drawn: both tables get a box, b's at least 90 below the bottom of a's. */
  lemma PairRows(a: string, b: string, measure: Measure)
    requires a != b
    ensures var r := LayoutOf(Pair(a, b), PairRefs(a, b), measure);
            && r.Keys == {a, b} && r[b].y >= r[a].y + r[a].h + GapY
  {
    var tables := Pair(a, b);
    var rels := PairRefs(a, b);
    PairLayers(a, b);
    PairNames(a, b);
    TwoNoDup(a, b);
    LayoutRows(tables, rels, measure, 0, 1, a, b);
    LayoutBoxes(tables, rels, measure);
  }
}
