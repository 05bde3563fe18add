/**
  The dependency graph of the layout (js/er-diagram/layout.js:22-33): for each table, the
  tables that reference it (`children`) and the tables it references (`parents`), one entry
  per relationship, in relationship order.
*/
module LayoutGraph {
  import opened ErSchema
  import opened LayoutSizes

  datatype Graph = Graph(children: map<string, seq<string>>, parents: map<string, seq<string>>)

  /** `children.get(n)`, total: the empty list for a name that is no table. */
  function ChildrenOf(g: Graph, n: string): seq<string> {
    if n in g.children then g.children[n] else []
  }

  /** `parents.get(n)`, total in the same way. */
  function ParentsOf(g: Graph, n: string): seq<string> {
    if n in g.parents then g.parents[n] else []
  }

  /** Both maps have exactly the table names as keys. */
  predicate KeyedBy(g: Graph, names: set<string>) {
    g.children.Keys == names && g.parents.Keys == names
  }

  /** A relationship adds an edge when both its ends are tables and they differ. */
  predicate IsEdge(r: Relationship, names: set<string>) {
    r.from.table in names && r.to.table in names && r.from.table != r.to.table
  }

  /** One iteration of the loop of layout.js:28-33. */
  function EdgeStep(g: Graph, r: Relationship, names: set<string>): (h: Graph)
    requires KeyedBy(g, names)
    ensures KeyedBy(h, names)
  {
    if !IsEdge(r, names) then g
    else Graph(g.children[r.to.table := g.children[r.to.table] + [r.from.table]],
               g.parents[r.from.table := g.parents[r.from.table] + [r.to.table]])
  }

  /** The maps after `children.set(t.name, [])` and `parents.set(t.name, [])` for every table. */
  function EmptyGraph(names: set<string>): (g: Graph)
    ensures KeyedBy(g, names)
  {
    Graph(map n | n in names :: [], map n | n in names :: [])
  }

  /** The graph after the first n relationships. */
  function GraphOf(names: set<string>, rels: seq<Relationship>, n: nat): (g: Graph)
    requires n <= |rels|
    ensures KeyedBy(g, names)
  {
    if n == 0 then EmptyGraph(names) else EdgeStep(GraphOf(names, rels, n - 1), rels[n - 1], names)
  }

  /** The two loops of layout.js:26-33. */
  method BuildGraph(tables: seq<Table>, rels: seq<Relationship>) returns (g: Graph)
    ensures g == GraphOf(NameSet(tables), rels, |rels|)
  {
    var allNames := NameSet(tables);
    var children: map<string, seq<string>> := map[];
    var parents: map<string, seq<string>> := map[];
    for i := 0 to |tables|
      invariant children == (map n | n in NameSet(tables[..i]) :: [])
      invariant parents == (map n | n in NameSet(tables[..i]) :: [])
    {
      assert NameSet(tables[..i + 1]) == NameSet(tables[..i]) + {tables[i].name} by {
        assert tables[..i + 1] == tables[..i] + [tables[i]];
      }
      children := children[tables[i].name := []];
      parents := parents[tables[i].name := []];
    }
    assert tables[..|tables|] == tables;
    g := Graph(children, parents);
    for i := 0 to |rels|
      invariant g == GraphOf(allNames, rels, i)
    {
      var r := rels[i];
      if r.from.table !in allNames || r.to.table !in allNames {
        continue;
      }
      if r.from.table == r.to.table {
        continue;
      }
      g := Graph(g.children[r.to.table := g.children[r.to.table] + [r.from.table]],
                 g.parents[r.from.table := g.parents[r.from.table] + [r.to.table]]);
    }
  }

  /** The children and parents one relationship adds. */
  lemma EdgeStepLists(g: Graph, r: Relationship, names: set<string>, t: string)
    requires KeyedBy(g, names)
    ensures ChildrenOf(EdgeStep(g, r, names), t)
            == if IsEdge(r, names) && r.to.table == t then ChildrenOf(g, t) + [r.from.table] else ChildrenOf(g, t)
    ensures ParentsOf(EdgeStep(g, r, names), t)
            == if IsEdge(r, names) && r.from.table == t then ParentsOf(g, t) + [r.to.table] else ParentsOf(g, t)
  {
  }

  /** A child comes from an edge. */
  lemma {:induction false} ChildHasEdge(names: set<string>, rels: seq<Relationship>, n: nat, t: string, x: string)
    returns (i: nat)
    requires n <= |rels|
    requires x in ChildrenOf(GraphOf(names, rels, n), t)
    ensures i < n && IsEdge(rels[i], names) && rels[i].to.table == t && rels[i].from.table == x
  {
    var r := rels[n - 1];
    EdgeStepLists(GraphOf(names, rels, n - 1), r, names, t);
    if IsEdge(r, names) && t == r.to.table && x == r.from.table {
      i := n - 1;
    } else {
      i := ChildHasEdge(names, rels, n - 1, t, x);
    }
  }

  /** An edge makes a child. */
  lemma {:induction false} EdgeMakesChild(names: set<string>, rels: seq<Relationship>, n: nat, i: nat)
    requires i < n <= |rels|
    requires IsEdge(rels[i], names)
    ensures rels[i].from.table in ChildrenOf(GraphOf(names, rels, n), rels[i].to.table)
  {
    EdgeStepLists(GraphOf(names, rels, n - 1), rels[n - 1], names, rels[i].to.table);
    if i < n - 1 {
      EdgeMakesChild(names, rels, n - 1, i);
    }
  }

  /** t is listed as a parent of x exactly when x is listed as a child of t. */
  lemma {:induction false} ParentsMirrorChildren(names: set<string>, rels: seq<Relationship>, n: nat, t: string, x: string)
    requires n <= |rels|
    ensures t in ParentsOf(GraphOf(names, rels, n), x) <==> x in ChildrenOf(GraphOf(names, rels, n), t)
  {
    if n > 0 {
      ParentsMirrorChildren(names, rels, n - 1, t, x);
      EdgeStepLists(GraphOf(names, rels, n - 1), rels[n - 1], names, t);
      EdgeStepLists(GraphOf(names, rels, n - 1), rels[n - 1], names, x);
    }
  }

  /** x is a child of t, and t a parent of x, exactly when some relationship is an edge from
      x to t: both ends tables, and different. */
  lemma GraphEdges(names: set<string>, rels: seq<Relationship>, t: string, x: string)
    ensures var g := GraphOf(names, rels, |rels|);
            (x in ChildrenOf(g, t) <==> exists i :: 0 <= i < |rels| && IsEdge(rels[i], names)
                                                   && rels[i].to.table == t && rels[i].from.table == x)
            && (t in ParentsOf(g, x) <==> x in ChildrenOf(g, t))
  {
    var g := GraphOf(names, rels, |rels|);
    if x in ChildrenOf(g, t) {
      var i := ChildHasEdge(names, rels, |rels|, t, x);
    }
    if exists i :: 0 <= i < |rels| && IsEdge(rels[i], names) && rels[i].to.table == t && rels[i].from.table == x {
      var i :| 0 <= i < |rels| && IsEdge(rels[i], names) && rels[i].to.table == t && rels[i].from.table == x;
      EdgeMakesChild(names, rels, |rels|, i);
    }
    ParentsMirrorChildren(names, rels, |rels|, t, x);
  }

  /** Every child and every parent is a table other than the one it is listed under. */
  lemma GraphWellFormed(names: set<string>, rels: seq<Relationship>, t: string, x: string)
    requires var g := GraphOf(names, rels, |rels|); x in ChildrenOf(g, t) || x in ParentsOf(g, t)
    ensures x in names && x != t
  {
    var g := GraphOf(names, rels, |rels|);
    ParentsMirrorChildren(names, rels, |rels|, x, t);
    if x in ChildrenOf(g, t) {
      var i := ChildHasEdge(names, rels, |rels|, t, x);
    } else {
      var i := ChildHasEdge(names, rels, |rels|, x, t);
    }
  }
}
