/**
  Phase 1 of `computeLayout` (js/er-diagram/layout.js:35-63): tables are put in layers, a
  table going into the next layer once all its parents are placed; the tables the walk never
  reaches form one last layer.
*/
module LayoutLayers {
  import opened ErSchema
  import opened LayoutSizes
  import opened LayoutGraph
  import opened StableSort

  /** No element occurs twice. */
  ghost predicate NoDup(s: seq<string>) {
    forall x :: multiset(s)[x] <= 1
  }

  /** The layers one after the other. */
  function Flatten(ls: seq<seq<string>>): seq<string>
    decreases |ls|
  {
    if ls == [] then [] else Flatten(ls[..|ls| - 1]) + ls[|ls| - 1]
  }

  lemma FlattenAppend(ls: seq<seq<string>>, l: seq<string>)
    ensures Flatten(ls + [l]) == Flatten(ls) + l
  {
    assert (ls + [l])[..|ls|] == ls;
  }

  /** `tables.filter(t => keep(t.name)).map(t => t.name)`. */
  function NamesWhere(tables: seq<Table>, keep: string -> bool): (r: seq<string>)
    ensures forall n :: n in r <==> n in NameSet(tables) && keep(n)
    decreases |tables|
  {
    if tables == [] then []
    else
      assert forall n :: n in NameSet(tables) <==> n == tables[0].name || n in NameSet(tables[1..]) by {
        forall n | n in NameSet(tables[1..]) ensures n in NameSet(tables) {
          var i :| 0 <= i < |tables[1..]| && tables[1..][i].name == n;
          assert tables[i + 1].name == n;
        }
      }
      (if keep(tables[0].name) then [tables[0].name] else []) + NamesWhere(tables[1..], keep)
  }

  /** The names of the tables, in order. */
  function TableNames(tables: seq<Table>): (r: seq<string>)
    ensures |r| == |tables| && forall i :: 0 <= i < |tables| ==> r[i] == tables[i].name
  {
    seq(|tables|, i requires 0 <= i < |tables| => tables[i].name)
  }

  lemma {:induction false} NamesWhereSubset(tables: seq<Table>, keep: string -> bool)
    ensures multiset(NamesWhere(tables, keep)) <= multiset(TableNames(tables))
    decreases |tables|
  {
    if tables != [] {
      assert TableNames(tables) == [tables[0].name] + TableNames(tables[1..]);
      NamesWhereSubset(tables[1..], keep);
    }
  }

  /** With distinct table names a filtered list of names has no repeats either. */
  lemma NamesWhereNoDup(tables: seq<Table>, keep: string -> bool)
    requires NoDup(TableNames(tables))
    ensures NoDup(NamesWhere(tables, keep))
  {
    NamesWhereSubset(tables, keep);
  }

  /** The key the source sorts by children count with: most children first. */
  function ByChildren(g: Graph): string -> real {
    n => -(|ChildrenOf(g, n)| as real)
  }

  function TableByChildren(g: Graph): Table -> real {
    (t: Table) => -(|ChildrenOf(g, t.name)| as real)
  }

  function NoParents(g: Graph): string -> bool {
    n => ParentsOf(g, n) == []
  }

  /** The tables without parents, in table order. */
  function Roots(tables: seq<Table>, g: Graph): seq<string> {
    NamesWhere(tables, NoParents(g))
  }

  /** The first level (layout.js:40-44): the tables without parents, or when there is none the
      first table after sorting by children count. */
  function Seed(tables: seq<Table>, g: Graph): seq<string>
    requires |tables| > 0
  {
    if Roots(tables, g) != [] then Roots(tables, g) else [SortBy(tables, TableByChildren(g))[0].name]
  }

  /** `parents.get(child).every(p => assigned.has(p))`. */
  predicate AllAssigned(ps: seq<string>, placed: set<string>) {
    forall p :: p in ps ==> p in placed
  }

  /** A child goes into the next level when it is not placed, all its parents are placed, and
      it is not in the level yet (`nextLevel` is a Set, kept in insertion order). */
  predicate Admits(g: Graph, placed: set<string>, acc: seq<string>, c: string) {
    c !in placed && AllAssigned(ParentsOf(g, c), placed) && c !in acc
  }

  /** The next level after looking at the children kids. */
  function AddChildren(g: Graph, placed: set<string>, acc: seq<string>, kids: seq<string>): seq<string>
    decreases |kids|
  {
    if kids == [] then acc
    else
      var a := AddChildren(g, placed, acc, kids[..|kids| - 1]);
      var c := kids[|kids| - 1];
      if Admits(g, placed, a, c) then a + [c] else a
  }

  /** The next level after the first k names of the current level (layout.js:51-58). */
  function NextLevelOf(g: Graph, placed: set<string>, level: seq<string>, k: nat): seq<string>
    requires k <= |level|
  {
    if k == 0 then [] else AddChildren(g, placed, NextLevelOf(g, placed, level, k - 1), ChildrenOf(g, level[k - 1]))
  }

  /** The nested loop of layout.js:51-58. */
  method NextLevel(g: Graph, placed: set<string>, level: seq<string>) returns (next: seq<string>)
    ensures next == NextLevelOf(g, placed, level, |level|)
  {
    next := [];
    for k := 0 to |level|
      invariant next == NextLevelOf(g, placed, level, k)
    {
      var kids := ChildrenOf(g, level[k]);
      ghost var start := next;
      for m := 0 to |kids|
        invariant next == AddChildren(g, placed, start, kids[..m])
      {
        assert kids[..m + 1][..m] == kids[..m];
        var child := kids[m];
        if child in placed {
          continue;
        }
        var allParentsAssigned := AllAssigned(ParentsOf(g, child), placed);
        if allParentsAssigned && child !in next {
          next := next + [child];
        }
      }
      assert kids[..|kids|] == kids;
    }
  }

  lemma {:induction false} AddChildrenMembers(g: Graph, placed: set<string>, acc: seq<string>, kids: seq<string>, c: string)
    ensures c in AddChildren(g, placed, acc, kids) <==>
              c in acc || (c in kids && c !in placed && AllAssigned(ParentsOf(g, c), placed))
    decreases |kids|
  {
    if kids != [] {
      AddChildrenMembers(g, placed, acc, kids[..|kids| - 1], c);
      assert kids == kids[..|kids| - 1] + [kids[|kids| - 1]];
    }
  }

  lemma {:induction false} AddChildrenNoDup(g: Graph, placed: set<string>, acc: seq<string>, kids: seq<string>)
    requires NoDup(acc)
    ensures NoDup(AddChildren(g, placed, acc, kids))
    decreases |kids|
  {
    if kids != [] {
      AddChildrenNoDup(g, placed, acc, kids[..|kids| - 1]);
    }
  }

  /** A name is in the next level exactly when it is unplaced, a child of some name of the
      level, and all its parents are placed; and it is there once. */
  lemma {:induction false} NextLevelMembers(g: Graph, placed: set<string>, level: seq<string>, k: nat, c: string)
    requires k <= |level|
    ensures c in NextLevelOf(g, placed, level, k) <==>
              c !in placed && AllAssigned(ParentsOf(g, c), placed)
              && exists j :: 0 <= j < k && c in ChildrenOf(g, level[j])
    ensures NoDup(NextLevelOf(g, placed, level, k))
  {
    if k > 0 {
      NextLevelMembers(g, placed, level, k - 1, c);
      AddChildrenMembers(g, placed, NextLevelOf(g, placed, level, k - 1), ChildrenOf(g, level[k - 1]), c);
      AddChildrenNoDup(g, placed, NextLevelOf(g, placed, level, k - 1), ChildrenOf(g, level[k - 1]));
    }
  }

  /** Every child is a table. */
  ghost predicate Closed(g: Graph, names: set<string>) {
    forall t, x :: x in ChildrenOf(g, t) ==> x in names
  }

  /** The layers so far and the set of placed names. */
  datatype LayerState = LayerState(layers: seq<seq<string>>, placed: set<string>)

  /** What the loop may start an iteration with: a level of unplaced tables. */
  predicate CanStep(names: set<string>, current: seq<string>, st: LayerState) {
    st.placed <= names && forall n :: n in current ==> n in names && n !in st.placed
  }

  function LevelSet(level: seq<string>): set<string> {
    set n | n in level
  }

  lemma SmallerRemainder(names: set<string>, before: set<string>, added: set<string>)
    requires before <= names && added <= names && added != {} && added !! before
    ensures |names - (before + added)| < |names - before|
  {
    var x :| x in added;
    assert names - (before + added) < names - before by {
      assert x in names - before && x !in names - (before + added);
    }
  }

  /** The next level holds only tables not placed yet. */
  lemma NextLevelFresh(g: Graph, names: set<string>, placed: set<string>, level: seq<string>)
    requires Closed(g, names)
    ensures forall c :: c in NextLevelOf(g, placed, level, |level|) ==> c in names && c !in placed
  {
    forall c | c in NextLevelOf(g, placed, level, |level|) ensures c in names && c !in placed {
      NextLevelMembers(g, placed, level, |level|, c);
    }
  }

  /** `currentLevel.sort(...)`: most children first. */
  function StepLevel(g: Graph, current: seq<string>): seq<string> {
    SortBy(current, ByChildren(g))
  }

  /** The state after one iteration: the sorted level appended and its names placed. */
  function StepState(g: Graph, current: seq<string>, st: LayerState): LayerState {
    var level := StepLevel(g, current);
    LayerState(st.layers + [level], st.placed + LevelSet(level))
  }

  /** The level the next iteration starts with. */
  function StepNext(g: Graph, current: seq<string>, st: LayerState): seq<string> {
    var level := StepLevel(g, current);
    NextLevelOf(g, StepState(g, current, st).placed, level, |level|)
  }

  /** An iteration from a level of unplaced tables leads to one again, with fewer tables left. */
  lemma StepFacts(g: Graph, names: set<string>, current: seq<string>, st: LayerState)
    requires Closed(g, names) && CanStep(names, current, st) && current != []
    ensures forall n :: n in StepLevel(g, current) <==> n in current
    ensures CanStep(names, StepNext(g, current, st), StepState(g, current, st))
    ensures |names - StepState(g, current, st).placed| < |names - st.placed|
  {
    var level := StepLevel(g, current);
    SortByMembers(current, ByChildren(g));
    assert level[0] in LevelSet(level);
    SmallerRemainder(names, st.placed, LevelSet(level));
    NextLevelFresh(g, names, StepState(g, current, st).placed, level);
  }

  /** The `while` loop of layout.js:46-60, from a current level and a state. */
  function LayerLoop(g: Graph, names: set<string>, current: seq<string>, st: LayerState): LayerState
    requires Closed(g, names) && CanStep(names, current, st)
    decreases |names - st.placed|
  {
    if current == [] then st
    else
      StepFacts(g, names, current, st);
      LayerLoop(g, names, StepNext(g, current, st), StepState(g, current, st))
  }

  lemma SeedCanStep(tables: seq<Table>, g: Graph)
    requires |tables| > 0
    ensures CanStep(NameSet(tables), Seed(tables, g), LayerState([], {}))
  {
    var byRefs := SortBy(tables, TableByChildren(g));
    assert byRefs[0] in multiset(tables);
  }

  /** The layers of the walk, before the unreached tables are added. */
  function WalkLayers(tables: seq<Table>, g: Graph): LayerState
    requires |tables| > 0 && Closed(g, NameSet(tables))
  {
    SeedCanStep(tables, g);
    LayerLoop(g, NameSet(tables), Seed(tables, g), LayerState([], {}))
  }

  function Unassigned(placed: set<string>): string -> bool {
    n => n !in placed
  }

  /** The last layer: the tables the walk did not place, in table order. */
  function Orphans(tables: seq<Table>, st: LayerState): seq<string> {
    NamesWhere(tables, Unassigned(st.placed))
  }

  /** All layers: the walk's, then the unreached tables, if any. */
  function LayersOf(tables: seq<Table>, g: Graph): seq<seq<string>>
    requires |tables| > 0 && Closed(g, NameSet(tables))
  {
    var st := WalkLayers(tables, g);
    st.layers + (if Orphans(tables, st) != [] then [Orphans(tables, st)] else [])
  }

  /** `currentLevel.forEach(n => assigned.add(n))`. */
  method PlaceLevel(placed: set<string>, level: seq<string>) returns (r: set<string>)
    ensures r == placed + LevelSet(level)
  {
    r := placed;
    for j := 0 to |level|
      invariant r == placed + LevelSet(level[..j])
    {
      assert LevelSet(level[..j + 1]) == LevelSet(level[..j]) + {level[j]} by {
        assert level[..j + 1] == level[..j] + [level[j]];
      }
      r := r + {level[j]};
    }
    assert level[..|level|] == level;
  }

  /** The first level (layout.js:40-44). */
  method FirstLevel(tables: seq<Table>, g: Graph) returns (current: seq<string>)
    requires |tables| > 0
    ensures current == Seed(tables, g)
  {
    current := NamesWhere(tables, NoParents(g));
    if |current| == 0 {
      var byRefs := SortBy(tables, TableByChildren(g));
      current := [byRefs[0].name];
    }
  }

  /** One iteration of the loop of layout.js:46-60. */
  method Step(g: Graph, current: seq<string>, layers: seq<seq<string>>, placed: set<string>)
    returns (layers': seq<seq<string>>, placed': set<string>, next: seq<string>)
    ensures LayerState(layers', placed') == StepState(g, current, LayerState(layers, placed))
    ensures next == StepNext(g, current, LayerState(layers, placed))
  {
    var level := SortBy(current, ByChildren(g));
    layers' := layers + [level];
    placed' := PlaceLevel(placed, level);
    next := NextLevel(g, placed', level);
  }

  /** The `while` loop of layout.js:46-60. */
  method WalkLoop(g: Graph, names: set<string>, seed: seq<string>) returns (st: LayerState)
    requires Closed(g, names) && CanStep(names, seed, LayerState([], {}))
    ensures st == LayerLoop(g, names, seed, LayerState([], {}))
  {
    var current := seed;
    var placed: set<string> := {};
    var layers: seq<seq<string>> := [];
    while current != []
      invariant CanStep(names, current, LayerState(layers, placed))
      invariant LayerLoop(g, names, current, LayerState(layers, placed)) == LayerLoop(g, names, seed, LayerState([], {}))
      decreases |names - placed|
    {
      ghost var st0 := LayerState(layers, placed);
      LoopUnfold(g, names, current, st0);
      var next;
      layers, placed, next := Step(g, current, layers, placed);
      current := next;
    }
    st := LayerState(layers, placed);
  }

  /** Phase 1 (layout.js:36-63). */
  method AssignLayers(tables: seq<Table>, g: Graph) returns (layers: seq<seq<string>>)
    requires |tables| > 0 && Closed(g, NameSet(tables))
    ensures layers == LayersOf(tables, g)
  {
    var seed := FirstLevel(tables, g);
    SeedCanStep(tables, g);
    var st := WalkLoop(g, NameSet(tables), seed);
    layers := st.layers;
    var orphans := NamesWhere(tables, Unassigned(st.placed));
    if |orphans| > 0 {
      layers := layers + [orphans];
    }
  }

  lemma SingletonNoDup(x: string)
    ensures NoDup([x])
  {
  }

  lemma NoDupConcat(a: seq<string>, b: seq<string>)
    requires NoDup(a) && NoDup(b) && forall x :: x in a ==> x !in b
    ensures NoDup(a + b)
  {
    assert multiset(a + b) == multiset(a) + multiset(b);
    forall x ensures multiset(a + b)[x] <= 1 {
      if x in a {
        assert x !in multiset(b);
      } else {
        assert x !in multiset(a);
      }
    }
  }

  /** The layers list the placed tables. */
  ghost predicate ListsPlaced(st: LayerState) {
    forall x :: x in Flatten(st.layers) <==> x in st.placed
  }

  lemma StepListsPlaced(g: Graph, current: seq<string>, st: LayerState)
    requires ListsPlaced(st)
    ensures ListsPlaced(StepState(g, current, st))
  {
    FlattenAppend(st.layers, StepLevel(g, current));
  }

  /** b starts with a. */
  predicate Extends(a: seq<seq<string>>, b: seq<seq<string>>) {
    |a| <= |b| && b[..|a|] == a
  }

  /** One iteration of the loop, unfolded. */
  lemma LoopUnfold(g: Graph, names: set<string>, current: seq<string>, st: LayerState)
    requires Closed(g, names) && CanStep(names, current, st) && current != []
    ensures CanStep(names, StepNext(g, current, st), StepState(g, current, st))
    ensures |names - StepState(g, current, st).placed| < |names - st.placed|
    ensures LayerLoop(g, names, current, st) == LayerLoop(g, names, StepNext(g, current, st), StepState(g, current, st))
  {
    StepFacts(g, names, current, st);
  }

  lemma ExtendsTrans(a: seq<seq<string>>, b: seq<seq<string>>, c: seq<seq<string>>)
    requires Extends(a, b) && Extends(b, c)
    ensures Extends(a, c)
  {
    assert c[..|b|][..|a|] == c[..|a|];
  }

  lemma StepExtends(g: Graph, current: seq<string>, st: LayerState)
    ensures Extends(st.layers, StepState(g, current, st).layers)
  {
    assert (st.layers + [StepLevel(g, current)])[..|st.layers|] == st.layers;
  }

  /** The loop only adds layers: what it starts with stays. */
  lemma {:induction false} LoopPrefix(g: Graph, names: set<string>, current: seq<string>, st: LayerState)
    requires Closed(g, names) && CanStep(names, current, st)
    ensures Extends(st.layers, LayerLoop(g, names, current, st).layers)
    decreases |names - st.placed|
  {
    if current != [] {
      StepFacts(g, names, current, st);
      var st' := StepState(g, current, st);
      LoopPrefix(g, names, StepNext(g, current, st), st');
      StepExtends(g, current, st);
      ExtendsTrans(st.layers, st'.layers, LayerLoop(g, names, current, st).layers);
    }
  }

  /** The first level the loop adds is the sorted current level. */
  lemma LoopFirstAdded(g: Graph, names: set<string>, current: seq<string>, st: LayerState)
    requires Closed(g, names) && CanStep(names, current, st) && current != []
    ensures |LayerLoop(g, names, current, st).layers| > |st.layers|
    ensures LayerLoop(g, names, current, st).layers[|st.layers|] == StepLevel(g, current)
  {
    LoopUnfold(g, names, current, st);
    var st' := StepState(g, current, st);
    LoopPrefix(g, names, StepNext(g, current, st), st');
    var r := LayerLoop(g, names, current, st).layers;
    assert r[..|st'.layers|][|st.layers|] == r[|st.layers|];
  }

  /** The loop keeps the layers listing the placed tables, all of them tables. */
  lemma {:induction false} LoopListsPlaced(g: Graph, names: set<string>, current: seq<string>, st: LayerState)
    requires Closed(g, names) && CanStep(names, current, st) && ListsPlaced(st)
    ensures ListsPlaced(LayerLoop(g, names, current, st))
    ensures LayerLoop(g, names, current, st).placed <= names
    decreases |names - st.placed|
  {
    if current != [] {
      StepFacts(g, names, current, st);
      StepListsPlaced(g, current, st);
      LoopListsPlaced(g, names, StepNext(g, current, st), StepState(g, current, st));
    }
  }

  lemma StepNoDup(g: Graph, names: set<string>, current: seq<string>, st: LayerState)
    requires Closed(g, names) && CanStep(names, current, st) && ListsPlaced(st) && current != []
    requires NoDup(current) && NoDup(Flatten(st.layers))
    ensures NoDup(StepNext(g, current, st)) && NoDup(Flatten(StepState(g, current, st).layers))
  {
    var level := StepLevel(g, current);
    SortByMembers(current, ByChildren(g));
    NextLevelMembers(g, StepState(g, current, st).placed, level, |level|, "");
    FlattenAppend(st.layers, level);
    NoDupConcat(Flatten(st.layers), level);
  }

  /** The loop keeps every name in the layers at most once. */
  lemma {:induction false} LoopNoDup(g: Graph, names: set<string>, current: seq<string>, st: LayerState)
    requires Closed(g, names) && CanStep(names, current, st) && ListsPlaced(st)
    requires NoDup(current) && NoDup(Flatten(st.layers))
    ensures NoDup(Flatten(LayerLoop(g, names, current, st).layers))
    decreases |names - st.placed|
  {
    if current != [] {
      StepFacts(g, names, current, st);
      StepNoDup(g, names, current, st);
      StepListsPlaced(g, current, st);
      LoopNoDup(g, names, StepNext(g, current, st), StepState(g, current, st));
    }
  }

  /** Every table of layer k >= 1 has all its parents in the layers before k. */
  ghost predicate ParentsBefore(g: Graph, layers: seq<seq<string>>) {
    forall k, n, p :: 1 <= k < |layers| && n in layers[k] && p in ParentsOf(g, n) ==> p in Flatten(layers[..k])
  }

  /** Every table of the level has its parents placed. */
  ghost predicate ParentsPlaced(g: Graph, current: seq<string>, placed: set<string>) {
    forall n, p :: n in current && p in ParentsOf(g, n) ==> p in placed
  }

  lemma StepParentsBefore(g: Graph, names: set<string>, current: seq<string>, st: LayerState)
    requires Closed(g, names) && CanStep(names, current, st) && ListsPlaced(st) && current != []
    requires ParentsBefore(g, st.layers)
    requires |st.layers| > 0 ==> ParentsPlaced(g, current, st.placed)
    ensures ParentsBefore(g, StepState(g, current, st).layers)
  {
    var level := StepLevel(g, current);
    SortByMembers(current, ByChildren(g));
    var layers' := st.layers + [level];
    forall k, n, p | 1 <= k < |layers'| && n in layers'[k] && p in ParentsOf(g, n)
      ensures p in Flatten(layers'[..k])
    {
      if k < |st.layers| {
        assert layers'[..k] == st.layers[..k];
      } else {
        assert layers'[..k] == st.layers;
      }
    }
  }

  lemma StepParentsPlaced(g: Graph, current: seq<string>, st: LayerState)
    ensures ParentsPlaced(g, StepNext(g, current, st), StepState(g, current, st).placed)
  {
    var level := StepLevel(g, current);
    var placed := StepState(g, current, st).placed;
    forall n, p | n in StepNext(g, current, st) && p in ParentsOf(g, n) ensures p in placed {
      NextLevelMembers(g, placed, level, |level|, n);
    }
  }

  lemma {:induction false} LoopParentsBefore(g: Graph, names: set<string>, current: seq<string>, st: LayerState)
    requires Closed(g, names) && CanStep(names, current, st) && ListsPlaced(st)
    requires ParentsBefore(g, st.layers)
    requires |st.layers| > 0 ==> ParentsPlaced(g, current, st.placed)
    ensures ParentsBefore(g, LayerLoop(g, names, current, st).layers)
    decreases |names - st.placed|
  {
    if current != [] {
      StepFacts(g, names, current, st);
      StepParentsBefore(g, names, current, st);
      StepParentsPlaced(g, current, st);
      StepListsPlaced(g, current, st);
      LoopParentsBefore(g, names, StepNext(g, current, st), StepState(g, current, st));
    }
  }

  lemma WalkListsPlaced(tables: seq<Table>, g: Graph)
    requires |tables| > 0 && Closed(g, NameSet(tables))
    ensures ListsPlaced(WalkLayers(tables, g)) && WalkLayers(tables, g).placed <= NameSet(tables)
  {
    SeedCanStep(tables, g);
    LoopListsPlaced(g, NameSet(tables), Seed(tables, g), LayerState([], {}));
  }

  lemma OrphansMembers(tables: seq<Table>, st: LayerState)
    ensures forall n :: n in Orphans(tables, st) <==> n in NameSet(tables) && n !in st.placed
  {
    forall n ensures n in Orphans(tables, st) <==> n in NameSet(tables) && n !in st.placed {
      assert Unassigned(st.placed)(n) <==> n !in st.placed;
    }
  }

  /** All layers one after the other: the walk's, then the unreached tables. */
  lemma FlattenLayersOf(tables: seq<Table>, g: Graph)
    requires |tables| > 0 && Closed(g, NameSet(tables))
    ensures Flatten(LayersOf(tables, g)) == Flatten(WalkLayers(tables, g).layers) + Orphans(tables, WalkLayers(tables, g))
  {
    var st := WalkLayers(tables, g);
    if Orphans(tables, st) != [] {
      FlattenAppend(st.layers, Orphans(tables, st));
    } else {
      assert LayersOf(tables, g) == st.layers;
    }
  }

  /** Every table is in some layer, and every name in a layer is a table. */
  lemma LayersCover(tables: seq<Table>, g: Graph)
    requires |tables| > 0 && Closed(g, NameSet(tables))
    ensures forall n :: n in Flatten(LayersOf(tables, g)) <==> n in NameSet(tables)
  {
    var st := WalkLayers(tables, g);
    WalkListsPlaced(tables, g);
    FlattenLayersOf(tables, g);
    OrphansMembers(tables, st);
  }

  lemma SeedNoDup(tables: seq<Table>, g: Graph)
    requires |tables| > 0 && NoDup(TableNames(tables))
    ensures NoDup(Seed(tables, g))
  {
    if Roots(tables, g) != [] {
      NamesWhereNoDup(tables, NoParents(g));
    } else {
      SingletonNoDup(Seed(tables, g)[0]);
    }
  }

  lemma WalkNoDup(tables: seq<Table>, g: Graph)
    requires |tables| > 0 && Closed(g, NameSet(tables)) && NoDup(TableNames(tables))
    ensures NoDup(Flatten(WalkLayers(tables, g).layers))
  {
    SeedCanStep(tables, g);
    SeedNoDup(tables, g);
    LoopNoDup(g, NameSet(tables), Seed(tables, g), LayerState([], {}));
  }

  lemma LayersNoDup(tables: seq<Table>, g: Graph)
    requires |tables| > 0 && Closed(g, NameSet(tables)) && NoDup(TableNames(tables))
    ensures NoDup(Flatten(LayersOf(tables, g)))
  {
    var st := WalkLayers(tables, g);
    WalkNoDup(tables, g);
    WalkListsPlaced(tables, g);
    OrphansMembers(tables, st);
    NamesWhereNoDup(tables, Unassigned(st.placed));
    FlattenLayersOf(tables, g);
    NoDupConcat(Flatten(st.layers), Orphans(tables, st));
  }

  lemma SameMembersNoDup(a: seq<string>, b: seq<string>)
    requires NoDup(a) && NoDup(b) && forall x :: x in a <==> x in b
    ensures multiset(a) == multiset(b)
  {
    forall x ensures multiset(a)[x] == multiset(b)[x] {
      assert x in multiset(a) <==> x in a;
      assert x in multiset(b) <==> x in b;
    }
  }

  /** With distinct table names, every table is in exactly one layer, once. */
  lemma LayersPartition(tables: seq<Table>, g: Graph)
    requires |tables| > 0 && Closed(g, NameSet(tables))
    requires NoDup(TableNames(tables))
    ensures multiset(Flatten(LayersOf(tables, g))) == multiset(TableNames(tables))
  {
    LayersNoDup(tables, g);
    LayersCover(tables, g);
    SameMembersNoDup(Flatten(LayersOf(tables, g)), TableNames(tables));
  }

  /** A table placed by the walk in layer k >= 1 has all its parents in layers before k. */
  lemma WalkParentsBefore(tables: seq<Table>, g: Graph)
    requires |tables| > 0 && Closed(g, NameSet(tables))
    ensures ParentsBefore(g, WalkLayers(tables, g).layers)
  {
    SeedCanStep(tables, g);
    LoopParentsBefore(g, NameSet(tables), Seed(tables, g), LayerState([], {}));
  }

  lemma SeedNonEmpty(tables: seq<Table>, g: Graph)
    requires |tables| > 0
    ensures Seed(tables, g) != []
  {
  }

  lemma FirstLayerIsSortedSeed(tables: seq<Table>, g: Graph)
    requires |tables| > 0 && Closed(g, NameSet(tables))
    ensures |LayersOf(tables, g)| > 0 && LayersOf(tables, g)[0] == StepLevel(g, Seed(tables, g))
  {
    SeedCanStep(tables, g);
    SeedNonEmpty(tables, g);
    LoopFirstAdded(g, NameSet(tables), Seed(tables, g), LayerState([], {}));
    assert WalkLayers(tables, g).layers[..|WalkLayers(tables, g).layers|] == WalkLayers(tables, g).layers;
  }

  /** Layer 0 holds the tables without parents, sorted by children count. */
  lemma FirstLayerRoots(tables: seq<Table>, g: Graph)
    requires |tables| > 0 && Closed(g, NameSet(tables)) && Roots(tables, g) != []
    ensures |LayersOf(tables, g)| > 0
    ensures multiset(LayersOf(tables, g)[0]) == multiset(Roots(tables, g))
    ensures forall n :: n in LayersOf(tables, g)[0] <==> n in NameSet(tables) && ParentsOf(g, n) == []
  {
    FirstLayerIsSortedSeed(tables, g);
    var roots := Roots(tables, g);
    assert Seed(tables, g) == roots;
    SortByMembers(roots, ByChildren(g));
    forall n ensures n in roots <==> n in NameSet(tables) && ParentsOf(g, n) == [] {
      assert NoParents(g)(n) <==> ParentsOf(g, n) == [];
    }
  }

  /** When every table has a parent, layer 0 is the one table with the most children, the
      earliest of them on ties. */
  lemma FirstLayerFallback(tables: seq<Table>, g: Graph) returns (i: nat)
    requires |tables| > 0 && Closed(g, NameSet(tables)) && Roots(tables, g) == []
    ensures |LayersOf(tables, g)| > 0
    ensures i < |tables| && LayersOf(tables, g)[0] == [tables[i].name]
    ensures forall k :: 0 <= k < |tables| ==> |ChildrenOf(g, tables[k].name)| <= |ChildrenOf(g, tables[i].name)|
    ensures forall k :: 0 <= k < i ==> |ChildrenOf(g, tables[k].name)| < |ChildrenOf(g, tables[i].name)|
  {
    FirstLayerIsSortedSeed(tables, g);
    var key := TableByChildren(g);
    i := FirstMin(tables, key);
    SortByHead(tables, key);
    var seed := Seed(tables, g);
    assert seed == [tables[i].name];
    assert StepLevel(g, seed) == seed;
    forall k | 0 <= k < |tables| ensures |ChildrenOf(g, tables[k].name)| <= |ChildrenOf(g, tables[i].name)| {
      assert key(tables[i]) <= key(tables[k]);
    }
    forall k | 0 <= k < i ensures |ChildrenOf(g, tables[k].name)| < |ChildrenOf(g, tables[i].name)| {
      assert key(tables[k]) > key(tables[i]);
    }
  }

  /** No name is in two layers, and no layer holds a name twice. */
  ghost predicate DisjointLayers(ls: seq<seq<string>>) {
    && (forall i :: 0 <= i < |ls| ==> NoDup(ls[i]))
    && (forall i, j, n :: 0 <= i < j < |ls| && n in ls[i] ==> n !in ls[j])
  }

  lemma NoDupSplit(a: seq<string>, b: seq<string>)
    requires NoDup(a + b)
    ensures NoDup(a) && NoDup(b) && forall n :: n in a ==> n !in b
  {
    var m := multiset(a + b);
    assert m == multiset(a) + multiset(b);
    forall x ensures multiset(a)[x] <= 1 && multiset(b)[x] <= 1 {
      assert m[x] == multiset(a)[x] + multiset(b)[x];
    }
    forall n | n in a ensures n !in b {
      assert m[n] == multiset(a)[n] + multiset(b)[n];
      assert n in multiset(a) && (n in b <==> n in multiset(b));
    }
  }

  /** Layers whose concatenation has no repeats are disjoint. */
  lemma {:induction false} NoDupLayersDisjoint(ls: seq<seq<string>>)
    requires NoDup(Flatten(ls))
    ensures DisjointLayers(ls)
    decreases |ls|
  {
    if ls != [] {
      var init := ls[..|ls| - 1];
      NoDupSplit(Flatten(init), ls[|ls| - 1]);
      NoDupLayersDisjoint(init);
      forall i, j, n | 0 <= i < j < |ls| && n in ls[i] ensures n !in ls[j] {
        if j == |ls| - 1 {
          FlattenHas(init, i, n);
        } else {
          assert init[i] == ls[i] && init[j] == ls[j];
        }
      }
      forall i | 0 <= i < |ls| ensures NoDup(ls[i]) {
        if i < |ls| - 1 {
          assert init[i] == ls[i];
        }
      }
    }
  }

  /** A name of a layer is in the concatenated layers. */
  lemma {:induction false} FlattenHas(ls: seq<seq<string>>, i: nat, n: string)
    requires i < |ls| && n in ls[i]
    ensures n in Flatten(ls)
    decreases |ls|
  {
    if i < |ls| - 1 {
      var init := ls[..|ls| - 1];
      assert init[i] == ls[i];
      FlattenHas(init, i, n);
    }
  }
}
