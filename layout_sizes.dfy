/**
  The size of a table box (js/er-diagram/layout.js:14-20, 146-165) and the render constants it
  uses (`ERDiagram.RENDER`, js/er-diagram/main.js:24-27). Text widths come from the canvas's
  `measureText`, which is a parameter here: it is given the font and the text.
*/
module LayoutSizes {
  import opened ErSchema

  const HeaderHeight: real := 36.0
  const RowHeight: real := 26.0
  const TableMinWidth: real := 240.0
  const TableMaxWidth: real := 380.0

  /** The two fonts set on the context before measuring: the bold header font and the
      monospace row font. */
  datatype Font = HeaderFont | RowFont

  /** `ctx.measureText(text).width` with the given font set. */
  type Measure = (Font, string) -> real

  const KeyIcon: string := "\U{1F511}"
  const LinkIcon: string := "\U{1F517}"
  const UniqueIcon: string := "\U{25C6}"

  /** The place of an icon in the list: key, link, diamond. */
  function IconRank(icon: string): nat {
    if icon == KeyIcon then 0 else if icon == LinkIcon then 1 else 2
  }

  /** `getColumnIcons`: a key for a primary key, a link for a foreign key, a diamond for a
      unique column that is not a primary key, in that order. */
  function ColumnIcons(c: Column): (r: seq<string>)
    ensures KeyIcon in r <==> c.pk
    ensures LinkIcon in r <==> c.fk.Some?
    ensures UniqueIcon in r <==> c.unique && !c.pk
    ensures forall i :: 0 <= i < |r| ==> r[i] == KeyIcon || r[i] == LinkIcon || r[i] == UniqueIcon
    ensures forall i, j :: 0 <= i < j < |r| ==> IconRank(r[i]) < IconRank(r[j])
  {
    (if c.pk then [KeyIcon] else []) + (if c.fk.Some? then [LinkIcon] else [])
    + (if c.unique && !c.pk then [UniqueIcon] else [])
  }

  function Concat(parts: seq<string>): string {
    if parts == [] then [] else parts[0] + Concat(parts[1..])
  }

  /** `icons.join('')`, written out per icon. */
  function IconText(c: Column): string {
    (if c.pk then KeyIcon else "") + (if c.fk.Some? then LinkIcon else "")
    + (if c.unique && !c.pk then UniqueIcon else "")
  }

  lemma IconTextIsJoin(c: Column)
    ensures IconText(c) == Concat(ColumnIcons(c))
  {
    var a := if c.pk then [KeyIcon] else [];
    var b := if c.fk.Some? then [LinkIcon] else [];
    var u := if c.unique && !c.pk then [UniqueIcon] else [];
    assert ColumnIcons(c) == a + b + u;
    ConcatAppend(a + b, u);
    ConcatAppend(a, b);
    ConcatOption(c.pk, KeyIcon);
    ConcatOption(c.fk.Some?, LinkIcon);
    ConcatOption(c.unique && !c.pk, UniqueIcon);
  }

  lemma ConcatOption(p: bool, x: string)
    ensures Concat(if p then [x] else []) == if p then x else ""
  {
    if p {
      assert [x][1..] == [];
    }
  }

  lemma {:induction false} ConcatAppend(xs: seq<string>, ys: seq<string>)
    ensures Concat(xs + ys) == Concat(xs) + Concat(ys)
    decreases |xs|
  {
    if xs == [] {
      assert xs + ys == ys;
    } else {
      assert (xs + ys)[1..] == xs[1..] + ys;
      ConcatAppend(xs[1..], ys);
    }
  }

  /** `${icons.join('')} ${col.name}  ${col.type}`. */
  function RowText(c: Column): string {
    IconText(c) + " " + c.name + "  " + c.typ
  }

  /** The measured width of the header: the table name in the header font, plus 60. */
  function HeaderWidth(t: Table, measure: Measure): real {
    measure(HeaderFont, t.name) + 60.0
  }

  /** The measured width of a row: its text in the row font, plus 40. */
  function RowWidth(c: Column, measure: Measure): real {
    measure(RowFont, RowText(c)) + 40.0
  }

  function Max(a: real, b: real): real { if a >= b then a else b }
  function Min(a: real, b: real): real { if a <= b then a else b }

  /** The row widths of a table, one per column. */
  function RowWidths(t: Table, measure: Measure): (r: seq<real>)
    ensures |r| == |t.columns|
    ensures forall i :: 0 <= i < |r| ==> r[i] == RowWidth(t.columns[i], measure)
  {
    seq(|t.columns|, i requires 0 <= i < |t.columns| => RowWidth(t.columns[i], measure))
  }

  /** `maxW` after the rows ws, starting from the header width: the largest of them all. */
  function Widest(head: real, ws: seq<real>): (r: real)
    ensures r >= head && forall i :: 0 <= i < |ws| ==> r >= ws[i]
    ensures r == head || exists i :: 0 <= i < |ws| && r == ws[i]
    decreases |ws|
  {
    if ws == [] then head
    else
      var m := Widest(head, ws[..|ws| - 1]);
      Max(m, ws[|ws| - 1])
  }

  /** `Math.max(tableMinWidth, Math.min(tableMaxWidth, maxW + 30))`. */
  function TableWidth(t: Table, measure: Measure): (w: real)
    ensures TableMinWidth <= w <= TableMaxWidth
    ensures var v := Widest(HeaderWidth(t, measure), RowWidths(t, measure)) + 30.0;
            (TableMinWidth <= v <= TableMaxWidth ==> w == v)
            && (v < TableMinWidth ==> w == TableMinWidth)
            && (v > TableMaxWidth ==> w == TableMaxWidth)
  {
    Max(TableMinWidth, Min(TableMaxWidth, Widest(HeaderWidth(t, measure), RowWidths(t, measure)) + 30.0))
  }

  /** `computeTableWidth`. */
  method ComputeTableWidth(t: Table, measure: Measure) returns (w: real)
    ensures w == TableWidth(t, measure)
  {
    ghost var ws := RowWidths(t, measure);
    var maxW := measure(HeaderFont, t.name) + 60.0;
    for i := 0 to |t.columns|
      invariant maxW == Widest(HeaderWidth(t, measure), ws[..i])
    {
      var text := RowText(t.columns[i]);
      var rw := measure(RowFont, text) + 40.0;
      assert ws[..i + 1][..i] == ws[..i];
      maxW := Max(maxW, rw);
    }
    assert ws[..|t.columns|] == ws;
    w := Max(TableMinWidth, Min(TableMaxWidth, maxW + 30.0));
  }

  /** The `{ w, h }` records of the `dims` map. */
  datatype Dim = Dim(w: real, h: real)

  /** A table's box: its width, and the header, one row per column and 8 more in height. */
  function DimOf(t: Table, measure: Measure): Dim {
    Dim(TableWidth(t, measure), HeaderHeight + |t.columns| as real * RowHeight + 8.0)
  }

  function NameSet(tables: seq<Table>): (r: set<string>)
    ensures forall n :: n in r <==> exists i :: 0 <= i < |tables| && tables[i].name == n
  {
    set i | 0 <= i < |tables| :: tables[i].name
  }

  /** A map filled from the first n tables by `m.set(t.name, f(t))`: a later table of the
      same name overwrites an earlier one. */
  function ByName<V>(tables: seq<Table>, f: Table -> V, n: nat): map<string, V>
    requires n <= |tables|
  {
    if n == 0 then map[] else ByName(tables, f, n - 1)[tables[n - 1].name := f(tables[n - 1])]
  }

  /** The names in the map are those of the tables. */
  lemma {:induction false} ByNameKeys<V>(tables: seq<Table>, f: Table -> V, n: nat)
    requires n <= |tables|
    ensures ByName(tables, f, n).Keys == NameSet(tables[..n])
  {
    if n > 0 {
      ByNameKeys(tables, f, n - 1);
      assert tables[..n] == tables[..n - 1] + [tables[n - 1]];
    }
  }

  /** The last table of a name decides its entry. */
  lemma {:induction false} ByNameLastWins<V>(tables: seq<Table>, f: Table -> V, n: nat, i: nat)
    requires i < n <= |tables|
    requires forall j :: i < j < n ==> tables[j].name != tables[i].name
    ensures tables[i].name in ByName(tables, f, n)
    ensures ByName(tables, f, n)[tables[i].name] == f(tables[i])
  {
    if i < n - 1 {
      ByNameLastWins(tables, f, n - 1, i);
    }
  }

  /** Every entry is the value of some table of that name. */
  lemma {:induction false} ByNameEntry<V>(tables: seq<Table>, f: Table -> V, n: nat, k: string) returns (i: nat)
    requires n <= |tables|
    requires k in ByName(tables, f, n)
    ensures i < n && tables[i].name == k && ByName(tables, f, n)[k] == f(tables[i])
  {
    if k == tables[n - 1].name {
      i := n - 1;
    } else {
      i := ByNameEntry(tables, f, n - 1, k);
    }
  }

  function DimFn(measure: Measure): Table -> Dim {
    t => DimOf(t, measure)
  }

  /** The `dims` map after the first n tables. */
  function DimsOf(tables: seq<Table>, measure: Measure, n: nat): map<string, Dim>
    requires n <= |tables|
  {
    ByName(tables, DimFn(measure), n)
  }

  method ComputeDim(t: Table, measure: Measure) returns (d: Dim)
    ensures d == DimOf(t, measure)
  {
    var w := ComputeTableWidth(t, measure);
    var h := HeaderHeight + |t.columns| as real * RowHeight + 8.0;
    d := Dim(w, h);
  }

  /** The loop of layout.js:15-20. */
  method ComputeDims(tables: seq<Table>, measure: Measure) returns (dims: map<string, Dim>)
    ensures dims == DimsOf(tables, measure, |tables|)
  {
    dims := map[];
    for i := 0 to |tables|
      invariant dims == DimsOf(tables, measure, i)
    {
      var d := ComputeDim(tables[i], measure);
      dims := dims[tables[i].name := d];
    }
  }

  /** Every box in `dims` is 240 to 380 wide and 44 plus 26 per column of its table high. */
  lemma DimsBounds(tables: seq<Table>, measure: Measure, k: string)
    requires k in DimsOf(tables, measure, |tables|)
    ensures TableMinWidth <= DimsOf(tables, measure, |tables|)[k].w <= TableMaxWidth
    ensures exists i :: 0 <= i < |tables| && tables[i].name == k
              && DimsOf(tables, measure, |tables|)[k].h == 44.0 + 26.0 * |tables[i].columns| as real
  {
    var i := ByNameEntry(tables, DimFn(measure), |tables|, k);
    assert DimsOf(tables, measure, |tables|)[k] == DimOf(tables[i], measure);
  }
}
