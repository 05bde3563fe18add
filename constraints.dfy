/**
  `parseTableConstraint` (js/er-diagram/parser.js:183-226) and the column marking it shares
  with the ALTER pass (lines 79-84): a table-level PRIMARY KEY, UNIQUE, FOREIGN KEY or CHECK
  segment is recorded on the table, and the first three also mark the named columns that the
  table has declared so far.
*/
module TableConstraints {
  import opened Wrappers
  import opened Text
  import opened SqlPatterns
  import opened ErSchema

  /** Each part of a split list, trimmed and with its `"` removed. */
  function CleanNames(parts: seq<string>): (r: seq<string>)
    ensures |r| == |parts|
    ensures forall i :: 0 <= i < |parts| ==> r[i] == RemoveAll(Trim(parts[i]), '"')
  {
    if parts == [] then [] else [RemoveAll(Trim(parts[0]), '"')] + CleanNames(parts[1..])
  }

  /** `list.split(',').map(c => c.trim().replace(/"/g, ''))`: never empty. */
  function ColumnList(raw: string): (r: seq<string>)
    ensures |r| == |SplitOn(raw, ',')| >= 1
  {
    CleanNames(SplitOn(raw, ','))
  }

  /** `names.map(c => c.toLowerCase()).includes(name.toLowerCase())`. */
  predicate NamedIn(name: string, names: seq<string>)
    decreases |names|
  {
    |names| > 0 && (Lower(names[0]) == Lower(name) || NamedIn(name, names[1..]))
  }

  /** What a matching column gets: pk and notNull, unique, or the foreign key. */
  datatype Mark = MarkPk | MarkUnique | MarkFk(ref: FkRef)

  function Marked(c: Column, m: Mark): (r: Column)
    ensures r.name == c.name && r.typ == c.typ
    ensures m.MarkPk? ==> r == c.(pk := true, notNull := true)
    ensures m.MarkUnique? ==> r == c.(unique := true)
    ensures m.MarkFk? ==> r == c.(fk := Some(m.ref))
  {
    match m
    case MarkPk => c.(pk := true, notNull := true)
    case MarkUnique => c.(unique := true)
    case MarkFk(ref) => c.(fk := Some(ref))
  }

  /** The column list after the marking loop: the named columns marked, the others as they were. */
  function MarkedColumns(cols: seq<Column>, names: seq<string>, m: Mark): (r: seq<Column>)
    ensures |r| == |cols|
    ensures forall i :: 0 <= i < |cols| ==> r[i] == if NamedIn(cols[i].name, names) then Marked(cols[i], m) else cols[i]
  {
    if cols == [] then []
    else [if NamedIn(cols[0].name, names) then Marked(cols[0], m) else cols[0]] + MarkedColumns(cols[1..], names, m)
  }

  /** `for (const col of table.columns) if (...) col.x = ...`, on the column list. */
  method MarkColumns(cols: seq<Column>, names: seq<string>, m: Mark) returns (r: seq<Column>)
    ensures r == MarkedColumns(cols, names, m)
  {
    r := cols;
    for i := 0 to |cols|
      invariant |r| == |cols|
      invariant forall k :: 0 <= k < i ==> r[k] == if NamedIn(cols[k].name, names) then Marked(cols[k], m) else cols[k]
      invariant forall k :: i <= k < |cols| ==> r[k] == cols[k]
    {
      if NamedIn(cols[i].name, names) {
        r := r[i := Marked(cols[i], m)];
      }
    }
    assert r == MarkedColumns(cols, names, m);
  }

  /** The branch of `parseTableConstraint` that applies to a segment, with what it matched. */
  datatype ConstraintMatch =
    | PkMatch(cols: seq<string>)
    | UniqueMatch(cols: seq<string>)
    | FkMatch(fromCols: seq<string>, toTable: string, toCols: seq<string>)
    | CheckMatch(expression: string)
    | NoMatch

  function PkList(def: string): Option<string> { Leftmost(def, 0, PrimaryKeyListAt) }
  function UniqueList(def: string): Option<string> { Leftmost(def, 0, UniqueListAt) }
  function ForeignKeyParts(def: string): Option<ForeignKeyPart> { Leftmost(def, 0, TableForeignKeyAt) }
  function CheckExpression(def: string): Option<string> { Leftmost(def, 0, CheckAt) }

  /** Only the first pattern that matches, in the order PRIMARY KEY, UNIQUE, FOREIGN KEY,
      CHECK, decides what the segment is. */
  function ClassifyConstraint(def: string): (m: ConstraintMatch)
    ensures m.PkMatch? <==> PkList(def).Some?
    ensures m.UniqueMatch? <==> PkList(def).None? && UniqueList(def).Some?
    ensures m.FkMatch? <==> PkList(def).None? && UniqueList(def).None? && ForeignKeyParts(def).Some?
    ensures m.CheckMatch? <==> PkList(def).None? && UniqueList(def).None? && ForeignKeyParts(def).None? && CheckExpression(def).Some?
    ensures m.PkMatch? ==> m.cols == ColumnList(PkList(def).value)
    ensures m.UniqueMatch? ==> m.cols == ColumnList(UniqueList(def).value)
    ensures m.FkMatch? ==> var f := ForeignKeyParts(def).value;
              m.fromCols == ColumnList(f.fromList) && m.toTable == f.toTable && m.toCols == ColumnList(f.toList)
    ensures m.CheckMatch? ==> m.expression == CheckExpression(def).value
  {
    match PkList(def)
    case Some(l) => PkMatch(ColumnList(l))
    case None =>
      match UniqueList(def)
      case Some(l) => UniqueMatch(ColumnList(l))
      case None =>
        match ForeignKeyParts(def)
        case Some(f) => FkMatch(ColumnList(f.fromList), f.toTable, ColumnList(f.toList))
        case None =>
          match CheckExpression(def)
          case Some(e) => CheckMatch(e)
          case None => NoMatch
  }

  /** The relationship a table-level foreign key adds (parser.js:211-216). */
  function ForeignKeyRelationship(tableName: string, fromCols: seq<string>, toTable: string, toCols: seq<string>): Relationship {
    Relationship("fk_" + tableName + "_" + Join(fromCols, "_"), Endpoint(tableName, fromCols), Endpoint(toTable, toCols), KindFor(fromCols))
  }

  /** The table after a constraint segment, and the relationship it adds. */
  datatype ConstraintEffect = ConstraintEffect(table: Table, rel: Option<Relationship>)

  function TableConstraintEffect(def: string, table: Table, tableName: string): (r: ConstraintEffect)
    ensures r.table.name == table.name && r.table.schema == table.schema
    ensures |r.table.columns| == |table.columns|
    ensures forall i :: 0 <= i < |table.columns| ==> r.table.columns[i].name == table.columns[i].name
    ensures r.rel.Some? <==> ClassifyConstraint(def).FkMatch?
    ensures ClassifyConstraint(def).NoMatch? ==> r.table == table
    ensures ClassifyConstraint(def).CheckMatch? ==>
              r.table == table.(constraints := table.constraints + [CheckConstraint(ClassifyConstraint(def).expression)])
    ensures ClassifyConstraint(def).PkMatch? ==> var cols := ClassifyConstraint(def).cols;
              r.table.constraints == table.constraints + [PkConstraint(cols)]
              && forall i :: 0 <= i < |table.columns| ==>
                   r.table.columns[i] == if NamedIn(table.columns[i].name, cols)
                                         then table.columns[i].(pk := true, notNull := true) else table.columns[i]
    ensures ClassifyConstraint(def).UniqueMatch? ==> var cols := ClassifyConstraint(def).cols;
              r.table.constraints == table.constraints + [UniqueConstraint(cols)]
              && forall i :: 0 <= i < |table.columns| ==>
                   r.table.columns[i] == if NamedIn(table.columns[i].name, cols)
                                         then table.columns[i].(unique := true) else table.columns[i]
    ensures ClassifyConstraint(def).FkMatch? ==> var m := ClassifyConstraint(def);
              r.table.constraints == table.constraints + [FkConstraint(m.fromCols, m.toTable, m.toCols)]
              && r.rel == Some(ForeignKeyRelationship(tableName, m.fromCols, m.toTable, m.toCols))
              && forall i :: 0 <= i < |table.columns| ==>
                   r.table.columns[i] == if NamedIn(table.columns[i].name, m.fromCols)
                                         then table.columns[i].(fk := Some(FkRef(m.toTable, m.toCols[0]))) else table.columns[i]
  {
    match ClassifyConstraint(def)
    case PkMatch(cols) =>
      ConstraintEffect(table.(columns := MarkedColumns(table.columns, cols, MarkPk),
                              constraints := table.constraints + [PkConstraint(cols)]), None)
    case UniqueMatch(cols) =>
      ConstraintEffect(table.(columns := MarkedColumns(table.columns, cols, MarkUnique),
                              constraints := table.constraints + [UniqueConstraint(cols)]), None)
    case FkMatch(fromCols, toTable, toCols) =>
      ConstraintEffect(table.(columns := MarkedColumns(table.columns, fromCols, MarkFk(FkRef(toTable, toCols[0]))),
                              constraints := table.constraints + [FkConstraint(fromCols, toTable, toCols)]),
                       Some(ForeignKeyRelationship(tableName, fromCols, toTable, toCols)))
    case CheckMatch(e) =>
      ConstraintEffect(table.(constraints := table.constraints + [CheckConstraint(e)]), None)
    case NoMatch => ConstraintEffect(table, None)
  }

  /** `parseTableConstraint`, with the table it mutates passed in and returned. */
  method ParseTableConstraint(def: string, table: Table, tableName: string) returns (t: Table, rel: Option<Relationship>)
    ensures ConstraintEffect(t, rel) == TableConstraintEffect(def, table, tableName)
  {
    var m := ClassifyConstraint(def);
    t, rel := table, None;
    match m {
      case PkMatch(cols) =>
        var marked := MarkColumns(table.columns, cols, MarkPk);
        t := table.(columns := marked, constraints := table.constraints + [PkConstraint(cols)]);
      case UniqueMatch(cols) =>
        var marked := MarkColumns(table.columns, cols, MarkUnique);
        t := table.(columns := marked, constraints := table.constraints + [UniqueConstraint(cols)]);
      case FkMatch(fromCols, toTable, toCols) =>
        var marked := MarkColumns(table.columns, fromCols, MarkFk(FkRef(toTable, toCols[0])));
        rel := Some(ForeignKeyRelationship(tableName, fromCols, toTable, toCols));
        t := table.(columns := marked, constraints := table.constraints + [FkConstraint(fromCols, toTable, toCols)]);
      case CheckMatch(e) =>
        t := table.(constraints := table.constraints + [CheckConstraint(e)]);
      case NoMatch =>
    }
  }
}
