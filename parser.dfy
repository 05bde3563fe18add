/**
  `parseSQL` (js/er-diagram/parser.js:5-99): the CREATE TABLE pass, the ALTER TABLE pass and
  the removal of duplicate relationships, each a loop proved against a recursive definition.

  The source fills `tables`, `relationships` and `tableMap` in place, and the ALTER pass
  mutates column records that `tables` and `tableMap` share. Here the three are values:
  `tableMap` maps a lower-cased table name to an index into `tables`, so that an update
  through the map is an update of that entry of `tables`.
*/
module SqlParser {
  import opened Wrappers
  import opened Text
  import opened SqlComments
  import opened SqlScan
  import opened SqlPatterns
  import opened ErSchema
  import opened ColumnDefs
  import opened TableConstraints
  import opened RelationshipDedup

  function OptSeq<T>(o: Option<T>): (r: seq<T>)
    ensures o.Some? ==> r == [o.value]
    ensures o.None? ==> r == []
  {
    if o.Some? then [o.value] else []
  }

  function Names(cols: seq<Column>): (r: seq<string>)
    ensures |r| == |cols| && forall i :: 0 <= i < |cols| ==> r[i] == cols[i].name
  {
    if cols == [] then [] else [cols[0].name] + Names(cols[1..])
  }

  // ---------------------------------------------------------------------------------------
  // One table body (parser.js:40-56)

  /** The table being filled and the relationships collected so far. */
  datatype BodyAcc = BodyAcc(table: Table, rels: seq<Relationship>)

  /** The segment declares a column: it is not blank, does not start like a table
      constraint, and `parseColumnDef` returns a column for it. */
  predicate DeclaresColumn(part: string, tableName: string) {
    var p := Trim(part);
    p != [] && !IsConstraintSegment(p) && ParseColumnDef(p, tableName).Some?
  }

  /** A constraint segment: the table it leaves and the relationship it adds. */
  function ConstraintStep(acc: BodyAcc, p: string, tableName: string): (r: BodyAcc)
    ensures r.table.name == acc.table.name && r.table.schema == acc.table.schema
    ensures Names(r.table.columns) == Names(acc.table.columns)
  {
    var e := TableConstraintEffect(p, acc.table, tableName);
    assert Names(e.table.columns) == Names(acc.table.columns);
    BodyAcc(e.table, acc.rels + OptSeq(e.rel))
  }

  /** A column segment: the column appended, with the relationship of its reference. */
  function ColumnStep(acc: BodyAcc, cp: ColumnParse): (r: BodyAcc)
    ensures r.table.name == acc.table.name && r.table.schema == acc.table.schema
    ensures Names(r.table.columns) == Names(acc.table.columns) + [cp.column.name]
  {
    assert Names(acc.table.columns + [cp.column]) == Names(acc.table.columns) + [cp.column.name];
    BodyAcc(acc.table.(columns := acc.table.columns + [cp.column]), acc.rels + OptSeq(cp.rel))
  }

  /** A segment that is not a table constraint: the column `parseColumnDef` reads from it, if
      any. */
  function ColumnSegment(acc: BodyAcc, p: string, tableName: string): (r: BodyAcc)
    ensures r.table.name == acc.table.name && r.table.schema == acc.table.schema
    ensures Names(r.table.columns) ==
              Names(acc.table.columns) + (if ParseColumnDef(p, tableName).Some? then [ColumnName(p)] else [])
  {
    match ParseColumnDef(p, tableName)
    case None => acc
    case Some(cp) => ColumnStep(acc, cp)
  }

  /** One segment of the body: skipped when blank, a table constraint when it starts like
      one, else a column when `parseColumnDef` returns one. */
  function SegmentStep(acc: BodyAcc, part: string, tableName: string): (r: BodyAcc)
    ensures r.table.name == acc.table.name && r.table.schema == acc.table.schema
    ensures Names(r.table.columns) ==
              Names(acc.table.columns) + (if DeclaresColumn(part, tableName) then [ColumnName(Trim(part))] else [])
  {
    var trimmed := Trim(part);
    if trimmed == [] then acc
    else if IsConstraintSegment(trimmed) then ConstraintStep(acc, trimmed, tableName)
    else ColumnSegment(acc, trimmed, tableName)
  }

  /** The segments processed in order. */
  function BodySpec(parts: seq<string>, tableName: string, start: BodyAcc): (r: BodyAcc)
    ensures r.table.name == start.table.name && r.table.schema == start.table.schema
    decreases |parts|
  {
    if parts == [] then start
    else SegmentStep(BodySpec(parts[..|parts| - 1], tableName, start), parts[|parts| - 1], tableName)
  }

  /** The names of the segments that declare a column, in order. */
  function DeclaredNames(parts: seq<string>, tableName: string): seq<string>
    decreases |parts|
  {
    if parts == [] then []
    else
      var last := parts[|parts| - 1];
      DeclaredNames(parts[..|parts| - 1], tableName)
        + (if DeclaresColumn(last, tableName) then [ColumnName(Trim(last))] else [])
  }

  /** The columns of a table are its column segments in declaration order: a constraint
      segment changes flags of columns already declared, never their names or number. */
  lemma {:induction false} BodyColumnsInDeclarationOrder(parts: seq<string>, tableName: string, start: BodyAcc)
    ensures Names(BodySpec(parts, tableName, start).table.columns) == Names(start.table.columns) + DeclaredNames(parts, tableName)
    decreases |parts|
  {
    if parts != [] {
      BodyColumnsInDeclarationOrder(parts[..|parts| - 1], tableName, start);
    }
  }

  /** The segment loop of parser.js:44-56. */
  method ParseBody(parts: seq<string>, tableName: string, start: BodyAcc) returns (acc: BodyAcc)
    ensures acc == BodySpec(parts, tableName, start)
  {
    acc := start;
    for i := 0 to |parts|
      invariant acc == BodySpec(parts[..i], tableName, start)
    {
      assert parts[..i + 1][..i] == parts[..i];
      var trimmed := Trim(parts[i]);
      if trimmed == [] {
        continue;
      }
      if IsConstraintSegment(trimmed) {
        var t, rel := ParseTableConstraint(trimmed, acc.table, tableName);
        acc := BodyAcc(t, acc.rels + OptSeq(rel));
      } else {
        var col := ParseColumnDef(trimmed, tableName);
        if col.Some? {
          acc := BodyAcc(acc.table.(columns := acc.table.columns + [col.value.column]), acc.rels + OptSeq(col.value.rel));
        }
      }
    }
    assert parts[..|parts|] == parts;
  }

  // ---------------------------------------------------------------------------------------
  // The CREATE TABLE pass (parser.js:15-58)

  /** `tables`, `tableMap` (lower-cased name to index into tables) and `relationships`. */
  datatype Acc = Acc(tables: seq<Table>, tableMap: map<string, nat>, rels: seq<Relationship>)

  const InitAcc := Acc([], map[], [])

  function EmptyTable(h: Header): Table {
    Table(h.name, h.schema, [], [])
  }

  /** The table a balanced body yields, with the relationships of its columns and constraints. */
  function TableOf(s: string, h: Header, e: nat): (b: BodyAcc)
    requires h.bodyStart <= e <= |s|
    ensures b.table.name == h.name && b.table.schema == h.schema
  {
    BodySpec(CommaParts(s[h.bodyStart..e]), h.name, BodyAcc(EmptyTable(h), []))
  }

  /** The header matches from index from on: a balanced body adds a table; either way the
      search resumes right after the header's `(`. */
  function CreatePass(s: string, from: nat, acc: Acc): Acc
    requires from <= |s|
    decreases |s| - from
  {
    match FindCreate(s, from)
    case None => acc
    case Some(f) =>
      var h := f.value;
      match BodyEnd(s, h.bodyStart)
      case None => CreatePass(s, h.bodyStart, acc)
      case Some(e) =>
        CreatePass(s, h.bodyStart, AddTable(acc, TableOf(s, h, e)))
  }

  /** `tables.push(table); tableMap[tableName.toLowerCase()] = table`, and the body's
      relationships appended. */
  function AddTable(acc: Acc, b: BodyAcc): (r: Acc)
    ensures r.tables == acc.tables + [b.table] && r.rels == acc.rels + b.rels
    ensures r.tableMap == acc.tableMap[Lower(b.table.name) := |acc.tables|]
    ensures TableHeads(r.tables) == TableHeads(acc.tables) + [(b.table.name, b.table.schema)]
  {
    var r := Acc(acc.tables + [b.table], acc.tableMap[Lower(b.table.name) := |acc.tables|], acc.rels + b.rels);
    assert r.tables[..|acc.tables|] == acc.tables;
    r
  }

  /** The headers from index from on whose body is balanced, in source order. */
  function BalancedHeaders(s: string, from: nat): seq<Header>
    requires from <= |s|
    decreases |s| - from
  {
    match FindCreate(s, from)
    case None => []
    case Some(f) =>
      (if BodyEnd(s, f.value.bodyStart).Some? then [f.value] else []) + BalancedHeaders(s, f.value.bodyStart)
  }

  /** The name and schema of each table, in order. */
  function TableHeads(ts: seq<Table>): (r: seq<(string, Option<string>)>)
    ensures |r| == |ts|
    decreases |ts|
  {
    if ts == [] then [] else TableHeads(ts[..|ts| - 1]) + [(ts[|ts| - 1].name, ts[|ts| - 1].schema)]
  }

  /** The name and schema of each header, in order. */
  function HeaderHeads(hs: seq<Header>): (r: seq<(string, Option<string>)>)
    ensures |r| == |hs|
  {
    if hs == [] then [] else [(hs[0].name, hs[0].schema)] + HeaderHeads(hs[1..])
  }

  lemma HeaderHeadsCons(h: Header, rest: seq<Header>)
    ensures HeaderHeads([h] + rest) == [(h.name, h.schema)] + HeaderHeads(rest)
  {
    assert ([h] + rest)[1..] == rest;
  }

  lemma HeadsAfterAdd(before: seq<(string, Option<string>)>, h: Header, after: seq<(string, Option<string>)>, rest: seq<Header>)
    requires after == (before + [(h.name, h.schema)]) + HeaderHeads(rest)
    ensures after == before + HeaderHeads([h] + rest)
  {
    HeaderHeadsCons(h, rest);
  }

  lemma CreatePassSkips(s: string, from: nat, acc: Acc, f: Found<Header>)
    requires from <= |s| && FindCreate(s, from) == Some(f) && BodyEnd(s, f.value.bodyStart).None?
    ensures f.value.bodyStart <= |s|
    ensures CreatePass(s, from, acc) == CreatePass(s, f.value.bodyStart, acc)
    ensures BalancedHeaders(s, from) == BalancedHeaders(s, f.value.bodyStart)
  {
  }

  lemma CreatePassAdds(s: string, from: nat, acc: Acc, f: Found<Header>, e: nat)
    requires from <= |s| && FindCreate(s, from) == Some(f) && BodyEnd(s, f.value.bodyStart) == Some(e)
    ensures f.value.bodyStart <= e <= |s|
    ensures CreatePass(s, from, acc) == CreatePass(s, f.value.bodyStart, AddTable(acc, TableOf(s, f.value, e)))
    ensures BalancedHeaders(s, from) == [f.value] + BalancedHeaders(s, f.value.bodyStart)
  {
  }

  /** One table per balanced CREATE TABLE, in source order; a statement whose body never
      closes adds none. */
  lemma {:induction false} TablesInSourceOrder(s: string, from: nat, acc: Acc)
    requires from <= |s|
    ensures TableHeads(CreatePass(s, from, acc).tables) == TableHeads(acc.tables) + HeaderHeads(BalancedHeaders(s, from))
    decreases |s| - from
  {
    var found := FindCreate(s, from);
    if found.Some? {
      var h := found.value.value;
      var end := BodyEnd(s, h.bodyStart);
      if end.None? {
        CreatePassSkips(s, from, acc, found.value);
        TablesInSourceOrder(s, h.bodyStart, acc);
      } else {
        CreatePassAdds(s, from, acc, found.value, end.value);
        var acc' := AddTable(acc, TableOf(s, h, end.value));
        TablesInSourceOrder(s, h.bodyStart, acc');
        HeadsAfterAdd(TableHeads(acc.tables), h, TableHeads(CreatePass(s, h.bodyStart, acc').tables), BalancedHeaders(s, h.bodyStart));
      }
    }
  }

  /** `tableMap` holds every table name, lower-cased, and points at the last table with it. */
  ghost predicate MapPointsAtLast(acc: Acc) {
    && (forall k :: k in acc.tableMap ==>
          && acc.tableMap[k] < |acc.tables|
          && Lower(acc.tables[acc.tableMap[k]].name) == k
          && forall j :: acc.tableMap[k] < j < |acc.tables| ==> Lower(acc.tables[j].name) != k)
    && (forall j :: 0 <= j < |acc.tables| ==> Lower(acc.tables[j].name) in acc.tableMap)
  }

  lemma AddTableKeepsMap(acc: Acc, b: BodyAcc)
    requires MapPointsAtLast(acc)
    ensures MapPointsAtLast(AddTable(acc, b))
  {
    var r := AddTable(acc, b);
    var n := |acc.tables|;
    var key := Lower(b.table.name);
    forall k | k in r.tableMap
      ensures r.tableMap[k] < |r.tables| && Lower(r.tables[r.tableMap[k]].name) == k
      ensures forall j :: r.tableMap[k] < j < |r.tables| ==> Lower(r.tables[j].name) != k
    {
      if k != key {
        assert r.tableMap[k] == acc.tableMap[k] < n;
        assert r.tables[r.tableMap[k]] == acc.tables[acc.tableMap[k]];
        forall j | r.tableMap[k] < j < |r.tables| ensures Lower(r.tables[j].name) != k {
          if j < n {
            assert r.tables[j] == acc.tables[j];
          }
        }
      }
    }
    forall j | 0 <= j < |r.tables| ensures Lower(r.tables[j].name) in r.tableMap {
      if j < n {
        assert r.tables[j] == acc.tables[j];
      }
    }
  }

  lemma {:induction false} CreatePassKeepsMap(s: string, from: nat, acc: Acc)
    requires from <= |s|
    requires MapPointsAtLast(acc)
    ensures MapPointsAtLast(CreatePass(s, from, acc))
    decreases |s| - from
  {
    var found := FindCreate(s, from);
    if found.Some? {
      var h := found.value.value;
      var end := BodyEnd(s, h.bodyStart);
      if end.None? {
        CreatePassSkips(s, from, acc, found.value);
        CreatePassKeepsMap(s, h.bodyStart, acc);
      } else {
        CreatePassAdds(s, from, acc, found.value, end.value);
        AddTableKeepsMap(acc, TableOf(s, h, end.value));
        CreatePassKeepsMap(s, h.bodyStart, AddTable(acc, TableOf(s, h, end.value)));
      }
    }
  }

  // ---------------------------------------------------------------------------------------
  // The ALTER TABLE pass (parser.js:61-85)

  /** The relationship an ALTER statement adds. */
  function AlterRelationship(a: AlterFk): Relationship {
    var fromCols := ColumnList(a.fromList);
    Relationship(a.constraintName, Endpoint(a.fromTable, fromCols), Endpoint(a.toTable, ColumnList(a.toList)), KindFor(fromCols))
  }

  /** The entry of `tables` that `tableMap[fromTable.toLowerCase()]` designates, if any. */
  function AlterTarget(acc: Acc, a: AlterFk): (r: Option<nat>)
    ensures r.Some? <==> Lower(a.fromTable) in acc.tableMap && acc.tableMap[Lower(a.fromTable)] < |acc.tables|
    ensures r.Some? ==> r.value == acc.tableMap[Lower(a.fromTable)]
  {
    var key := Lower(a.fromTable);
    if key in acc.tableMap && acc.tableMap[key] < |acc.tables| then Some(acc.tableMap[key]) else None
  }

  /** The table with every column named in the statement's column list given the foreign
      key to the first referenced column. */
  function MarkForeignKey(t: Table, a: AlterFk): (r: Table)
    ensures r.name == t.name && r.schema == t.schema && r.constraints == t.constraints
    ensures |r.columns| == |t.columns|
    ensures var names := ColumnList(a.fromList);
            var ref := FkRef(a.toTable, ColumnList(a.toList)[0]);
            forall i :: 0 <= i < |t.columns| ==>
              r.columns[i] == if NamedIn(t.columns[i].name, names) then t.columns[i].(fk := Some(ref)) else t.columns[i]
  {
    var names := ColumnList(a.fromList);
    var ref := FkRef(a.toTable, ColumnList(a.toList)[0]);
    t.(columns := MarkedColumns(t.columns, names, MarkFk(ref)))
  }

  /** One ALTER statement: the relationship is added in every case; the designated table,
      and no other, gets its named columns marked. */
  function AlterStep(acc: Acc, a: AlterFk): (r: Acc)
    ensures r.tableMap == acc.tableMap && r.rels == acc.rels + [AlterRelationship(a)]
    ensures AlterTarget(acc, a).None? ==> r.tables == acc.tables
    ensures AlterTarget(acc, a).Some? ==>
              var k := AlterTarget(acc, a).value;
              r.tables == acc.tables[k := MarkForeignKey(acc.tables[k], a)]
  {
    var tables :=
      match AlterTarget(acc, a)
      case Some(k) => acc.tables[k := MarkForeignKey(acc.tables[k], a)]
      case None => acc.tables;
    Acc(tables, acc.tableMap, acc.rels + [AlterRelationship(a)])
  }

  /** The ALTER matches from index from on, each search resuming after the previous match. */
  function AlterPass(s: string, from: nat, acc: Acc): Acc
    requires from <= |s|
    decreases |s| - from
  {
    match FindAlter(s, from)
    case None => acc
    case Some(f) => AlterPass(s, f.value.end, AlterStep(acc, f.value))
  }

  /** Replacing a table by one with the same name and schema keeps the heads. */
  lemma {:induction false} HeadsAfterUpdate(ts: seq<Table>, k: nat, t: Table)
    requires k < |ts| && t.name == ts[k].name && t.schema == ts[k].schema
    ensures TableHeads(ts[k := t]) == TableHeads(ts)
    decreases |ts|
  {
    var n := |ts| - 1;
    if k < n {
      HeadsAfterUpdate(ts[..n], k, t);
      assert ts[k := t][..n] == ts[..n][k := t];
    } else {
      assert ts[k := t][..n] == ts[..n];
    }
  }

  /** An ALTER statement leaves every table's name and schema, and the map, as they were. */
  lemma AlterStepKeepsHeads(acc: Acc, a: AlterFk)
    ensures TableHeads(AlterStep(acc, a).tables) == TableHeads(acc.tables)
    ensures |AlterStep(acc, a).tables| == |acc.tables|
    ensures forall j :: 0 <= j < |acc.tables| ==> AlterStep(acc, a).tables[j].name == acc.tables[j].name
  {
    var r := AlterStep(acc, a);
    match AlterTarget(acc, a)
    case None =>
      assert r.tables == acc.tables;
    case Some(k) =>
      var t := MarkForeignKey(acc.tables[k], a);
      assert r.tables == acc.tables[k := t];
      HeadsAfterUpdate(acc.tables, k, t);
      forall j | 0 <= j < |acc.tables| ensures r.tables[j].name == acc.tables[j].name {
        if j == k {
          assert r.tables[j] == t;
        } else {
          assert r.tables[j] == acc.tables[j];
        }
      }
  }

  lemma AlterStepKeepsMap(acc: Acc, a: AlterFk)
    requires MapPointsAtLast(acc)
    ensures MapPointsAtLast(AlterStep(acc, a))
  {
    AlterStepKeepsHeads(acc, a);
    var r := AlterStep(acc, a);
    forall k | k in r.tableMap
      ensures r.tableMap[k] < |r.tables| && Lower(r.tables[r.tableMap[k]].name) == k
      ensures forall j :: r.tableMap[k] < j < |r.tables| ==> Lower(r.tables[j].name) != k
    {
      assert r.tables[r.tableMap[k]].name == acc.tables[acc.tableMap[k]].name;
      forall j | r.tableMap[k] < j < |r.tables| ensures Lower(r.tables[j].name) != k {
        assert r.tables[j].name == acc.tables[j].name;
      }
    }
    forall j | 0 <= j < |r.tables| ensures Lower(r.tables[j].name) in r.tableMap {
      assert r.tables[j].name == acc.tables[j].name;
    }
  }

  lemma {:induction false} AlterPassKeepsMap(s: string, from: nat, acc: Acc)
    requires from <= |s|
    requires MapPointsAtLast(acc)
    ensures MapPointsAtLast(AlterPass(s, from, acc))
    decreases |s| - from
  {
    var found := FindAlter(s, from);
    if found.Some? {
      AlterStepKeepsMap(acc, found.value.value);
      AlterPassKeepsMap(s, found.value.value.end, AlterStep(acc, found.value.value));
    }
  }

  /** The ALTER pass adds no table and renames none. */
  lemma {:induction false} AlterPassKeepsTables(s: string, from: nat, acc: Acc)
    requires from <= |s|
    ensures TableHeads(AlterPass(s, from, acc).tables) == TableHeads(acc.tables)
    ensures AlterPass(s, from, acc).tableMap == acc.tableMap
    decreases |s| - from
  {
    var found := FindAlter(s, from);
    if found.Some? {
      AlterStepKeepsHeads(acc, found.value.value);
      AlterPassKeepsTables(s, found.value.value.end, AlterStep(acc, found.value.value));
    }
  }

  // ---------------------------------------------------------------------------------------
  // parseSQL

  function ParseSqlSpec(sql: string): Parsed {
    var s := CleanSql(sql);
    var created := CreatePass(s, 0, InitAcc);
    var altered := AlterPass(s, 0, created);
    Parsed(altered.tables, Dedup(altered.rels))
  }

  /** The CREATE TABLE loop of parser.js:15-58. */
  method CreateTables(s: string) returns (tables: seq<Table>, tableMap: map<string, nat>, rels: seq<Relationship>)
    ensures Acc(tables, tableMap, rels) == CreatePass(s, 0, InitAcc)
  {
    tables, tableMap, rels := [], map[], [];
    var from := 0;
    while true
      invariant from <= |s|
      invariant CreatePass(s, from, Acc(tables, tableMap, rels)) == CreatePass(s, 0, InitAcc)
      decreases |s| - from
    {
      var found := FindCreate(s, from);
      if found.None? {
        break;
      }
      var h := found.value.value;
      var balanced, i := ScanBody(s, h.bodyStart);
      if !balanced {
        from := h.bodyStart;
        continue;
      }
      var parts := SplitByComma(s[h.bodyStart..i]);
      var body := ParseBody(parts, h.name, BodyAcc(EmptyTable(h), []));
      tableMap := tableMap[Lower(body.table.name) := |tables|];
      tables := tables + [body.table];
      rels := rels + body.rels;
      from := h.bodyStart;
    }
  }

  /** The ALTER TABLE loop of parser.js:61-85: `tableMap` is only read. */
  method AlterTables(s: string, tables0: seq<Table>, tableMap: map<string, nat>, rels0: seq<Relationship>)
    returns (tables: seq<Table>, rels: seq<Relationship>)
    ensures Acc(tables, tableMap, rels) == AlterPass(s, 0, Acc(tables0, tableMap, rels0))
  {
    tables, rels := tables0, rels0;
    var from := 0;
    while true
      invariant from <= |s|
      invariant AlterPass(s, from, Acc(tables, tableMap, rels)) == AlterPass(s, 0, Acc(tables0, tableMap, rels0))
      decreases |s| - from
    {
      var found := FindAlter(s, from);
      if found.None? {
        break;
      }
      var a := found.value.value;
      ghost var before := Acc(tables, tableMap, rels);
      var fromCols := ColumnList(a.fromList);
      var toCols := ColumnList(a.toList);
      rels := rels + [Relationship(a.constraintName, Endpoint(a.fromTable, fromCols), Endpoint(a.toTable, toCols), KindFor(fromCols))];
      var key := Lower(a.fromTable);
      if key in tableMap && tableMap[key] < |tables| {
        var k := tableMap[key];
        var marked := MarkColumns(tables[k].columns, fromCols, MarkFk(FkRef(a.toTable, toCols[0])));
        tables := tables[k := tables[k].(columns := marked)];
      }
      assert Acc(tables, tableMap, rels) == AlterStep(before, a);
      from := a.end;
    }
  }

  /** `parseSQL`: the clean-up, the CREATE loop, the ALTER loop and the dedup loop. */
  method ParseSql(sql: string) returns (result: Parsed)
    ensures result == ParseSqlSpec(sql)
  {
    var s := CleanSql(sql);
    var tables, tableMap, rels := CreateTables(s);
    tables, rels := AlterTables(s, tables, tableMap, rels);
    var kept := DedupRelationships(rels);
    result := Parsed(tables, kept);
  }

  /** Text with no CREATE TABLE and no ALTER TABLE statement yields nothing. */
  lemma EmptyInputParsesToNothing()
    ensures ParseSqlSpec("") == Parsed([], [])
  {
    assert CleanSql("") == "";
  }

  /** After parsing, `tableMap` still points every lower-cased name at its last table. */
  lemma ParsedMapPointsAtLast(sql: string)
    ensures MapPointsAtLast(AlterPass(CleanSql(sql), 0, CreatePass(CleanSql(sql), 0, InitAcc)))
  {
    CreatePassKeepsMap(CleanSql(sql), 0, InitAcc);
    AlterPassKeepsMap(CleanSql(sql), 0, CreatePass(CleanSql(sql), 0, InitAcc));
  }

  /** The tables parseSQL returns are the balanced CREATE TABLE statements in source order. */
  lemma ParsedTablesInSourceOrder(sql: string)
    ensures TableHeads(ParseSqlSpec(sql).tables) == HeaderHeads(BalancedHeaders(CleanSql(sql), 0))
  {
    var s := CleanSql(sql);
    TablesInSourceOrder(s, 0, InitAcc);
    AlterPassKeepsTables(s, 0, CreatePass(s, 0, InitAcc));
  }
}
