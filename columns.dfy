/**
  `parseColumnDef` (js/er-diagram/parser.js:125-181): one column segment of a CREATE TABLE body
  becomes a column record, and an inline `REFERENCES` clause also yields the relationship that
  the source pushes into the shared relationship list (here it is returned to the caller,
  which appends it).
*/
module ColumnDefs {
  import opened Wrappers
  import opened Text
  import opened SqlPatterns
  import opened ErSchema

  /** The first words that make a segment no column (parser.js:130). */
  const ReservedNames: seq<string> := ["CONSTRAINT", "PRIMARY", "FOREIGN", "UNIQUE", "CHECK", "INDEX", "KEY"]

  /** `/^(CONSTRAINT|PRIMARY|FOREIGN|UNIQUE|CHECK|INDEX|KEY)$/i.test(name)`. */
  predicate IsReservedName(name: string) {
    exists k :: 0 <= k < |ReservedNames| && |name| == |ReservedNames[k]| && CiAt(name, 0, ReservedNames[k])
  }

  /** `def.substring(offset).trim().replace(/^"/, '')`: the text the type patterns read. */
  function AfterName(def: string, offset: nat): string {
    var t := Trim(if offset <= |def| then def[offset..] else "");
    if t != [] && t[0] == '"' then t[1..] else t
  }

  /** The type text and the clauses after it (parser.js:134-147). */
  datatype TypeSplit = TypeSplit(typ: string, rest: string)

  /** The vocabulary pattern first, then the generic `\w+` type, then the second token. */
  function SplitType(afterName: string, token1: string): TypeSplit {
    match VocabularyTypeEnd(afterName)
    case Some(e) => TypeSplit(Trim(afterName[..e]), Trim(afterName[e..]))
    case None =>
      match SimpleTypeEnd(afterName)
      case Some(e) => TypeSplit(Trim(afterName[..e]), Trim(afterName[e..]))
      case None => TypeSplit(token1, Trim(if |token1| <= |afterName| then afterName[|token1|..] else ""))
  }

  predicate HasSerialType(typeStr: string) { Occurs(SerialPattern, typeStr) }
  predicate SaysPrimaryKey(rest: string) { Occurs(PrimaryKeyPattern, rest) }
  predicate SaysUnique(rest: string) { Occurs(UniqueWordPattern, rest) }
  predicate SaysNotNull(rest: string) { Occurs(NotNullPattern, rest) }
  /** A `NULL` word with no `NOT NULL` anywhere in the clauses. */
  predicate SaysNullOnly(rest: string) { Occurs(NullPattern, rest) && !Occurs(NotNullPattern, rest) }
  predicate SaysAutoIncrement(rest: string) { Occurs(AutoIncrementPattern, rest) }

  /** What the clause patterns of parser.js:155-169 find in the type text and the clauses. */
  datatype Clauses = Clauses(serial: bool, primaryKey: bool, unique: bool, notNull: bool,
                             nullOnly: bool, autoIncrement: bool, defaultVal: Option<string>,
                             check: Option<string>, ref: Option<InlineRef>)

  function ReadClauses(typeStr: string, rest: string): Clauses {
    Clauses(HasSerialType(typeStr), SaysPrimaryKey(rest), SaysUnique(rest), SaysNotNull(rest),
            SaysNullOnly(rest), SaysAutoIncrement(rest), Leftmost(rest, 0, DefaultAt),
            Leftmost(rest, 0, CheckAt), Leftmost(rest, 0, InlineRefAt))
  }

  /** The flag updates of parser.js:155-161, applied one after the other as the source does;
      their combined effect is stated in closed form. */
  function ApplyFlags(c0: Column, cl: Clauses): (c: Column)
    ensures c == c0.(pk := c.pk, unique := c.unique, notNull := c.notNull, autoIncrement := c.autoIncrement)
    ensures c.pk <==> c0.pk || cl.primaryKey
    ensures c.unique <==> c0.unique || cl.unique
    ensures c.notNull <==> !cl.nullOnly && (c0.notNull || cl.serial || cl.primaryKey || cl.notNull)
    ensures c.autoIncrement <==> c0.autoIncrement || cl.serial || cl.autoIncrement
  {
    var c1 := if cl.serial then c0.(autoIncrement := true, notNull := true) else c0;
    var c2 := if cl.primaryKey then c1.(pk := true, notNull := true) else c1;
    var c3 := if cl.unique then c2.(unique := true) else c2;
    var c4 := if cl.notNull then c3.(notNull := true) else c3;
    var c5 := if cl.nullOnly then c4.(notNull := false) else c4;
    if cl.autoIncrement then c5.(autoIncrement := true) else c5
  }

  /** The fresh record of parser.js:150-153 with every clause applied (lines 155-178). */
  function ApplyClauses(name: string, typ: string, cl: Clauses): (c: Column)
    ensures c.name == name && c.typ == typ
    ensures c.pk <==> cl.primaryKey
    ensures c.unique <==> cl.unique
    ensures c.notNull <==> !cl.nullOnly && (cl.serial || cl.primaryKey || cl.notNull)
    ensures c.autoIncrement <==> cl.serial || cl.autoIncrement
    ensures c.defaultVal == cl.defaultVal && c.check == cl.check
    ensures c.fk.Some? <==> cl.ref.Some?
    ensures c.fk.Some? ==> c.fk.value == FkRef(cl.ref.value.table, cl.ref.value.column)
  {
    var c6 := ApplyFlags(FreshColumn(name, typ), cl);
    var c7 := match cl.defaultVal case Some(v) => c6.(defaultVal := Some(v)) case None => c6;
    var c8 := match cl.check case Some(v) => c7.(check := Some(v)) case None => c7;
    match cl.ref
    case Some(ref) => c8.(fk := Some(FkRef(ref.table, ref.column)))
    case None => c8
  }

  /** A parsed column and the relationship its inline reference adds, if any. */
  datatype ColumnParse = ColumnParse(column: Column, rel: Option<Relationship>)

  /** The relationship of an inline reference (parser.js:171-176). */
  function InlineRelationship(tableName: string, name: string, ref: FkRef): Relationship {
    Relationship("fk_" + tableName + "_" + name, Endpoint(tableName, [name]), Endpoint(ref.table, [ref.column]), ManyToOne)
  }

  /** Everything after the name check, with the offset into def where the type text starts. */
  function ColumnFrom(def: string, tableName: string, name: string, offset: nat, token1: string): (r: ColumnParse)
    ensures r.column.name == name
    ensures r.rel.Some? <==> r.column.fk.Some?
    ensures r.column.fk.Some? ==> r.rel == Some(InlineRelationship(tableName, name, r.column.fk.value))
  {
    var split := SplitType(AfterName(def, offset), token1);
    var col := ApplyClauses(name, Upper(split.typ), ReadClauses(split.typ, split.rest));
    ColumnParse(col, if col.fk.Some? then Some(InlineRelationship(tableName, name, col.fk.value)) else None)
  }

  /** The column name: the first token with every `"` removed. */
  function ColumnName(def: string): string {
    RemoveAll(FirstToken(Trim(def)), '"')
  }

  /** `parseColumnDef` as the source writes it: the type text is looked for at the length of
      the unquoted name, which for a quoted name is inside the name itself. */
  function ParseColumnDefAsWritten(def: string, tableName: string): (r: Option<ColumnParse>)
    ensures r.None? <==> !HasSecondToken(Trim(def)) || IsReservedName(ColumnName(def))
    ensures r.Some? ==> r.value.column.name == ColumnName(def)
    ensures r.Some? ==> var split := SplitType(AfterName(def, |ColumnName(def)|), SecondToken(Trim(def)));
              r.value.column == ApplyClauses(ColumnName(def), Upper(split.typ), ReadClauses(split.typ, split.rest))
  {
    var t := Trim(def);
    if !HasSecondToken(t) then None
    else
      var name := ColumnName(def);
      if IsReservedName(name) then None
      else Some(ColumnFrom(def, tableName, name, |name|, SecondToken(t)))
  }

  /** `parseColumnDef` with the type text looked for after the whole first token, quotes
      included; this corrected version is the one the parser uses. */
  function ParseColumnDef(def: string, tableName: string): (r: Option<ColumnParse>)
    ensures r.None? <==> !HasSecondToken(Trim(def)) || IsReservedName(ColumnName(def))
    ensures r.Some? ==> r.value.column.name == ColumnName(def)
    ensures r.Some? ==> var split := SplitType(AfterName(def, |FirstToken(Trim(def))|), SecondToken(Trim(def)));
              r.value.column == ApplyClauses(ColumnName(def), Upper(split.typ), ReadClauses(split.typ, split.rest))
    ensures r.Some? ==> (r.value.rel.Some? <==> r.value.column.fk.Some?)
    ensures r.Some? && r.value.column.fk.Some? ==>
              r.value.rel == Some(InlineRelationship(tableName, ColumnName(def), r.value.column.fk.value))
  {
    var t := Trim(def);
    if !HasSecondToken(t) then None
    else
      var name := ColumnName(def);
      if IsReservedName(name) then None
      else Some(ColumnFrom(def, tableName, name, |FirstToken(t)|, SecondToken(t)))
  }

  lemma {:induction false} RemoveAllAbsent(s: string, c: char)
    requires forall k :: 0 <= k < |s| ==> s[k] != c
    ensures RemoveAll(s, c) == s
  {
    if s != [] {
      RemoveAllAbsent(s[1..], c);
    }
  }

  /** Both versions find a column for the same segments, under the same name; they differ
      at most in the type and the clauses of a quoted name. */
  lemma SameColumnsBothWays(def: string, tableName: string)
    ensures ParseColumnDefAsWritten(def, tableName).Some? <==> ParseColumnDef(def, tableName).Some?
    ensures ParseColumnDef(def, tableName).Some? ==>
              ParseColumnDefAsWritten(def, tableName).value.column.name == ParseColumnDef(def, tableName).value.column.name
  {
  }

  /** Without a quote in the first token the two versions agree. */
  lemma UnquotedNameAgrees(def: string, tableName: string)
    requires forall k :: 0 <= k < |FirstToken(Trim(def))| ==> FirstToken(Trim(def))[k] != '"'
    ensures ParseColumnDefAsWritten(def, tableName) == ParseColumnDef(def, tableName)
  {
    RemoveAllAbsent(FirstToken(Trim(def)), '"');
  }

  /** The type is read by the first vocabulary alternative, in written order, that matches at
      the start of the text after the name; with no word boundary after it. */
  lemma TypeIsFirstVocabularyMatch(afterName: string, token1: string)
    requires VocabularyChoice(afterName).Some?
    ensures var ch := VocabularyChoice(afterName).value;
            && ch.alt < |TypeVocabulary()|
            && MatchAtoms(TypeVocabulary()[ch.alt], afterName, 0) == Some(ch.end)
            && (forall j :: 0 <= j < ch.alt ==> MatchAtoms(TypeVocabulary()[j], afterName, 0).None?)
            && ch.end <= BracketsSuffix(afterName, ArgsSuffix(afterName, ch.end))
            && SplitType(afterName, token1).typ == Trim(afterName[..BracketsSuffix(afterName, ArgsSuffix(afterName, ch.end))])
  {
  }
}
