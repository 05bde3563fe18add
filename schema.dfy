/**
  The records `parseSQL` produces (js/er-diagram/parser.js): tables with their columns and
  recorded constraints, and the relationships between tables.
*/
module ErSchema {
  import opened Wrappers

  /** The `fk` field of a column: the referenced table and its first referenced column. */
  datatype FkRef = FkRef(table: string, column: string)

  datatype Column = Column(
    name: string,
    typ: string,
    pk: bool,
    fk: Option<FkRef>,
    unique: bool,
    notNull: bool,
    defaultVal: Option<string>,
    check: Option<string>,
    autoIncrement: bool)

  /** The entries of `table.constraints`. */
  datatype Constraint =
    | PkConstraint(columns: seq<string>)
    | UniqueConstraint(columns: seq<string>)
    | FkConstraint(columns: seq<string>, refTable: string, refColumns: seq<string>)
    | CheckConstraint(expression: string)

  datatype Table = Table(name: string, schema: Option<string>, columns: seq<Column>, constraints: seq<Constraint>)

  /** The `type` of a relationship: 'many-to-one' or 'many-to-many'. */
  datatype RelKind = ManyToOne | ManyToMany

  datatype Endpoint = Endpoint(table: string, columns: seq<string>)

  datatype Relationship = Relationship(name: string, from: Endpoint, to: Endpoint, kind: RelKind)

  /** What `parseSQL` returns. */
  datatype Parsed = Parsed(tables: seq<Table>, relationships: seq<Relationship>)

  /** `fromCols.length > 1 ? 'many-to-many' : 'many-to-one'`. */
  function KindFor(fromCols: seq<string>): (k: RelKind)
    ensures k == ManyToMany <==> |fromCols| > 1
  {
    if |fromCols| > 1 then ManyToMany else ManyToOne
  }

  /** The fresh column record of parser.js:150-153 before any clause is applied. */
  function FreshColumn(name: string, typ: string): Column {
    Column(name, typ, false, None, false, false, None, None, false)
  }
}
