/**
  The regular expressions of js/er-diagram/parser.js, written out as explicit string
  predicates and matchers (all of them are case-insensitive, as the source's `/i` flag makes
  them).

  How the JavaScript engine's backtracking is reproduced: alternations and optional groups are
  tried in written order and the first that lets the rest succeed is kept. Every `\s+`, `\s*`,
  `\w+` and `[^)]+` of these patterns is followed by something its own characters cannot
  match (a letter after white space, a quote, dot, parenthesis or space after a word, a `)`
  after `[^)]`), so the longest run is the only choice that can succeed; the matchers take it.
*/
module SqlPatterns {
  import opened Wrappers
  import opened Text

  /** A piece of a simple pattern: a literal, `\s+`, `\s*`, `\w+`, `\b`, or `(?:literal)?`. */
  datatype Atom = Lit(w: string) | Spaces1 | Spaces0 | Word1 | Boundary | OptLit(w: string)

  /** Where the sequence of atoms, matched from index i, ends (None if it does not match). */
  function MatchAtoms(atoms: seq<Atom>, s: string, i: nat): (r: Option<nat>)
    requires i <= |s|
    ensures r.Some? ==> i <= r.value <= |s|
    decreases |atoms|
  {
    if atoms == [] then Some(i)
    else match atoms[0]
      case Lit(w) => if CiAt(s, i, w) then MatchAtoms(atoms[1..], s, i + |w|) else None
      case Spaces1 =>
        var j := SkipSpaces(s, i);
        if j == i then None else MatchAtoms(atoms[1..], s, j)
      case Spaces0 => MatchAtoms(atoms[1..], s, SkipSpaces(s, i))
      case Word1 =>
        var j := SkipWord(s, i);
        if j == i then None else MatchAtoms(atoms[1..], s, j)
      case Boundary => if BoundaryAt(s, i) then MatchAtoms(atoms[1..], s, i) else None
      case OptLit(w) =>
        var withIt := if CiAt(s, i, w) then MatchAtoms(atoms[1..], s, i + |w|) else None;
        if withIt.Some? then withIt else MatchAtoms(atoms[1..], s, i)
  }

  /** The alternative chosen at index i and where it ends. */
  datatype Choice = Choice(alt: nat, end: nat)

  /** An alternation matched at index i, trying the alternatives from index k on. */
  function MatchFirstFrom(alts: seq<seq<Atom>>, s: string, i: nat, k: nat): (r: Option<Choice>)
    requires i <= |s| && k <= |alts|
    ensures r.Some? ==> k <= r.value.alt < |alts| && MatchAtoms(alts[r.value.alt], s, i) == Some(r.value.end)
    ensures r.Some? ==> forall j :: k <= j < r.value.alt ==> MatchAtoms(alts[j], s, i).None?
    ensures r.None? ==> forall j :: k <= j < |alts| ==> MatchAtoms(alts[j], s, i).None?
    decreases |alts| - k
  {
    if k == |alts| then None
    else match MatchAtoms(alts[k], s, i)
      case Some(e) => Some(Choice(k, e))
      case None => MatchFirstFrom(alts, s, i, k + 1)
  }

  /** An alternation at index i: the first alternative in written order that matches wins. */
  function MatchFirst(alts: seq<seq<Atom>>, s: string, i: nat): (r: Option<Choice>)
    requires i <= |s|
    ensures r.Some? ==> r.value.alt < |alts| && MatchAtoms(alts[r.value.alt], s, i) == Some(r.value.end)
    ensures r.Some? ==> forall j :: 0 <= j < r.value.alt ==> MatchAtoms(alts[j], s, i).None?
    ensures r.None? ==> forall j :: 0 <= j < |alts| ==> MatchAtoms(alts[j], s, i).None?
  {
    MatchFirstFrom(alts, s, i, 0)
  }

  /** `regex.test(s)` for an alternation not anchored at the start: some index matches. */
  predicate OccursFrom(alts: seq<seq<Atom>>, s: string, i: nat)
    requires i <= |s|
    decreases |s| - i
  {
    MatchFirst(alts, s, i).Some? || (i < |s| && OccursFrom(alts, s, i + 1))
  }

  predicate Occurs(alts: seq<seq<Atom>>, s: string) {
    OccursFrom(alts, s, 0)
  }

  // ---------------------------------------------------------------------------------------
  // Column clauses (parser.js:155-161)

  const SerialPattern: seq<seq<Atom>> := [[Lit("SERIAL")]]
  const PrimaryKeyPattern: seq<seq<Atom>> := [[Lit("PRIMARY"), Spaces1, Lit("KEY")]]
  const UniqueWordPattern: seq<seq<Atom>> := [[Boundary, Lit("UNIQUE"), Boundary]]
  const NotNullPattern: seq<seq<Atom>> := [[Boundary, Lit("NOT"), Spaces1, Lit("NULL"), Boundary]]
  const NullPattern: seq<seq<Atom>> := [[Boundary, Lit("NULL"), Boundary]]
  /** `AUTO_INCREMENT|AUTOINCREMENT|GENERATED\s+(ALWAYS|BY\s+DEFAULT)\s+AS\s+IDENTITY`, with the
      inner alternation spread into two alternatives (the same strings match). */
  const AutoIncrementPattern: seq<seq<Atom>> := [
    [Lit("AUTO_INCREMENT")],
    [Lit("AUTOINCREMENT")],
    [Lit("GENERATED"), Spaces1, Lit("ALWAYS"), Spaces1, Lit("AS"), Spaces1, Lit("IDENTITY")],
    [Lit("GENERATED"), Spaces1, Lit("BY"), Spaces1, Lit("DEFAULT"), Spaces1, Lit("AS"), Spaces1, Lit("IDENTITY")]
  ]

  // ---------------------------------------------------------------------------------------
  // The type vocabulary (parser.js:137)

  /** The number of alternatives in the type pattern. */
  const VocabularySize: nat := 73

  /** Alternative k of the type pattern, numbered in the order the source writes them. */
  function VocabularyEntry(k: int): seq<Atom> {
    if k < 8 then
      if k == 0 then [Lit("BIGSERIAL")]
      else if k == 1 then [Lit("SERIAL")]
      else if k == 2 then [Lit("SMALLSERIAL")]
      else if k == 3 then [Lit("BIGINT")]
      else if k == 4 then [Lit("SMALLINT")]
      else if k == 5 then [Lit("INTEGER")]
      else if k == 6 then [Lit("INT")]
      else if k == 7 then [Lit("INT2")]
      else []
    else if k < 16 then
      if k == 8 then [Lit("INT4")]
      else if k == 9 then [Lit("INT8")]
      else if k == 10 then [Lit("TINYINT")]
      else if k == 11 then [Lit("MEDIUMINT")]
      else if k == 12 then [Lit("DOUBLE"), Spaces1, Lit("PRECISION")]
      else if k == 13 then [Lit("REAL")]
      else if k == 14 then [Lit("FLOAT")]
      else if k == 15 then [Lit("NUMERIC")]
      else []
    else if k < 24 then
      if k == 16 then [Lit("DECIMAL")]
      else if k == 17 then [Lit("MONEY")]
      else if k == 18 then [Lit("BOOLEAN")]
      else if k == 19 then [Lit("BOOL")]
      else if k == 20 then [Lit("BIT")]
      else if k == 21 then [Lit("VARBIT")]
      else if k == 22 then [Lit("UUID")]
      else if k == 23 then [Lit("TEXT")]
      else []
    else if k < 32 then
      if k == 24 then [Lit("CITEXT")]
      else if k == 25 then [Lit("VARCHAR")]
      else if k == 26 then [Lit("NVARCHAR")]
      else if k == 27 then [Lit("CHARACTER"), Spaces1, Lit("VARYING")]
      else if k == 28 then [Lit("CHARACTER")]
      else if k == 29 then [Lit("CHAR")]
      else if k == 30 then [Lit("NCHAR")]
      else if k == 31 then [Lit("BYTEA")]
      else []
    else if k < 40 then
      if k == 32 then [Lit("BLOB")]
      else if k == 33 then [Lit("CLOB")]
      else if k == 34 then [Lit("MEDIUMTEXT")]
      else if k == 35 then [Lit("LONGTEXT")]
      else if k == 36 then [Lit("TINYTEXT")]
      else if k == 37 then [Lit("DATE")]
      else if k == 38 then [Lit("TIME")]
      else if k == 39 then [Lit("TIMETZ")]
      else []
    else if k < 48 then
      if k == 40 then [Lit("TIMESTAMP")]
      else if k == 41 then [Lit("TIMESTAMPTZ")]
      else if k == 42 then [Lit("TIMESTAMP"), Spaces1, Lit("WITH"), OptLit("OUT"), Spaces1, Lit("TIME"), Spaces1, Lit("ZONE")]
      else if k == 43 then [Lit("TIME"), Spaces1, Lit("WITH"), OptLit("OUT"), Spaces1, Lit("TIME"), Spaces1, Lit("ZONE")]
      else if k == 44 then [Lit("INTERVAL")]
      else if k == 45 then [Lit("INET")]
      else if k == 46 then [Lit("CIDR")]
      else if k == 47 then [Lit("MACADDR")]
      else []
    else if k < 56 then
      if k == 48 then [Lit("JSON")]
      else if k == 49 then [Lit("JSONB")]
      else if k == 50 then [Lit("XML")]
      else if k == 51 then [Lit("POINT")]
      else if k == 52 then [Lit("LINE")]
      else if k == 53 then [Lit("LSEG")]
      else if k == 54 then [Lit("BOX")]
      else if k == 55 then [Lit("PATH")]
      else []
    else if k < 64 then
      if k == 56 then [Lit("POLYGON")]
      else if k == 57 then [Lit("CIRCLE")]
      else if k == 58 then [Lit("TSQUERY")]
      else if k == 59 then [Lit("TSVECTOR")]
      else if k == 60 then [Lit("ENUM")]
      else if k == 61 then [Lit("SET")]
      else if k == 62 then [Lit("GEOMETRY")]
      else if k == 63 then [Lit("GEOGRAPHY")]
      else []
    else if k < 72 then
      if k == 64 then [Lit("HSTORE")]
      else if k == 65 then [Lit("ARRAY")]
      else if k == 66 then [Lit("OID")]
      else if k == 67 then [Lit("REGCLASS")]
      else if k == 68 then [Lit("INT[]")]
      else if k == 69 then [Lit("TEXT[]")]
      else if k == 70 then [Lit("INTEGER[]")]
      else if k == 71 then [Lit("VARCHAR[]")]
      else []
    else if k < 73 then
      if k == 72 then [Lit("FLOAT[]")]
      else []
    else []
  }

  /** The alternatives of the type pattern, in the order the source writes them. */
  function TypeVocabulary(): (r: seq<seq<Atom>>)
    ensures |r| == VocabularySize
    ensures forall k :: 0 <= k < |r| ==> r[k] == VocabularyEntry(k)
  {
    seq(VocabularySize, k => VocabularyEntry(k))
  }

  /** `(?:\s*\([^)]*\))?` from index j: an optional argument list. */
  function ArgsSuffix(s: string, j: nat): (e: nat)
    requires j <= |s|
    ensures j <= e <= |s|
  {
    var k := SkipSpaces(s, j);
    if k < |s| && s[k] == '(' then
      match IndexOf(s, ')', k + 1)
      case Some(c) => c + 1
      case None => j
    else j
  }

  /** `(?:\s*\[\s*\])*` from index j: any number of empty array brackets. */
  function BracketsSuffix(s: string, j: nat): (e: nat)
    requires j <= |s|
    ensures j <= e <= |s|
    decreases |s| - j
  {
    var k := SkipSpaces(s, j);
    if k < |s| && s[k] == '[' then
      var m := SkipSpaces(s, k + 1);
      if m < |s| && s[m] == ']' then BracketsSuffix(s, m + 1) else j
    else j
  }

  /** The vocabulary alternative the type pattern takes at the start of t, if any. */
  function VocabularyChoice(t: string): Option<Choice> {
    MatchFirst(TypeVocabulary(), t, 0)
  }

  /** Where the whole type pattern of line 137 ends in t: the vocabulary word, then the
      optional argument list and brackets. */
  function VocabularyTypeEnd(t: string): (r: Option<nat>)
    ensures r.Some? ==> r.value <= |t|
  {
    match VocabularyChoice(t)
    case Some(c) => Some(BracketsSuffix(t, ArgsSuffix(t, c.end)))
    case None => None
  }

  /** The fallback type pattern of line 143, `^(\w+(?:\s*\([^)]*\))?(?:\s*\[\s*\])*)`. */
  function SimpleTypeEnd(t: string): (r: Option<nat>)
    ensures r.Some? ==> 0 < r.value <= |t|
  {
    var j := SkipWord(t, 0);
    if j == 0 then None else Some(BracketsSuffix(t, ArgsSuffix(t, j)))
  }

  // ---------------------------------------------------------------------------------------
  // Identifiers: `"?(\w+)"?` and the optional schema qualifier `(?:"?\w+"?\.)?`

  /** A word and the index after it. */
  datatype Word = Word(text: string, end: nat)

  /** `"?(\w+)"?` at index i. */
  function QuotedWordAt(s: string, i: nat): (r: Option<Word>)
    requires i <= |s|
    ensures r.Some? ==> i < r.value.end <= |s| && r.value.text != []
  {
    var i1 := if i < |s| && s[i] == '"' then i + 1 else i;
    var j := SkipWord(s, i1);
    if j == i1 then None
    else Some(Word(s[i1..j], if j < |s| && s[j] == '"' then j + 1 else j))
  }

  /** A possibly qualified name `(?:"?(\w+)"?\.)?"?(\w+)"?`, with or without the qualifier. */
  datatype QName = QName(schema: Option<string>, name: string, end: nat)

  function QNameAt(s: string, i: nat, qualified: bool): (r: Option<QName>)
    requires i <= |s|
    ensures r.Some? ==> i < r.value.end <= |s|
  {
    if qualified then
      match QuotedWordAt(s, i)
      case None => None
      case Some(sch) =>
        if sch.end < |s| && s[sch.end] == '.' then
          match QuotedWordAt(s, sch.end + 1)
          case None => None
          case Some(nm) => Some(QName(Some(sch.text), nm.text, nm.end))
        else None
    else
      match QuotedWordAt(s, i)
      case None => None
      case Some(nm) => Some(QName(None, nm.text, nm.end))
  }

  /** `\(([^)]+)\)` at index i: the text between the parentheses and the index after them. */
  function ParenListAt(s: string, i: nat): (r: Option<Word>)
    requires i <= |s|
    ensures r.Some? ==> i < r.value.end <= |s| && r.value.text != []
  {
    if i < |s| && s[i] == '(' then
      match IndexOf(s, ')', i + 1)
      case Some(c) => if c > i + 1 then Some(Word(s[i + 1..c], c + 1)) else None
      case None => None
    else None
  }

  // ---------------------------------------------------------------------------------------
  // CREATE TABLE (parser.js:15)

  /** What the header pattern captures: schema, table name and the index after `(`. */
  datatype Header = Header(schema: Option<string>, name: string, bodyStart: nat)

  /** `"?(\w+)"?\s*\(` style tail of the header: the name, then `\s*\(`. */
  function NameThenParen(s: string, i: nat, qualified: bool): (r: Option<Header>)
    requires i <= |s|
    ensures r.Some? ==> i < r.value.bodyStart <= |s| && s[r.value.bodyStart - 1] == '('
  {
    match QNameAt(s, i, qualified)
    case None => None
    case Some(q) =>
      var k := SkipSpaces(s, q.end);
      if k < |s| && s[k] == '(' then Some(Header(q.schema, q.name, k + 1)) else None
  }

  /** The name part at index i, with the qualifier tried first. */
  function HeaderNameAt(s: string, i: nat): (r: Option<Header>)
    requires i <= |s|
    ensures r.Some? ==> i < r.value.bodyStart <= |s| && s[r.value.bodyStart - 1] == '('
  {
    var q := NameThenParen(s, i, true);
    if q.Some? then q else NameThenParen(s, i, false)
  }

  const CreateTableWords: seq<Atom> := [Lit("CREATE"), Spaces1, Lit("TABLE"), Spaces1]
  const IfNotExistsWords: seq<Atom> := [Lit("IF"), Spaces1, Lit("NOT"), Spaces1, Lit("EXISTS"), Spaces1]

  /** `CREATE\s+TABLE\s+(?:IF\s+NOT\s+EXISTS\s+)?(?:(?:"?(\w+)"?\.)?"?(\w+)"?)\s*\(` at index p. */
  function CreateHeaderAt(s: string, p: nat): (r: Option<Header>)
    requires p <= |s|
    ensures r.Some? ==> p < r.value.bodyStart <= |s|
  {
    match MatchAtoms(CreateTableWords, s, p)
    case None => None
    case Some(q) =>
      var viaIf := IfNotExistsThenName(s, q);
      if viaIf.Some? then viaIf else HeaderNameAt(s, q)
  }

  function IfNotExistsThenName(s: string, q: nat): (r: Option<Header>)
    requires q <= |s|
    ensures r.Some? ==> q < r.value.bodyStart <= |s|
  {
    match MatchAtoms(IfNotExistsWords, s, q)
    case Some(q') => HeaderNameAt(s, q')
    case None => None
  }

  /** A match of a global pattern: where it starts and what it captured. */
  datatype Found<T> = Found(start: nat, value: T)

  /** The leftmost index at or after from where f matches, with what it captured. */
  function Search<T>(s: string, from: nat, f: (string, nat) --> Option<T>): (r: Option<Found<T>>)
    requires from <= |s|
    requires forall p :: 0 <= p <= |s| ==> f.requires(s, p)
    ensures r.Some? ==> from <= r.value.start <= |s| && f(s, r.value.start) == Some(r.value.value)
    ensures r.Some? ==> forall p :: from <= p < r.value.start ==> f(s, p).None?
    ensures r.None? ==> forall p :: from <= p <= |s| ==> f(s, p).None?
    decreases |s| - from
  {
    match f(s, from)
    case Some(h) => Some(Found(from, h))
    case None => if from == |s| then None else Search(s, from + 1, f)
  }

  /** `ctRegex.exec` with `lastIndex == from`: the leftmost header at or after from. */
  function FindCreate(s: string, from: nat): (r: Option<Found<Header>>)
    requires from <= |s|
    ensures r.Some? ==> from <= r.value.start <= |s| && CreateHeaderAt(s, r.value.start) == Some(r.value.value)
    ensures r.Some? ==> forall p :: from <= p < r.value.start ==> CreateHeaderAt(s, p).None?
    ensures r.None? ==> forall p :: from <= p <= |s| ==> CreateHeaderAt(s, p).None?
  {
    Search(s, from, CreateHeaderAt)
  }

  // ---------------------------------------------------------------------------------------
  // ALTER TABLE ... ADD CONSTRAINT ... FOREIGN KEY (parser.js:61)

  /** The captures of the ALTER pattern: source table, constraint name, the raw source column
      list, target table, the raw target column list, and the index after the match. */
  datatype AlterFk = AlterFk(fromTable: string, constraintName: string, fromList: string,
                             toTable: string, toList: string, end: nat)

  /** `\s*\(([^)]+)\)` after the target table name. */
  function TargetTail(s: string, i: nat, qualified: bool): (r: Option<(string, Word)>)
    requires i <= |s|
    ensures r.Some? ==> i < r.value.1.end <= |s|
  {
    match QNameAt(s, i, qualified)
    case None => None
    case Some(q) =>
      match ParenListAt(s, SkipSpaces(s, q.end))
      case None => None
      case Some(l) => Some((q.name, l))
  }

  /** `REFERENCES\s+(?:(?:"?\w+"?\.)?"?(\w+)"?)\s*\(([^)]+)\)` at index i. */
  function ReferencesListAt(s: string, i: nat): (r: Option<(string, Word)>)
    requires i <= |s|
    ensures r.Some? ==> i < r.value.1.end <= |s|
  {
    match MatchAtoms([Lit("REFERENCES"), Spaces1], s, i)
    case None => None
    case Some(q) =>
      var t := TargetTail(s, q, true);
      if t.Some? then t else TargetTail(s, q, false)
  }

  /** `FOREIGN\s+KEY\s*\(([^)]+)\)\s*REFERENCES ...` at index i: source list, target table,
      target list. */
  datatype ForeignKeyPart = ForeignKeyPart(fromList: string, toTable: string, toList: string, end: nat)

  function ForeignKeyAt(s: string, i: nat): (r: Option<ForeignKeyPart>)
    requires i <= |s|
    ensures r.Some? ==> i < r.value.end <= |s|
  {
    match MatchAtoms([Lit("FOREIGN"), Spaces1, Lit("KEY"), Spaces0], s, i)
    case None => None
    case Some(q) =>
      match ParenListAt(s, q)
      case None => None
      case Some(from) =>
        match ReferencesListAt(s, SkipSpaces(s, from.end))
        case None => None
        case Some(to) => Some(ForeignKeyPart(from.text, to.0, to.1.text, to.1.end))
  }

  /** What follows the source table name: `\s+ADD\s+CONSTRAINT\s+"?(\w+)"?\s+FOREIGN ...`. */
  function AlterTail(s: string, i: nat, fromTable: string): (r: Option<AlterFk>)
    requires i <= |s|
    ensures r.Some? ==> i < r.value.end <= |s|
  {
    match MatchAtoms([Spaces1, Lit("ADD"), Spaces1, Lit("CONSTRAINT"), Spaces1], s, i)
    case None => None
    case Some(q) =>
      match QuotedWordAt(s, q)
      case None => None
      case Some(cn) =>
        var k := SkipSpaces(s, cn.end);
        if k == cn.end then None
        else
          match ForeignKeyAt(s, k)
          case None => None
          case Some(fk) => Some(AlterFk(fromTable, cn.text, fk.fromList, fk.toTable, fk.toList, fk.end))
  }

  function AlterAfterName(s: string, i: nat, qualified: bool): (r: Option<AlterFk>)
    requires i <= |s|
    ensures r.Some? ==> i < r.value.end <= |s|
  {
    match QNameAt(s, i, qualified)
    case None => None
    case Some(q) => AlterTail(s, q.end, q.name)
  }

  /** The ALTER pattern at index p. */
  function AlterAt(s: string, p: nat): (r: Option<AlterFk>)
    requires p <= |s|
    ensures r.Some? ==> p < r.value.end <= |s|
  {
    match MatchAtoms([Lit("ALTER"), Spaces1, Lit("TABLE"), Spaces1], s, p)
    case None => None
    case Some(q) =>
      var a := AlterAfterName(s, q, true);
      if a.Some? then a else AlterAfterName(s, q, false)
  }

  /** `alterRegex.exec` with `lastIndex == from`. */
  function FindAlter(s: string, from: nat): (r: Option<Found<AlterFk>>)
    requires from <= |s|
    ensures r.Some? ==> from <= r.value.start <= |s| && AlterAt(s, r.value.start) == Some(r.value.value)
    ensures r.Some? ==> forall p :: from <= p < r.value.start ==> AlterAt(s, p).None?
    ensures r.None? ==> forall p :: from <= p <= |s| ==> AlterAt(s, p).None?
  {
    Search(s, from, AlterAt)
  }

  // ---------------------------------------------------------------------------------------
  // Searches for the first match anywhere (String.prototype.match without /g)

  /** The leftmost index at or after i where f matches, and its captures. */
  function Leftmost<T>(s: string, i: nat, f: (string, nat) --> Option<T>): (r: Option<T>)
    requires i <= |s|
    requires forall p :: 0 <= p <= |s| ==> f.requires(s, p)
    ensures r.Some? ==> exists p :: i <= p <= |s| && f(s, p) == r && forall q :: i <= q < p ==> f(s, q).None?
    ensures r.None? ==> forall p :: i <= p <= |s| ==> f(s, p).None?
    decreases |s| - i
  {
    var here := f(s, i);
    if here.Some? then here else if i == |s| then None else Leftmost(s, i + 1, f)
  }

  /** `PRIMARY\s+KEY\s*\(([^)]+)\)` at index i: the raw column list. */
  function PrimaryKeyListAt(s: string, i: nat): Option<string>
    requires i <= |s|
  {
    match MatchAtoms([Lit("PRIMARY"), Spaces1, Lit("KEY"), Spaces0], s, i)
    case None => None
    case Some(q) =>
      match ParenListAt(s, q)
      case Some(l) => Some(l.text)
      case None => None
  }

  /** `UNIQUE\s*\(([^)]+)\)` at index i. */
  function UniqueListAt(s: string, i: nat): Option<string>
    requires i <= |s|
  {
    match MatchAtoms([Lit("UNIQUE"), Spaces0], s, i)
    case None => None
    case Some(q) =>
      match ParenListAt(s, q)
      case Some(l) => Some(l.text)
      case None => None
  }

  /** `CHECK\s*(\([^)]*(?:\([^)]*\)[^)]*)*\))` at index i. The first `[^)]*` is greedy and
      also takes any `(`, so the repeated group can only match zero times and the capture is
      always the `(` with everything up to and including the first `)` after it. */
  function CheckAt(s: string, i: nat): Option<string>
    requires i <= |s|
  {
    match MatchAtoms([Lit("CHECK"), Spaces0], s, i)
    case None => None
    case Some(q) =>
      if q < |s| && s[q] == '(' then
        match IndexOf(s, ')', q + 1)
        case Some(c) => Some(s[q..c + 1])
        case None => None
      else None
  }

  /** `(?:[^q\\]|\\.)*q` after an opening quote at index i: where the quoted literal ends. */
  function QuotedLiteralEnd(s: string, j: nat, q: char): (r: Option<nat>)
    requires j <= |s|
    ensures r.Some? ==> j < r.value <= |s|
    decreases |s| - j
  {
    if j == |s| then None
    else if s[j] == q then Some(j + 1)
    else if s[j] == '\\' then
      if j + 1 < |s| && !IsLineTerminator(s[j + 1]) then QuotedLiteralEnd(s, j + 2, q) else None
    else QuotedLiteralEnd(s, j + 1, q)
  }

  /** `DEFAULT\s+('(?:[^'\\]|\\.)*'|"(?:[^"\\]|\\.)*"|\S+)` at index i: the raw value. */
  function DefaultAt(s: string, i: nat): Option<string>
    requires i <= |s|
  {
    match MatchAtoms([Lit("DEFAULT"), Spaces1], s, i)
    case None => None
    case Some(j) =>
      var quoted := if j < |s| && (s[j] == '\'' || s[j] == '"') then QuotedLiteralEnd(s, j + 1, s[j]) else None;
      if quoted.Some? then Some(s[j..quoted.value])
      else if j < |s| then Some(s[j..SkipNonSpace(s, j)])
      else None
  }

  /** An inline reference: target table and column. */
  datatype InlineRef = InlineRef(table: string, column: string)

  /** `\s*\(\s*"?(\w+)"?\s*\)` after the referenced table name. */
  function RefColumnTail(s: string, i: nat, qualified: bool): Option<InlineRef>
    requires i <= |s|
  {
    match QNameAt(s, i, qualified)
    case None => None
    case Some(q) =>
      var k := SkipSpaces(s, q.end);
      if k < |s| && s[k] == '(' then
        match QuotedWordAt(s, SkipSpaces(s, k + 1))
        case None => None
        case Some(c) =>
          var m := SkipSpaces(s, c.end);
          if m < |s| && s[m] == ')' then Some(InlineRef(q.name, c.text)) else None
      else None
  }

  /** `REFERENCES\s+(?:(?:"?\w+"?\.)?"?(\w+)"?)\s*\(\s*"?(\w+)"?\s*\)` at index i. */
  function InlineRefAt(s: string, i: nat): Option<InlineRef>
    requires i <= |s|
  {
    match MatchAtoms([Lit("REFERENCES"), Spaces1], s, i)
    case None => None
    case Some(q) =>
      var r := RefColumnTail(s, q, true);
      if r.Some? then r else RefColumnTail(s, q, false)
  }

  /** `FOREIGN\s+KEY\s*\(([^)]+)\)\s*REFERENCES ...` of parser.js:204 at index i. */
  function TableForeignKeyAt(s: string, i: nat): Option<ForeignKeyPart>
    requires i <= |s|
  {
    ForeignKeyAt(s, i)
  }

  // ---------------------------------------------------------------------------------------
  // Segment classification (parser.js:48)

  const ConstraintKeywords: seq<seq<Atom>> := [
    [Lit("PRIMARY"), Spaces1, Lit("KEY")], [Lit("FOREIGN"), Spaces1, Lit("KEY")], [Lit("UNIQUE")], [Lit("CHECK")]
  ]

  /** `^\s*(CONSTRAINT\s+\w+\s+)?(PRIMARY\s+KEY|FOREIGN\s+KEY|UNIQUE|CHECK)\s*`: there is no
      word boundary, so a column named `unique_code` or `checked` also counts as a constraint. */
  predicate IsConstraintSegment(s: string) {
    var i := SkipSpaces(s, 0);
    (match MatchAtoms([Lit("CONSTRAINT"), Spaces1, Word1, Spaces1], s, i)
     case Some(j) => MatchFirst(ConstraintKeywords, s, j).Some?
     case None => false)
    || MatchFirst(ConstraintKeywords, s, i).Some?
  }
}
