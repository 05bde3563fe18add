# Entidad-Relacion core in Dafny

This project models the three pieces of logic behind the Entidad-Relacion web app.

- **The SQL DDL parser** (`parseSQL`, `splitByComma`, `parseColumnDef`, `parseTableConstraint`).
  It reads `CREATE TABLE` and `ALTER TABLE … ADD … FOREIGN KEY` statements.
  It returns the tables with their columns and table constraints.
  It also returns the relationships between tables, with duplicates removed.
- **The hierarchical layout engine** (`computeLayout`, `computeTableWidth`, `getColumnIcons`).
  It gives every table a box (x, y, w, h) in six phases:
  topological layers, barycenter ordering, centred placement, four relaxation passes,
  overlap removal, and a final shift to the padding corner.
- **The prompt-template matcher** (`findBestTemplate`, `generateFromTemplate`).
  It scores each template by how many of its trigger keywords occur in the lower-cased input.
  It picks the earliest template with the best positive score, searching one category or the
  whole catalogue, and otherwise falls back to a fixed template.

Two small diagrams are worked through the whole layout (`LayoutExamples`): a chain of three
tables, each referencing the one before, and two tables that reference each other.

Every loop of the source is a Dafny `method` whose `ensures` ties its result to a
recursive specification function. The properties the source promises are lemmas about those
functions.

- Regular expressions are written out as small matchers (`SqlPatterns`).
  Each matcher follows the alternative order and the greedy or lazy behaviour of the pattern it
  replaces.
- JavaScript numbers are modelled as `real`.
- `Math.round` is modelled as floor(r + 1/2).
- Text width (`measureText`) is a function parameter.

The model keeps three behaviours of the code that a reader of the SQL might not expect:

- The type vocabulary at `js/er-diagram/parser.js:137` is an alternation tried in order, with no
  word boundary. So `TIMESTAMP` is recorded as type `TIME`, `JSONB` as `JSON` and `INTERVAL` as
  `INT`. The model records these types as the code does (`TypeExamples`).
- A bare `NULL` among the clauses, with no `NOT NULL`, clears `notNull` even when `SERIAL` or
  `PRIMARY KEY` has set it (`js/er-diagram/parser.js:155-160`).
- Column names are not checked for uniqueness within a table. Duplicate table names are
  allowed: `tableMap` then points at the last table with that lower-cased name.

## Model

| member | source | states |
|---|---|---|
| Text.Lower | js/prompt-gen/templates.js:317 | every character is mapped by the lower-case map, length kept |
| Text.Upper | js/er-diagram/parser.js:151 | every character is mapped by the upper-case map, length kept |
| Text.Trim | js/er-diagram/parser.js:46 | the result is the slice of the input left after all leading and all trailing white space is dropped, and it neither starts nor ends with white space |
| Text.RemoveAll | js/er-diagram/parser.js:129 | no occurrence of the removed character is left, and every other character is kept as many times as it occurs |
| Text.RemoveAllAppend | js/er-diagram/parser.js:129 | removal works piece by piece, so the kept characters stay in their order |
| Text.SplitOn | js/er-diagram/parser.js:66 | at least one part; joining the parts with the separator gives the input back, and no part holds the separator |
| Text.Includes | js/prompt-gen/templates.js:327 | `includes` holds exactly when the keyword occurs somewhere in the text |
| Text.ContainsFromSound | js/prompt-gen/templates.js:327 | an occurrence found from a position is an occurrence in the text |
| SqlComments.BlockClose | js/er-diagram/parser.js:10 | a found index holds a `*` `/` pair at or after the start |
| SqlComments.StripBlockComments | js/er-diagram/parser.js:10 | removing block comments never makes the text longer |
| SqlComments.StripBlockCommentsIdentity | js/er-diagram/parser.js:10 | text with no comment opener is left unchanged |
| SqlComments.BlockCloseFirst | js/er-diagram/parser.js:10 | the lazy match ends at the first star-slash after the opening |
| SqlComments.ClosedCommentRemoved | js/er-diagram/parser.js:10 | a comment at the front is removed up to the first star-slash, and the pass goes on after it |
| SqlComments.KeptBeforeSlash | js/er-diagram/parser.js:10 | text before the first slash is kept as it is |
| SqlComments.LineEnd | js/er-diagram/parser.js:11 | `.*` stops at the first line terminator, or at the end of the text |
| SqlComments.StripLineCommentsHead | js/er-diagram/parser.js:11 | a result that starts with `-` comes from an input that starts with `-` and does not open a comment there |
| SqlComments.StripLineCommentsNoDoubleDash | js/er-diagram/parser.js:11 | no `--` is left after line comments are removed |
| SqlComments.NormalizeNewlinesHead | js/er-diagram/parser.js:12 | a result that starts with `-` comes from an input that starts with `-` |
| SqlComments.NormalizeNewlinesNoDoubleDash | js/er-diagram/parser.js:12 | turning CR LF into LF creates no `--` |
| SqlComments.CleanSqlNoDoubleDash | js/er-diagram/parser.js:10-12 | the cleaned text holds no `--` |
| SqlScan.QuotedTextInert | js/er-diagram/parser.js:29-30 | inside a quoted string, any character other than an unescaped closing quote leaves depth and quote state unchanged |
| SqlScan.StepDepth | js/er-diagram/parser.js:29-35 | one scan step changes the depth by at most one, and lowers it only on a `)` outside a string |
| SqlScan.BodyEndFrom | js/er-diagram/parser.js:23-37 | a found end lies inside the text and at or after the start |
| SqlScan.BodyEnd | js/er-diagram/parser.js:23-37 | a found end lies inside the text and at or after the body start |
| SqlScan.BodyEndFromSpec | js/er-diagram/parser.js:23-37 | a found end is where the depth first reaches zero; no end means the depth stays positive to the end of the text |
| SqlScan.BodyEndSpec | js/er-diagram/parser.js:23-39 | from the body start at depth one: a found end is a `)` outside a string at depth one, where the depth first reaches zero; no end means it never does |
| SqlScan.ScanBody | js/er-diagram/parser.js:23-39 | the loop ends balanced exactly when a body end exists, and then stops on that closing `)` |
| SqlScan.SplitByComma | js/er-diagram/parser.js:101-123 | the loop returns the comma-separated parts of the specification |
| SqlScan.PiecesJoin | js/er-diagram/parser.js:108-120 | the parts so far, joined with commas, give back the text scanned so far |
| SqlScan.CommaPartsRoundTrip | js/er-diagram/parser.js:101-123 | joining the parts with commas gives back the input; a trailing part is dropped only when it is blank |
| SqlScan.SeparatorsBeforeMembers | js/er-diagram/parser.js:118 | a position is among the recorded cuts before k exactly when it is a separating comma before k |
| SqlScan.SeparatorsUpTo | js/er-diagram/parser.js:118 | the cuts before k are exactly the offsets at which the parts so far are joined |
| SqlScan.SeparatorsAreJoins | js/er-diagram/parser.js:101-123 | the input is cut exactly at the commas outside brackets and strings |
| SqlPatterns.MatchFirst | js/er-diagram/parser.js:137 | an alternation takes the first alternative, in written order, that matches |
| SqlPatterns.TypeVocabulary | js/er-diagram/parser.js:137 | the vocabulary has the 73 alternatives of the pattern, each entry in the order written |
| SqlPatterns.SimpleTypeEnd | js/er-diagram/parser.js:143 | a `\w+` type match is not empty and ends inside the text |
| SqlPatterns.CreateHeaderAt | js/er-diagram/parser.js:15 | a header match ends after its start and inside the text |
| SqlPatterns.AlterAt | js/er-diagram/parser.js:61 | an ALTER match ends after its start and inside the text |
| SqlPatterns.Search | js/er-diagram/parser.js:18 | `exec` returns the leftmost position where the pattern matches, and no earlier position matches |
| SqlPatterns.FindCreate | js/er-diagram/parser.js:15-18 | the next CREATE TABLE header is the leftmost one at or after the position |
| SqlPatterns.FindAlter | js/er-diagram/parser.js:61-63 | the next ALTER TABLE foreign key is the leftmost one at or after the position |
| SqlPatterns.Leftmost | js/er-diagram/parser.js:163-169 | an unanchored `test`/`match` gives the match at the leftmost position that matches, with no match before it; nothing only when no position matches |
| ErSchema.KindFor | js/er-diagram/parser.js:74 | many-to-many exactly when there is more than one source column |
| ColumnDefs.ApplyFlags | js/er-diagram/parser.js:155-161 | pk, unique and auto-increment are set by their clauses; notNull is set by SERIAL, PRIMARY KEY or NOT NULL unless a bare `NULL` occurs with no `NOT NULL`; nothing else changes |
| ColumnDefs.ApplyClauses | js/er-diagram/parser.js:150-178 | the column has the given name and type; its flags follow the clauses as in ApplyFlags; default and check come from the clauses; it has a reference exactly when the clauses have one |
| ColumnDefs.ColumnFrom | js/er-diagram/parser.js:132-180 | the column has the given name; a relationship comes back exactly when the column has a reference, and it is the inline relationship from this table and column |
| ColumnDefs.ParseColumnDefAsWritten | js/er-diagram/parser.js:125-181 | as written: the type text starts at the length of the unquoted name |
| ColumnDefs.ParseColumnDef | js/er-diagram/parser.js:125-181 | no column exactly when there is no second token or the name is reserved; otherwise the clauses fix the column, and a relationship comes back exactly when the column has a foreign key |
| ColumnDefs.SameColumnsBothWays | js/er-diagram/parser.js:125-130 | the corrected and the as-written definitions find a column for the same segments, under the same name |
| ColumnDefs.UnquotedNameAgrees | js/er-diagram/parser.js:129-132 | for a name without quotes, the corrected and the as-written definitions agree |
| ColumnDefs.TypeIsFirstVocabularyMatch | js/er-diagram/parser.js:137-141 | the type is the first vocabulary alternative that matches at the start of the type text |
| TableConstraints.CleanNames | js/er-diagram/parser.js:186 | one cleaned name per listed name, in order, with quotes removed |
| TableConstraints.ColumnList | js/er-diagram/parser.js:186 | one name per comma-separated part, so at least one |
| TableConstraints.Marked | js/er-diagram/parser.js:187-189 | a marked column keeps name and type, and gets only the flag or reference of its branch |
| TableConstraints.MarkedColumns | js/er-diagram/parser.js:187-189 | the same columns in the same order, with exactly the listed ones marked |
| TableConstraints.MarkColumns | js/er-diagram/parser.js:187-189 | the loop marks exactly what the specification marks |
| TableConstraints.ClassifyConstraint | js/er-diagram/parser.js:184-225 | the first branch that applies, in PRIMARY KEY, UNIQUE, FOREIGN KEY, CHECK order |
| TableConstraints.TableConstraintEffect | js/er-diagram/parser.js:183-226 | per branch, the constraint recorded, the columns marked and the relationship added; nothing else changes |
| TableConstraints.ParseTableConstraint | js/er-diagram/parser.js:183-226 | the method's new table and relationships are those of the effect |
| RelationshipDedup.DedupRelationships | js/er-diagram/parser.js:88-96 | the loop keeps what the specification keeps |
| RelationshipDedup.DedupKeys | js/er-diagram/parser.js:88-96 | the keys seen are the keys of the input, and also the keys of the kept list |
| RelationshipDedup.DedupSubsequence | js/er-diagram/parser.js:88-96 | the kept relationships are a subsequence of the input |
| RelationshipDedup.DedupKeysDiffer | js/er-diagram/parser.js:88-96 | no two kept relationships share a key |
| RelationshipDedup.DedupKeepsFirstAt | js/er-diagram/parser.js:88-96 | a relationship whose key has not occurred before it is kept |
| RelationshipDedup.DedupKeepsFirst | js/er-diagram/parser.js:88-96 | for every key, its first relationship in the input is the one kept |
| RelationshipDedup.DedupDistinct | js/er-diagram/parser.js:88-96 | a list whose keys already differ is kept whole |
| RelationshipDedup.DedupIdempotent | js/er-diagram/parser.js:88-96 | deduplicating twice is the same as deduplicating once |
| RelationshipDedup.DedupRelationshipsSpec | js/er-diagram/parser.js:88-96 | the result is a subsequence with distinct keys that keeps each key's first relationship and covers every key |
| SqlParser.ConstraintStep | js/er-diagram/parser.js:48-49 | a constraint segment keeps the table's name, schema and column names |
| SqlParser.ColumnStep | js/er-diagram/parser.js:51-52 | a parsed column keeps name and schema and adds its name at the end of the column names |
| SqlParser.ColumnSegment | js/er-diagram/parser.js:50-53 | the column names grow by one name exactly when the segment parses as a column |
| SqlParser.SegmentStep | js/er-diagram/parser.js:45-54 | name and schema are kept, and the column names grow by the segment's name exactly when it declares a column |
| SqlParser.BodySpec | js/er-diagram/parser.js:45-54 | walking the segments keeps the table's name and schema |
| SqlParser.BodyColumnsInDeclarationOrder | js/er-diagram/parser.js:45-54 | the column names are those of the column segments, in declaration order |
| SqlParser.ParseBody | js/er-diagram/parser.js:45-54 | the segment loop computes the specification |
| SqlParser.TableOf | js/er-diagram/parser.js:41-54 | the table carries the header's name and schema |
| SqlParser.AddTable | js/er-diagram/parser.js:56-57 | the table is appended, and the lower-cased name now points at it |
| SqlParser.CreatePassSkips | js/er-diagram/parser.js:39 | an unbalanced header adds nothing, and the scan goes on after that header |
| SqlParser.CreatePassAdds | js/er-diagram/parser.js:18-58 | a balanced header adds its table, and the scan goes on after that header |
| SqlParser.TablesInSourceOrder | js/er-diagram/parser.js:18-58 | the tables added are the balanced headers, in source order |
| SqlParser.AddTableKeepsMap | js/er-diagram/parser.js:56-57 | after adding, every map entry still names the last table with that lower-cased name |
| SqlParser.CreatePassKeepsMap | js/er-diagram/parser.js:18-58 | that map invariant holds through the whole CREATE pass |
| SqlParser.AlterTarget | js/er-diagram/parser.js:77-78 | a target exists exactly when the lower-cased table name is in the map at a valid index, and it is that index |
| SqlParser.MarkForeignKey | js/er-diagram/parser.js:79-83 | the target table's name is kept, and exactly the listed columns get references |
| SqlParser.AlterStep | js/er-diagram/parser.js:64-84 | the map is kept and the relationship is always appended; with no target the tables are unchanged, otherwise only the target is replaced by its marked version |
| SqlParser.AlterStepKeepsHeads | js/er-diagram/parser.js:77-84 | an ALTER statement keeps the name of every table |
| SqlParser.AlterStepKeepsMap | js/er-diagram/parser.js:77-84 | an ALTER statement keeps the map invariant |
| SqlParser.AlterPassKeepsMap | js/er-diagram/parser.js:63-85 | the ALTER pass keeps the map invariant |
| SqlParser.AlterPassKeepsTables | js/er-diagram/parser.js:63-85 | the ALTER pass keeps the number of tables and their names |
| SqlParser.CreateTables | js/er-diagram/parser.js:15-58 | the CREATE loop computes the CREATE pass |
| SqlParser.AlterTables | js/er-diagram/parser.js:61-85 | the ALTER loop computes the ALTER pass |
| SqlParser.ParseSql | js/er-diagram/parser.js:5-99 | `parseSQL` returns what the specification returns |
| SqlParser.EmptyInputParsesToNothing | js/er-diagram/parser.js:5-99 | empty text gives no tables and no relationships |
| SqlParser.ParsedMapPointsAtLast | js/er-diagram/parser.js:57 | after both passes, the map still points every lower-cased name at its last table |
| SqlParser.ParsedTablesInSourceOrder | js/er-diagram/parser.js:18-98 | the returned tables are the balanced CREATE TABLE statements, in source order |
| TypeExamples.IntervalReadsAsInt | js/er-diagram/parser.js:137 | a type text starting with `INTERVAL` is split after `INT`, the first alternative that matches |
| TypeExamples.JsonbReadsAsJson | js/er-diagram/parser.js:137 | a type text starting with `JSONB` is split after `JSON` |
| TypeExamples.TimestampReadsAsTime | js/er-diagram/parser.js:137 | a type text starting with `TIMESTAMP` is split after `TIME` |
| TypeExamples.IntegerReadsAsInteger | js/er-diagram/parser.js:137 | `INTEGER` is matched by its own alternative, over all seven letters |
| TypeExamples.QuoteAfterDHasNoVocabularyType | js/er-diagram/parser.js:137 | no vocabulary alternative matches the text `D"…` |
| TypeExamples.SplitBySimpleType | js/er-diagram/parser.js:143-144 | with no vocabulary match, the type is the `\w+` run and the rest follows it |
| TypeExamples.SplitAtWholeText | js/er-diagram/parser.js:139-141 | a vocabulary match over the whole text leaves nothing after the type |
| TypeExamples.SpellsOnlyQuotedId | js/er-diagram/parser.js:125-132 | the example definition is exactly the text `"id" INTEGER` |
| TypeExamples.QuotedDefIsColumn | js/er-diagram/parser.js:125-132 | both readings of `"id" INTEGER` give a column named `id` |
| TypeExamples.QuotedNameTypeAsWritten | js/er-diagram/parser.js:129-132 | as written, `"id" INTEGER` is given type `D` |
| TypeExamples.QuotedNameTypeCorrected | js/er-diagram/parser.js:129-132 | corrected, `"id" INTEGER` is given type `INTEGER` |
| StableSort.Insert | js/er-diagram/layout.js:47 | inserting adds exactly one element and keeps the others |
| StableSort.SortBy | js/er-diagram/layout.js:47 | the sort is a permutation of its input |
| StableSort.SortByIsSorted | js/er-diagram/layout.js:47 | the keys of the result are in ascending order |
| StableSort.FirstMin | js/er-diagram/layout.js:42-43 | the index of a smallest key, with every earlier key strictly larger |
| StableSort.SortByHead | js/er-diagram/layout.js:42-43 | the head of the sorted list is the earliest element with the smallest key |
| StableSort.SortByMembers | js/er-diagram/layout.js:126 | the sorted list has the same members as the input |
| LayoutSizes.ColumnIcons | js/er-diagram/layout.js:159-165 | key icon exactly when pk; link icon exactly when fk; diamond exactly when unique and not pk; in that order |
| LayoutSizes.IconTextIsJoin | js/er-diagram/layout.js:151-152 | the icon text is the icons joined with no separator |
| LayoutSizes.RowWidths | js/er-diagram/layout.js:150-154 | one measured width per column, in column order |
| LayoutSizes.Widest | js/er-diagram/layout.js:148-155 | the largest of the name width and the row widths, and equal to one of them |
| LayoutSizes.TableWidth | js/er-diagram/layout.js:156 | the width is the widest text plus the margin, clamped to [240, 380] |
| LayoutSizes.ComputeTableWidth | js/er-diagram/layout.js:146-157 | the loop computes the table width |
| LayoutSizes.NameSet | js/er-diagram/layout.js:25 | the set holds exactly the table names |
| LayoutSizes.ByNameKeys | js/er-diagram/layout.js:15-20 | a map built by name has exactly the table names as keys |
| LayoutSizes.ByNameLastWins | js/er-diagram/layout.js:19 | a table with no later table of the same name has its entry under its name |
| LayoutSizes.ByNameEntry | js/er-diagram/layout.js:19 | every entry comes from a table with that name |
| LayoutSizes.ComputeDim | js/er-diagram/layout.js:17-19 | the method computes the table's size |
| LayoutSizes.ComputeDims | js/er-diagram/layout.js:15-20 | the loop computes the size map |
| LayoutSizes.DimsBounds | js/er-diagram/main.js:24-27 | every size has width in [240, 380] and height 44 + 26 per column of a table with that name |
| LayoutGraph.EmptyGraph | js/er-diagram/layout.js:26 | the child map and the parent map are keyed by exactly the table names |
| LayoutGraph.EdgeStep | js/er-diagram/layout.js:28-33 | one relationship keeps both maps keyed by exactly the table names |
| LayoutGraph.EdgeStepLists | js/er-diagram/layout.js:31-32 | the lists of each table after one relationship, written out |
| LayoutGraph.GraphOf | js/er-diagram/layout.js:28-33 | the graph is keyed by exactly the table names |
| LayoutGraph.BuildGraph | js/er-diagram/layout.js:23-33 | the loop computes the graph |
| LayoutGraph.ChildHasEdge | js/er-diagram/layout.js:28-33 | a child is listed only if some relationship links the two tables |
| LayoutGraph.EdgeMakesChild | js/er-diagram/layout.js:28-33 | every relationship between two different known tables is listed |
| LayoutGraph.ParentsMirrorChildren | js/er-diagram/layout.js:31-32 | b is a child of a exactly when a is a parent of b |
| LayoutGraph.GraphEdges | js/er-diagram/layout.js:28-33 | a child is listed exactly when a relationship links them, and parent lists mirror child lists |
| LayoutGraph.GraphWellFormed | js/er-diagram/layout.js:29-30 | no table is its own child, and every listed name is a table |
| LayoutLayers.NamesWhere | js/er-diagram/layout.js:40 | the names of the tables that satisfy the filter, in table order |
| LayoutLayers.NextLevel | js/er-diagram/layout.js:51-58 | the loop computes the next level |
| LayoutLayers.AddChildrenMembers | js/er-diagram/layout.js:53-56 | a child is added exactly when it is unassigned and all its parents are assigned |
| LayoutLayers.AddChildrenNoDup | js/er-diagram/layout.js:51-56 | adding to the set never repeats a name |
| LayoutLayers.NextLevelMembers | js/er-diagram/layout.js:51-59 | a name is in the next level exactly when it is an unassigned child of the level whose parents are all assigned; no repeats |
| LayoutLayers.NextLevelFresh | js/er-diagram/layout.js:54 | the next level holds no assigned name |
| LayoutLayers.StepFacts | js/er-diagram/layout.js:46-60 | a round lists exactly the level's names, can be followed by another, and leaves fewer names unplaced |
| LayoutLayers.SeedCanStep | js/er-diagram/layout.js:40-44 | the seed lists only tables, none yet placed |
| LayoutLayers.PlaceLevel | js/er-diagram/layout.js:49 | the assigned set grows by the level's names |
| LayoutLayers.FirstLevel | js/er-diagram/layout.js:40-44 | the seed loop computes the first level |
| LayoutLayers.Step | js/er-diagram/layout.js:46-60 | one round computes the specification's round |
| LayoutLayers.WalkLoop | js/er-diagram/layout.js:46-60 | the while loop computes the specification's walk |
| LayoutLayers.AssignLayers | js/er-diagram/layout.js:36-63 | phase 1 computes the specification's layers |
| LayoutLayers.StepListsPlaced | js/er-diagram/layout.js:46-60 | a round keeps the listed names equal to the placed set |
| LayoutLayers.StepExtends | js/er-diagram/layout.js:46-60 | a round keeps the layers so far as a prefix |
| LayoutLayers.LoopPrefix | js/er-diagram/layout.js:46-60 | the walk keeps the layers so far as a prefix |
| LayoutLayers.LoopFirstAdded | js/er-diagram/layout.js:46-60 | the first layer the walk adds is the sorted current level |
| LayoutLayers.LoopListsPlaced | js/er-diagram/layout.js:46-60 | the walk keeps the listed names equal to the placed set, within the table names |
| LayoutLayers.StepNoDup | js/er-diagram/layout.js:46-60 | from a level and layers with no repeats, a round repeats no name |
| LayoutLayers.LoopNoDup | js/er-diagram/layout.js:46-60 | from a level and layers with no repeats, the walk repeats no name |
| LayoutLayers.StepParentsBefore | js/er-diagram/layout.js:51-58 | a round places a table only after all its parents |
| LayoutLayers.StepParentsPlaced | js/er-diagram/layout.js:51-58 | after a round, every parent of a placed table is placed |
| LayoutLayers.LoopParentsBefore | js/er-diagram/layout.js:51-58 | in the walk, every table after the first layer comes after all its parents |
| LayoutLayers.WalkListsPlaced | js/er-diagram/layout.js:46-60 | the walk from the seed lists exactly the placed names, all of them tables |
| LayoutLayers.OrphansMembers | js/er-diagram/layout.js:62 | orphans are exactly the tables the walk did not place |
| LayoutLayers.FlattenLayersOf | js/er-diagram/layout.js:62-63 | the layers list the walk's names followed by the orphans |
| LayoutLayers.LayersCover | js/er-diagram/layout.js:36-63 | every table name is in some layer, and only table names are |
| LayoutLayers.SeedNoDup | js/er-diagram/layout.js:40-44 | with distinct names, the seed repeats no name |
| LayoutLayers.WalkNoDup | js/er-diagram/layout.js:46-60 | with distinct names, the walk repeats no name |
| LayoutLayers.LayersNoDup | js/er-diagram/layout.js:36-63 | with distinct names, no name is in two layers or twice in one |
| LayoutLayers.LayersPartition | js/er-diagram/layout.js:36-63 | with distinct names, the layers together hold each table name exactly once |
| LayoutLayers.WalkParentsBefore | js/er-diagram/layout.js:51-58 | in layers after the first, each table comes after all its parents |
| LayoutLayers.SeedNonEmpty | js/er-diagram/layout.js:40-44 | with at least one table, the first level is not empty |
| LayoutLayers.FirstLayerIsSortedSeed | js/er-diagram/layout.js:47-48 | the first layer is the seed sorted by descending child count |
| LayoutLayers.FirstLayerRoots | js/er-diagram/layout.js:40-48 | when some table has no parents, the first layer is exactly those tables |
| LayoutLayers.FirstLayerFallback | js/er-diagram/layout.js:41-44 | when every table has a parent, the first layer is the earliest table with the most children |
| LayoutOrder.OnLayer | js/er-diagram/layout.js:69-70 | the parents kept are exactly those that are also on the previous layer |
| LayoutOrder.IndexOf | js/er-diagram/layout.js:71 | the first position of the name in the layer |
| LayoutOrder.IndexSumBounds | js/er-diagram/layout.js:71 | the sum of positions is at most the count times the largest position |
| LayoutOrder.BarycenterBounds | js/er-diagram/layout.js:71-72 | the barycenter lies in [0, len - 1], or is len / 2 when no parent is on the previous layer |
| LayoutOrder.Ordered | js/er-diagram/layout.js:66-75 | the same number of layers, with the first layer and the layers not yet reached unchanged |
| LayoutOrder.OrderLayers | js/er-diagram/layout.js:66-75 | the loop computes phase 2 |
| LayoutOrder.OrderedLayers | js/er-diagram/layout.js:66-75 | each layer is a permutation of itself, sorted by barycenter on the already-ordered previous layer |
| LayoutOrder.OrderedFlatten | js/er-diagram/layout.js:66-75 | phase 2 keeps the multiset of all names |
| LayoutPlace.Round | js/er-diagram/layout.js:93 | the result is a whole number within half a unit: above r - 1/2 and at most r + 1/2 |
| LayoutPlace.RoundMonotone | js/er-diagram/layout.js:93 | rounding keeps order |
| LayoutPlace.RoundShift | js/er-diagram/layout.js:139-140 | rounding commutes with a whole-number shift |
| LayoutPlace.ComputeLayerWidth | js/er-diagram/layout.js:79-81 | the loop computes the layer width |
| LayoutPlace.RowSpanPermutation | js/er-diagram/layout.js:78-82 | a row's span does not depend on the order of its tables |
| LayoutPlace.LayerWidthPermutation | js/er-diagram/layout.js:78-82 | the layer width does not depend on the order of its tables |
| LayoutPlace.LayerWidths | js/er-diagram/layout.js:78-82 | one width per layer |
| LayoutPlace.ComputeLayerWidths | js/er-diagram/layout.js:78-82 | the loop computes the layer widths |
| LayoutPlace.MaxOf | js/er-diagram/layout.js:83 | the largest entry, which is one of the entries |
| LayoutPlace.FillRow | js/er-diagram/layout.js:91-96 | the loop computes the row's boxes and its tallest height |
| LayoutPlace.PlaceLayer | js/er-diagram/layout.js:87-97 | one iteration computes the next row |
| LayoutPlace.PlaceLayersNext | js/er-diagram/layout.js:86-98 | placing k + 1 layers is placing k, then the next row from its centred start |
| LayoutPlace.PlaceTables | js/er-diagram/layout.js:85-98 | phase 3 computes the specification's placement |
| LayoutPlace.RowKeys | js/er-diagram/layout.js:91-93 | the row adds exactly its names as keys |
| LayoutPlace.RowEntries | js/er-diagram/layout.js:92-93 | each box in the row has the row's rounded y and its size |
| LayoutPlace.RowKeepsOthers | js/er-diagram/layout.js:91-96 | boxes not in the row are unchanged |
| LayoutPlace.RowMaxH | js/er-diagram/layout.js:95 | the tracked height is at least that of every box in the row |
| LayoutPlace.LayersFacts | js/er-diagram/layout.js:85-98 | the keys are the names of the layers placed so far, each box has its size, and every y is whole |
| LayoutPlace.TopGrows | js/er-diagram/layout.js:97 | the row y after layer i is at least layer i's y plus any of its heights plus 90 |
| LayoutPlace.LayerY | js/er-diagram/layout.js:85-98 | a box of layer i has the rounded y of that layer's row |
| LayoutPlace.PlacedFacts | js/er-diagram/layout.js:85-98 | the placement has every layer name as key, with its size |
| LayoutPlace.GapAfterRound | js/er-diagram/layout.js:93 | a vertical gap of at least h + 90 survives rounding, for a whole h |
| LayoutPlace.PlacedBelow | js/er-diagram/layout.js:85-98 | a box on a later layer starts at least 90 below the bottom of a box on an earlier layer |
| LayoutRefine.Present | js/er-diagram/layout.js:105 | the kept neighbours are those that have a box, in order |
| LayoutRefine.Pull | js/er-diagram/layout.js:104-109 | only the named box's x changes, and with no neighbour nothing changes |
| LayoutRefine.PullTowardsTarget | js/er-diagram/layout.js:107-109 | the distance from the centre to the neighbours' mean centre shrinks by the factor |
| LayoutRefine.PullRow | js/er-diagram/layout.js:103-110 | pulling a row keeps every key, every y and every size |
| LayoutRefine.Forward | js/er-diagram/layout.js:102-111 | the forward pass keeps every key, every y and every size |
| LayoutRefine.Backward | js/er-diagram/layout.js:112-121 | the backward pass keeps every key, every y and every size |
| LayoutRefine.RefinePass | js/er-diagram/layout.js:102-121 | one pass keeps every key, every y and every size |
| LayoutRefine.Refined | js/er-diagram/layout.js:101-122 | the passes keep every key, every y and every size |
| LayoutRefine.PullTable | js/er-diagram/layout.js:104-109 | the method computes the pull |
| LayoutRefine.PullLayer | js/er-diagram/layout.js:103-110 | the loop computes the row pull |
| LayoutRefine.ForwardPass | js/er-diagram/layout.js:102-111 | the loop computes the forward pass |
| LayoutRefine.BackwardPass | js/er-diagram/layout.js:112-121 | the loop computes the backward pass |
| LayoutRefine.RefineLayout | js/er-diagram/layout.js:101-122 | phase 4 computes four passes |
| LayoutSeparate.Push | js/er-diagram/layout.js:128-131 | the box's x becomes the larger of its x and the previous box's right edge plus 50 |
| LayoutSeparate.Sweep | js/er-diagram/layout.js:127-132 | the sweep keeps the keys |
| LayoutSeparate.SweepFrame | js/er-diagram/layout.js:127-132 | the sweep keeps every key, every y and every size |
| LayoutSeparate.SeparateLayer | js/er-diagram/layout.js:126-132 | one layer's sweep keeps keys, sizes and y |
| LayoutSeparate.Separated | js/er-diagram/layout.js:125-133 | phase 5 keeps keys, sizes and y |
| LayoutSeparate.PushRight | js/er-diagram/layout.js:128-131 | the method computes the push |
| LayoutSeparate.SweepRow | js/er-diagram/layout.js:127-132 | the loop computes the sweep |
| LayoutSeparate.SeparateRow | js/er-diagram/layout.js:126-132 | the method computes one layer's sweep |
| LayoutSeparate.SeparateLayers | js/er-diagram/layout.js:125-133 | the loop computes phase 5 |
| LayoutSeparate.SweepPushesRight | js/er-diagram/layout.js:131 | the sweep only moves boxes to the right |
| LayoutSeparate.SweepKeepsOthers | js/er-diagram/layout.js:127-132 | boxes not in the sorted row are unchanged |
| LayoutSeparate.SweepKeepsRest | js/er-diagram/layout.js:127-132 | boxes past the swept prefix of the row are unchanged |
| LayoutSeparate.SweepGaps | js/er-diagram/layout.js:127-132 | after the sweep, each box starts at least 50 right of the previous box's right edge |
| LayoutSeparate.PushKeepsGap | js/er-diagram/layout.js:130-131 | a push that moves neither of two boxes keeps the gap between them |
| LayoutSeparate.SweepGapLast | js/er-diagram/layout.js:130-131 | the last swept box is gapped from the one before it |
| LayoutSeparate.SeparateLayerKeepsOthers | js/er-diagram/layout.js:126-132 | one layer's sweep leaves other boxes unchanged |
| LayoutGaps.SweepGapped | js/er-diagram/layout.js:127-132 | in the sorted row, every pair of consecutive boxes is gapped after the sweep |
| LayoutGaps.SeparateLayerGaps | js/er-diagram/layout.js:126-132 | after one layer's sweep its boxes are gapped in sorted order |
| LayoutGaps.SeparatedKeeps | js/er-diagram/layout.js:125-133 | later layers' sweeps leave an earlier layer's boxes unchanged |
| LayoutGaps.SeparatedGapsAt | js/er-diagram/layout.js:125-133 | right after that layer's sweep, its boxes are gapped in sweep order |
| LayoutGaps.LayerKept | js/er-diagram/layout.js:125-133 | with disjoint layers, one layer's boxes survive the rest of phase 5 |
| LayoutGaps.SeparatedGaps | js/er-diagram/layout.js:125-133 | after phase 5, every layer is gapped in some order |
| LayoutGaps.ChainGap | js/er-diagram/layout.js:127-132 | gaps between consecutive boxes add up to a gap between any two |
| LayoutGaps.SeparatedApart | js/er-diagram/layout.js:125-133 | after phase 5, any two boxes of one layer are at least 50 apart, one way or the other |
| LayoutNormalize.Least | js/er-diagram/layout.js:136-137 | the smallest coordinate, which some box has |
| LayoutNormalize.LeastCoords | js/er-diagram/layout.js:136-137 | the loop finds the smallest x and the smallest y |
| LayoutNormalize.ShiftedAll | js/er-diagram/layout.js:138-141 | shifting keeps the keys |
| LayoutNormalize.ShiftAll | js/er-diagram/layout.js:138-141 | the loop computes the shift |
| LayoutNormalize.Normalized | js/er-diagram/layout.js:135-141 | phase 6 keeps keys and sizes |
| LayoutNormalize.Normalize | js/er-diagram/layout.js:135-141 | the method computes phase 6 |
| LayoutNormalize.ShiftedCorner | js/er-diagram/layout.js:138-141 | shifting by the smallest coordinates puts the leftmost box at x = 80 and the topmost at y = 70 |
| LayoutNormalize.NormalizedCorner | js/er-diagram/layout.js:135-141 | after phase 6, the smallest x is 80 and the smallest y is 70 |
| LayoutNormalize.ShiftedRows | js/er-diagram/layout.js:140 | with whole-number y values, shifting keeps vertical distances |
| LayoutNormalize.NormalizedKeepsRows | js/er-diagram/layout.js:135-141 | with whole-number y values, phase 6 keeps every vertical distance exactly |
| LayoutNormalize.NormalizedKeepsColumns | js/er-diagram/layout.js:139 | rounding loses less than one unit of a horizontal gap |
| Layout.GraphClosed | js/er-diagram/layout.js:29 | every name in the graph is a table name |
| Layout.LayersFor | js/er-diagram/layout.js:36-75 | at least one layer, and the layers hold exactly the table names |
| Layout.PlacedCovers | js/er-diagram/layout.js:85-98 | every layer name has a box after phase 3 |
| Layout.PlacedFor | js/er-diagram/layout.js:85-98 | for these tables, every name in their layers has a box after phase 3 |
| Layout.RefinedFor | js/er-diagram/layout.js:101-122 | every layer name still has a box after phase 4 |
| Layout.ComputeLayout | js/er-diagram/layout.js:5-144 | `computeLayout` returns what the specification returns |
| Layout.LayoutEmpty | js/er-diagram/layout.js:7 | no tables give no boxes |
| Layout.FramesKept | js/er-diagram/layout.js:85-133 | phases 4 and 5 keep each box's y and size |
| Layout.DimsKeys | js/er-diagram/layout.js:15-20 | the size map has the table names as keys |
| Layout.PlacedBoxes | js/er-diagram/layout.js:85-98 | every table gets a box with its size |
| Layout.SeparatedBoxes | js/er-diagram/layout.js:85-133 | after phase 5, every table still has its box and size |
| Layout.LayoutBoxes | js/er-diagram/layout.js:5-144 | the result has exactly the table names as keys, each box sized from its table |
| Layout.LayoutWidths | js/er-diagram/layout.js:156 | every box in the result is between 240 and 380 wide |
| Layout.LayoutCorner | js/er-diagram/layout.js:135-141 | the leftmost box starts at x = 80 and the topmost at y = 70 |
| Layout.WholeHeight | js/er-diagram/layout.js:18 | every height is a whole number |
| Layout.LayersDisjoint | js/er-diagram/layout.js:36-63 | with distinct names, no name is in two layers |
| Layout.LayoutRows | js/er-diagram/layout.js:85-141 | a box on a later layer starts at least 90 below the bottom of a box on an earlier layer |
| Layout.LayoutApart | js/er-diagram/layout.js:125-141 | two boxes of one layer do not overlap: one starts more than 49 right of the other's right edge |
| LayoutExamples.SinglesOrdered | js/er-diagram/layout.js:66-75 | the barycentre ordering leaves layers of one table each unchanged |
| LayoutExamples.SinglesWalk | js/er-diagram/layout.js:62-75 | when the walk places every table, one per layer, its layers are the final ones: no orphan layer is added and the ordering changes nothing |
| LayoutExamples.ChainGraph | js/er-diagram/layout.js:22-33 | for three distinct tables where c references b and b references a, each table's only child is the table that references it and its only parent the table it references |
| LayoutExamples.ChainLayers | js/er-diagram/layout.js:35-75 | that chain lands in layers 0, 1 and 2: exactly [[a], [b], [c]] |
| LayoutExamples.ChainRows | js/er-diagram/layout.js:85-141 | drawn, the chain's three boxes are the only ones, each starts at least 90 below the bottom of the box it references, and the y coordinates strictly increase along the chain |
| LayoutExamples.PairGraph | js/er-diagram/layout.js:22-33 | for two distinct tables that reference each other, each is the other's only child and only parent |
| LayoutExamples.PairLayers | js/er-diagram/layout.js:40-63 | with no root, the walk is seeded with the first table, reaches the second, and stops: the layers are exactly [[a], [b]], with nothing left over |
| LayoutExamples.PairRows | js/er-diagram/layout.js:85-141 | drawn, the pair gets exactly two boxes, the second at least 90 below the bottom of the first |
| PromptTemplates.CatalogueShape | js/prompt-gen/templates.js:5-314 | the catalogue is well formed (every category has a template), has seven categories with distinct ids, and no id is empty or `all` |
| PromptTemplates.CatalogueTriggers | js/prompt-gen/templates.js:5-314 | no trigger keyword is empty |
| PromptTemplates.Score | js/prompt-gen/templates.js:327 | a score is at most the number of keywords |
| PromptTemplates.ScoreCounts | js/prompt-gen/templates.js:327 | the score is the number of keywords that occur in the input |
| PromptTemplates.ScorePositive | js/prompt-gen/templates.js:327 | the score is positive exactly when some keyword occurs |
| PromptTemplates.ScanAppend | js/prompt-gen/templates.js:337-342 | scanning two lists in turn is scanning their concatenation |
| PromptTemplates.ScanTemplates | js/prompt-gen/templates.js:326-329 | the loop computes the scan |
| PromptTemplates.PickBounds | js/prompt-gen/templates.js:324-329 | the best score is at least every template's score, and nothing is picked exactly when it is 0 |
| PromptTemplates.PickFirst | js/prompt-gen/templates.js:328 | the pick has the best score, and every earlier template scores less |
| PromptTemplates.PickIsFirstBest | js/prompt-gen/templates.js:324-329 | nothing is picked exactly when all scores are 0; otherwise the pick is the first template with the best score |
| PromptTemplates.PickIsMember | js/prompt-gen/templates.js:326-329 | the pick is one of the templates |
| PromptTemplates.FindCategory | js/prompt-gen/templates.js:321 | the first category with that id; none exactly when no category has it |
| PromptTemplates.FindOwnCategory | js/prompt-gen/templates.js:321 | with distinct ids, looking up a category's id finds that category |
| PromptTemplates.InAllTemplates | js/prompt-gen/templates.js:337-338 | a template of any category is in the whole-catalogue list |
| PromptTemplates.FromSomeCategory | js/prompt-gen/templates.js:337-338 | every template in the whole-catalogue list belongs to some category |
| PromptTemplates.FindBestTemplate | js/prompt-gen/templates.js:316-346 | the method computes the specification |
| PromptTemplates.BestInCategory | js/prompt-gen/templates.js:320-331 | in a chosen category: its first best-scoring template, or its first template when nothing scores |
| PromptTemplates.BestOverall | js/prompt-gen/templates.js:334-345 | otherwise: the first best-scoring template of the whole catalogue, or the first category's first template |
| PromptTemplates.BlankScoresNothing | js/prompt-gen/templates.js:327 | with no empty keyword, empty input scores 0 |
| PromptTemplates.BlankInput | js/prompt-gen/templates.js:316-346 | empty input gives the fallback template of the branch taken |
| PromptTemplates.BlankInputOnCatalogue | js/prompt-gen/templates.js:330 | on the catalogue, empty input gives "Plan de Implementación", or the named category's first template |
| PromptTemplates.BestIsCatalogued | js/prompt-gen/templates.js:316-346 | the template returned is always one of the catalogue's |
| PromptTemplates.GenerateFromTemplate | js/prompt-gen/templates.js:348-354 | the result names the best template and holds its text for the input |

## Left out

- Reading files, the DOM, the canvas and the event handlers are not modelled.
- `measureText` is a `Measure` function parameter, because text widths depend on fonts.
- Template texts (`generate`) come from a function parameter. Only names and triggers are modelled.
  The catalogue's icons and descriptions are also left out.
- Text.Upper maps ASCII and Latin-1 letters only, one character to one character. JavaScript's
  `toUpperCase` also maps letters beyond Latin-1, and it turns ß into `SS` and µ into the Greek
  capital mu (U+039C), which the model leaves unchanged; so "length kept" holds for the model
  and not for JavaScript on such text.
- Text.Lower maps ASCII and Latin-1 letters only. JavaScript's `toLowerCase` maps all of Unicode,
  and a few letters beyond Latin-1 (such as U+0130) become two characters.
- `tableMap` is a map from lower-case names to table indexes.
  The inherited keys of a JavaScript object (such as `constructor`) are not modelled.
- `ColumnDefs.ParseColumnDef` returns the inline relationship rather than pushing it onto the
  shared list. The caller appends it, in the same order.
- The `layer` map of `js/er-diagram/layout.js:36,49` is not modelled, because nothing reads it.
- JavaScript numbers are modelled as reals, with no rounding error and no overflow.
- Strings are sequences of Unicode characters, not of UTF-16 code units. JavaScript's `length`
  and `substring` count code units, so a character outside the Basic Multilingual Plane (such
  as 😀) counts twice there and once here. The cuts at `js/er-diagram/parser.js:132`, `:145`
  and `:148` can therefore differ when the text before the cut holds such a character. For
  `"a"b😀 TEXT`, JavaScript cuts after four code units, where ColumnDefs.ParseColumnDefAsWritten
  cuts after three characters.
- `LayoutNormalize.LeastCoords` starts from the first box rather than `Infinity`. On a nonempty
  map both give the same minimum, and an empty map returns before this loop.
- The walks over `positions` in phase 6 take the names in any order. The results do not depend on
  that order.
- `Layout.LayoutApart`: the gap is stated as more than 49, not as at least 50. The final
  `Math.round` can take up to one unit off a gap.
- `LayoutLayers.LayersPartition`, `LayoutLayers.LayersNoDup`, `LayoutLayers.WalkNoDup`,
  `LayoutLayers.SeedNoDup`, `Layout.LayersDisjoint`, `Layout.LayoutRows` and `Layout.LayoutApart`
  require distinct table names. With repeated names, the source's `tables.filter(...)` lists
  each copy, and the boxes of the copies overwrite each other.
- `PromptTemplates.FindBestTemplate` takes `categoryId` as an `Option<string>`. None and the empty
  string stand for the source's falsy values.
- `PromptTemplates.FindBestTemplate` requires every category to have a template. With an empty
  category, the source would return `undefined`.
- `StableSort.SortBy`: stability is built into the definition, but no lemma states it.
- No SQL statement is worked through the whole parser as a concrete example, because the pattern
  matchers make such proofs long. For each of the following statements the model proves the facts
  at the level of one column or one relationship instead.
  A `CREATE TABLE` with two columns, one `PRIMARY KEY` and one `NOT NULL`: ColumnDefs.ApplyFlags
  and ColumnDefs.ParseColumnDef give each column its flags.
  A column with an inline `REFERENCES t(id)`: ColumnDefs.ColumnFrom gives the relationship
  `fk_<table>_<column>` from that column to `t.id`.
  A foreign key declared inline and again by `ALTER TABLE … ADD CONSTRAINT <name> FOREIGN KEY`:
  RelationshipDedup.DedupRelationshipsSpec keeps one relationship per key.
- SqlParser.ParseSql uses the corrected ColumnDefs.ParseColumnDef (see "## Findings"), not
  ColumnDefs.ParseColumnDefAsWritten. For a column whose name is written in double quotes it
  reads the type and the clauses after the whole quoted token; the source reads them from inside
  the name, so `"id" INTEGER` gets type `D` there (TypeExamples.QuotedNameTypeAsWritten).
  Which segments declare columns, the column names and their order are the same under both
  definitions (ColumnDefs.SameColumnsBothWays). Without quotes in the name
  the two agree outright (ColumnDefs.UnquotedNameAgrees).
- SqlParser.CreateTables: as SqlParser.ParseSql, a quoted column name gets the corrected type and clauses.
- SqlParser.TableOf: as SqlParser.ParseSql, a quoted column name gets the corrected type and clauses.
- SqlParser.ParseBody: as SqlParser.ParseSql, a quoted column name gets the corrected type and clauses.
- SqlParser.BodySpec: as SqlParser.ParseSql, a quoted column name gets the corrected type and clauses.
- SqlParser.SegmentStep: as SqlParser.ParseSql, a quoted column name gets the corrected type and clauses.
- SqlParser.ColumnSegment: as SqlParser.ParseSql, a quoted column name gets the corrected type and clauses.
- SqlParser.DeclaresColumn: decides with ColumnDefs.ParseColumnDef, which gives the same answer as
  the as-written definition (ColumnDefs.SameColumnsBothWays).
- SqlComments.StripBlockComments: its own contract is only a length bound. What it removes is
  stated by SqlComments.StripBlockCommentsIdentity (no opener: unchanged),
  SqlComments.ClosedCommentRemoved (a closed comment at the front goes, up to the first
  star-slash) and SqlComments.KeptBeforeSlash (text before a slash stays).
- SqlPatterns.CreateHeaderAt: its own contract states only where a match ends. Which header is
  found is stated by SqlPatterns.FindCreate and SqlParser.TablesInSourceOrder.
- SqlPatterns.AlterAt: its own contract states only where a match ends. Which statement is
  found is stated by SqlPatterns.FindAlter.
- SqlPatterns.SimpleTypeEnd: its own contract states only that the match is not empty. The type
  it yields is stated by TypeExamples.SplitBySimpleType.
- SqlScan.BodyEnd: its own contract is a bound. Its meaning is stated by SqlScan.BodyEndSpec.
- LayoutGraph.EdgeStep: its own contract states only that the keys are kept. Its lists are
  stated by LayoutGraph.EdgeStepLists.

## Findings

| source | as written | input that shows it | evidently intended | confidence | as-written member | corrected member |
|---|---|---|---|---|---|---|
| js/er-diagram/parser.js:129-132 | the text after the name is cut at the length of the name with its quotes removed | the column definition `"id" INTEGER` is given type `D` | cut after the whole first token, giving type `INTEGER` | not executed | ColumnDefs.ParseColumnDefAsWritten (shown by TypeExamples.QuotedNameTypeAsWritten) | ColumnDefs.ParseColumnDef (shown by TypeExamples.QuotedNameTypeCorrected) |
