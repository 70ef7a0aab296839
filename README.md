# swift_migration DDL serializer, modelled in Dafny

This project models the serializer in `Source/migration.swift`. It turns typed
descriptions of schema changes into MySQL-flavoured DDL (data definition
language) statement strings. It has three layers:

- **Column types** (`ColumnTypes`, `column_type.dfy`). `MigrationColumnType` is a
  closed enum of 15 cases with `Int` raw values. `toString(constraint:)` gives the
  case's upper-case keyword, followed by `(c)` when a constraint `c` is present.
- **Columns** (`Columns`, `column.dfy`). `MigrationColumn` holds a name, a type, an
  optional constraint and five flags. It has four initialisers, each setting a
  different group of flags. `toString()` emits, in this fixed order:
  1. the name and the type rendering;
  2. `UNSIGNED`;
  3. one nullability/key clause, chosen by precedence (`NULL`, then `PRIMARY KEY`,
     then `UNIQUE`);
  4. `AUTO_INCREMENT`.
- **Statements** (`Statements`, `statement.dfy`). The six `MigrationType*` structs
  become constructors of one `Statement` datatype. `Sql` gives each one's `toSQL()`.
  `CREATE TABLE` joins the column renderings with `","` and leaves out the
  parentheses when the joined string is empty. `MigrationItem` is a plain record.

`Text` (`text.dfy`) holds the string helpers these use: prefix and suffix tests,
first-occurrence search, and joining with a separator (Swift's `joined(separator:)`).

Everything in the source is a pure function of its input, so the model is made
of functions. The source builds its column rendering and its `CREATE TABLE`
rendering step by step, growing a local `result` with `+=`. Those two are also
written as methods in that style (`ColumnToString`, `CreateToSql`), and each is
proved equal to the function that specifies it.

Each rendering has a partner in the model:
- Type renderings are parsed back (`ParseTypeString`). The roundtrip lemma shows
  that a rendering determines its type and its constraint.
- The text a column rendering adds after its name and type is parsed back into
  its flags (`ParseFlagText`).
- The leading words tell the three statement families apart: create, drop and
  alter. The four alter forms are not told apart by their text. Identifiers are
  spliced in unquoted, so different statements can render identically. For
  example, an added column named `RENAME` reads as a rename of a table named
  `t ADD` (`AddReadsAsRename`), and a create with columns reads as a create
  without columns (`CreateReadsAsBareCreate`). Within one statement form, the
  old column name of a change is recovered once the table and the column are
  fixed, and the new name of a rename once the table is fixed.

One might expect an empty constraint to act like an absent one. Line 76 tests
only for `nil`, so `Some("")` renders as `KEYWORD()`
(`EmptyConstraintKeepsParentheses`).

## Model

| member | source | states |
|---|---|---|
| ColumnTypes.RawValue | Source/migration.swift:7-24 | every case has a raw value below 15 |
| ColumnTypes.FromRawValue | Source/migration.swift:7-24 | `init?(rawValue:)` succeeds exactly for 0 through 14 |
| ColumnTypes.RawValueRoundTrip | Source/migration.swift:7-24 | converting a case to its raw value and back gives the same case |
| ColumnTypes.FromRawValueRoundTrip | Source/migration.swift:7-24 | every raw value from 0 to 14 names the case whose raw value it is |
| ColumnTypes.Keyword | Source/migration.swift:27-75 | each case's keyword is non-empty |
| ColumnTypes.KeywordUpperCase | Source/migration.swift:27-75 | every keyword consists of upper-case letters only, so it has no parenthesis |
| ColumnTypes.KeywordRoundTrip | Source/migration.swift:27-75 | reading a case's keyword back gives the case |
| ColumnTypes.ParseKeywordSound | Source/migration.swift:27-75 | a string that reads as a keyword is exactly that case's keyword |
| ColumnTypes.KeywordInjective | Source/migration.swift:27-75 | two cases share a keyword only if they are the same case: the 15 keywords are distinct |
| ColumnTypes.TypeString | Source/migration.swift:25-81 | the rendering starts with the keyword; with a constraint `c` it is keyword + "(" + c + ")": its length is exactly that, '(' sits right after the keyword and ')' is last |
| ColumnTypes.TypeStringParenthesis | Source/migration.swift:76-80 | a '(' appears if and only if a constraint is present, empty or not |
| ColumnTypes.TypeStringRoundTrip | Source/migration.swift:25-81 | parsing a type rendering gives back its type and its optional constraint |
| ColumnTypes.TypeStringInjective | Source/migration.swift:25-81 | two type renderings are equal if and only if their type and constraint are equal |
| ColumnTypes.EmptyConstraintKeepsParentheses | Source/migration.swift:76-79 | an empty present constraint renders as keyword + "()", which differs from having no constraint |
| Columns.EffectiveClause | Source/migration.swift:142-151 | the clause is NULL iff `nullable`; PRIMARY KEY iff not nullable and `primaryKey`; UNIQUE iff neither of those and `unique`; none otherwise |
| Columns.ColumnSql | Source/migration.swift:135-157 | the rendering is name + " " + type rendering, then the flag text; the character right after the name is a space, so a rendering is never empty |
| Columns.ColumnToString | Source/migration.swift:135-157 | building the string by successive appends gives exactly the rendering ColumnSql specifies |
| Columns.FlagTextRoundTrip | Source/migration.swift:137-156 | the text after name and type can be parsed back into `unsigned`, the selected clause and `autoIncrement` |
| Columns.UnsignedFollowsHead | Source/migration.swift:137-141 | " UNSIGNED" comes right after the type rendering if and only if `unsigned` is set |
| Columns.AutoIncrementEndsFlags | Source/migration.swift:152-156 | the text after name and type ends with " AUTO_INCREMENT" if and only if `autoIncrement` is set |
| Columns.AutoIncrementEndsRendering | Source/migration.swift:137-156 | the whole rendering ends with " AUTO_INCREMENT" if and only if `autoIncrement` is set. Without the flag the rendering ends in a flag word, ')' or a keyword, and none of those ends in "ENT" |
| Columns.NameStartsRendering | Source/migration.swift:137 | every rendering starts with the column's name followed by a space |
| Columns.SameHeadSameFlags | Source/migration.swift:137-156 | two columns with the same name and type rendering and the same full rendering emit the same flags |
| Columns.NullableWins | Source/migration.swift:142-145 | when `nullable` is set, the clause is " NULL" whatever `primaryKey` and `unique` say; clearing those two flags changes nothing |
| Columns.AutoIncrementIndependent | Source/migration.swift:152-156 | setting `autoIncrement` only appends " AUTO_INCREMENT" to the rendering without it, whatever the other flags are |
| Columns.NoFlagsHeadOnly | Source/migration.swift:137-151 | with every flag clear the rendering is only name + " " + type rendering: no NOT NULL is ever added |
| Columns.PlainColumn | Source/migration.swift:95-100 | name, type and constraint are kept; no flag reaches the rendering, so nothing follows name and type |
| Columns.KeyColumn | Source/migration.swift:102-111 | always unsigned and never nullable or unique; the text after name and type is " UNSIGNED", then " PRIMARY KEY" if asked for, then " AUTO_INCREMENT" if asked for |
| Columns.NullableColumn | Source/migration.swift:112-122 | primaryKey, unique, autoIncrement and unsigned are false; the text after name and type is " NULL" when nullable and empty otherwise |
| Columns.UniqueColumn | Source/migration.swift:123-133 | whatever the argument, `unique` is false and `unsigned` true: the text after name and type is exactly " UNSIGNED", never " UNIQUE" |
| Columns.UniqueColumnDropsUnique | Source/migration.swift:123-133 | passing `unique: true` or `unique: false` yields the same column, and its clause is none |
| Columns.UniqueColumnIntended | Source/migration.swift:123-133 | the corrected initialiser selects the UNIQUE clause exactly when asked |
| Columns.NullableFalseIsPlain | Source/migration.swift:95-122 | the nullable initialiser with `false` gives the same column as the plain initialiser |
| Columns.VarcharColumnExample | Source/migration.swift:137 | a plain column `name` of type VARCHAR with constraint "255" renders as `name VARCHAR(255)` |
| Text.Join | Source/migration.swift:169-171 | joining no parts gives ""; otherwise the result starts with the first part and ends with the last |
| Text.JoinLength | Source/migration.swift:169-171 | the joined length is the sum of the part lengths plus one separator between each two neighbours |
| Text.JoinSnoc | Source/migration.swift:169-171 | appending a part to a non-empty list appends the separator and that part to the joined string |
| Statements.ColumnStrings | Source/migration.swift:169-171 | the `map` of `toString()` over the columns: one rendering per column, in order |
| Statements.ColumnList | Source/migration.swift:167-172 | the comma-joined column renderings are empty if and only if there are no columns, and start with the first column's rendering |
| Statements.CreateToSql | Source/migration.swift:173-181 | adding " (" + columns + ")" only when the joined string is non-empty gives the same text as Sql's rule, which tests for an empty column list |
| Statements.Sql | Source/migration.swift:173-226 | Drop, Rename, Add, Change and Modify render their fixed templates. Create tests for an empty column list; `CreateToSql` proves that test equivalent to the source's test on the joined string. The properties are stated by the lemmas in the rows below |
| Statements.CreateShape | Source/migration.swift:173-181 | unfolds the create template: with no columns exactly "CREATE TABLE IF NOT EXISTS " + t, otherwise that prefix + " (" + the comma-joined renderings + ")". The substance of the create rule is in `CreateToSql` and the emptiness iff of `ColumnList` |
| Statements.LeadingWords | Source/migration.swift:173-226 | a rendering starts with "CREATE TABLE IF NOT EXISTS t" iff it is a create, with "DROP TABLE t" iff a drop, and with "ALTER TABLE t " iff one of the four alter statements |
| Statements.AlterEndsWithColumn | Source/migration.swift:199-226 | add, change and modify renderings end with a space and the column's rendering |
| Statements.ModifyIgnoresColumnName | Source/migration.swift:218-226 | the modify rendering does not depend on the stored `columnName` |
| Statements.ChangeDeterminesOldName | Source/migration.swift:208-217 | for a fixed table and column, two change renderings are equal iff their old column names are equal |
| Statements.RenameDeterminesNewName | Source/migration.swift:190-198 | for a fixed table, two rename renderings are equal iff their new table names are equal |
| Statements.AddReadsAsRename | Source/migration.swift:190-206 | adding a column named `RENAME` to table t gives the same text as renaming table `t ADD`, although the two statements differ |
| Statements.CreateReadsAsBareCreate | Source/migration.swift:175-178 | a create of t with columns gives the same text as a column-less create of the table named t + " (" + columns + ")", although the two statements differ |
| Statements.CreateEmptyExample | Source/migration.swift:173-181 | a create for `orders` with no columns renders as `CREATE TABLE IF NOT EXISTS orders` |
| Statements.DropExample | Source/migration.swift:183-189 | a drop of `users` renders as `DROP TABLE users` |
| Statements.RenameExample | Source/migration.swift:190-198 | renaming `users` to `accounts` renders as `ALTER TABLE users RENAME accounts` |

## Findings

| source | as written | input that shows it | evidently intended | confidence | as-written member | corrected member |
|---|---|---|---|---|---|---|
| Source/migration.swift:123-133 | the `unique:` initialiser sets `self.unique = false` and never reads its `unique` argument | `unique: true` gives a column whose rendering has no ` UNIQUE` clause | `self.unique = unique`, so the column is UNIQUE exactly when asked | not executed; high, since the argument is unused | Columns.UniqueColumn, Columns.UniqueColumnDropsUnique | Columns.UniqueColumnIntended |

Statements take any `Column` value and never call an initialiser. So the
corrected initialiser sits beside the as-written one as a definition of its own,
and no other part of the model depends on either.

## Left out

- The platform `import Darwin` / `import Glibc` block (lines 1-5) is a conditional library import and has no behaviour.
- The protocol `MigrationTypeProtocol` and its dynamic dispatch (lines 160-163) are replaced by the closed `Statement` datatype. Its `tableName` requirement is the field that every constructor shares.
- Swift's `characters.count` counts grapheme clusters (line 176). The model uses sequence length instead. Only emptiness is tested, and both counts agree on emptiness.
- Swift `String` is modelled as a sequence of characters. No Unicode normalisation, quoting, escaping or validation of identifiers or constraint text exists in the source, so strings pass through verbatim.
- `_columnString` returns `String?` but never returns `nil`, so `ColumnList` returns a plain string.
- The default argument values (`constraint: String? = nil` on `toString` and on the first initialiser) are not modelled: callers pass `None` explicitly.
- `MigrationItem` (lines 228-232) is only a record of a 64-bit version number and a statement. Ordering and applying migrations are not in this code.
- `MigrationColumnType.toString` is modelled only as the function `TypeString`. Its `switch` assigns a local and then appends once, which is exactly a `match` expression.
- Concrete rendering examples that involve columns inside statements are covered by the general lemmas (`CreateShape`, `AlterEndsWithColumn`, `ColumnSql`), not by literal test vectors.
