# Liquibase: CREATE INDEX generation and command-line resource fallback, in Dafny

This project models two small parts of Liquibase.

**`CreateIndexGenerator`** is the SQL generator for `CREATE INDEX` statements.
It reports the default specialization level. It claims every statement on
every database. It validates the two required fields, `tableName` and
`columns`. It assembles one SQL fragment:

- `CREATE `;
- `UNIQUE ` when the statement is unique;
- `INDEX <index> ON <table>(`;
- the escaped columns joined by `", "`, then `)`;
- a tablespace clause whose keyword depends on the database family
  (`ON` for MSSQL and Sybase ASA, `IN` for DB2 and Informix, `TABLESPACE`
  otherwise), emitted only when the tablespace is not blank and the database
  supports tablespaces.

**`CommandLineResourceAccessor`** is a class-loader resource accessor with one
fallback. A path that starts with `/` is also tried with that slash removed.
`openStreams` takes the first lookup that finds something. `list` merges the
listings into a sorted set and answers null when the merge is empty.

Layout:

- `Wrappers.dfy`: `Option`, standing for Java's nullable references.
- `Text.dfy`: separator joining (`Join`, with `Interleave`/`Flatten` as an
  independent description of the same layout) and Java's `trim` /
  `StringUtils.trimToNull`.
- `SortedStrings.dfy`: `java.util.TreeSet<String>` as a class over a strictly
  ascending `seq<string>`, with `add`, `addAll` and `isEmpty`.
- `CreateIndexGenerator.dfy`: the statement, the database capabilities, the
  validation accumulator, the generator, and the properties of its output.
- `CommandLineResourceAccessor.dfy`: alternate paths, `openStreams` and
  `list` over lookups passed as function parameters.

Modelling choices:

- The database is a value: a family tag (MSSQL, SybaseASA, DB2, Informix,
  Other) replaces the `instanceof` chain. It carries a `supportsTablespaces`
  flag and three escaping functions, which are left uninterpreted.
- The nullable `Boolean isUnique()` is `Uniqueness` =
  `Unspecified | Unique | NonUnique`.
- `generateSql` is a method that appends to a string buffer. Its loop mirrors
  the `iterator.hasNext()` loop. It is proved equal to the specification
  function `CreateIndexSql`, and the lemmas state what that text looks like.
- `validate` fills a fresh `ValidationErrors` object through two
  `CheckRequiredField` calls. The second call runs whatever the first one
  found, so both missing fields are reported together.
- The class-loader lookups (`super.openStreams`, `super.list`) are function
  parameters. Their absent results are `None`.
- `generateSql` does not check that validation passed: with an empty column
  array it renders `()`.
- `escapeIndexName` receives a null schema, as in the code; the table and
  column names are escaped with the statement's schema.

## Model

| member | source | states |
|---|---|---|
| `CreateIndexGenerator.SpecializationLevel` | core/src/java/liquibase/statement/generator/CreateIndexGenerator.java:15-17 | the generator always reports the default specialization level |
| `CreateIndexGenerator.IsValidGenerator` | core/src/java/liquibase/statement/generator/CreateIndexGenerator.java:19-21 | the generator applies to every statement on every database |
| `CreateIndexGenerator.UniquenessOf` | core/src/java/liquibase/statement/generator/CreateIndexGenerator.java:34 | null, true and false each map to their own uniqueness value, one to one |
| `CreateIndexGenerator.ValidationErrors.constructor` | core/src/java/liquibase/statement/generator/CreateIndexGenerator.java:24 | a fresh accumulator holds no errors |
| `CreateIndexGenerator.ValidationErrors.CheckRequiredField` | core/src/java/liquibase/statement/generator/CreateIndexGenerator.java:25-26 | a missing (null or empty) value adds its field name after the earlier ones; a present one changes nothing |
| `CreateIndexGenerator.RequiredFieldErrors` | core/src/java/liquibase/statement/generator/CreateIndexGenerator.java:23-27 | "tableName" is reported exactly when the table name is missing and "columns" exactly when the column array is; both are reported together, in that order, when both are missing; nothing else is ever reported |
| `CreateIndexGenerator.Validate` | core/src/java/liquibase/statement/generator/CreateIndexGenerator.java:23-28 | both checks run on a fresh accumulator, with no short-circuit, so it ends with the errors above; it is empty exactly when both fields are present, whatever the database |
| `CreateIndexGenerator.TablespaceKeyword` | core/src/java/liquibase/statement/generator/CreateIndexGenerator.java:52-58 | MSSQL and Sybase ASA take " ON ", DB2 and Informix take " IN ", every other database " TABLESPACE " |
| `CreateIndexGenerator.CreateIndexSql` | core/src/java/liquibase/statement/generator/CreateIndexGenerator.java:33-59 | the whole text of the fragment: it opens with the head up to "(", and ends with ")" followed by exactly the tablespace clause |
| `CreateIndexGenerator.TablespaceClause` | core/src/java/liquibase/statement/generator/CreateIndexGenerator.java:51-59 | the clause is non-empty exactly when the tablespace has a character beyond U+0020 and the database supports tablespaces; when emitted it is the family's keyword followed by the raw, untrimmed, unescaped tablespace |
| `CreateIndexGenerator.EscapedColumns` | core/src/java/liquibase/statement/generator/CreateIndexGenerator.java:41-44 | one escaped name per column, at the column's own position, escaped with the statement's schema and table |
| `CreateIndexGenerator.GenerateSql` | core/src/java/liquibase/statement/generator/CreateIndexGenerator.java:30-62 | the buffer built step by step equals `CreateIndexSql`, and exactly one fragment is returned; being a function of (statement, database), the same pair always yields the same text |
| `CreateIndexGenerator.CreateThenOptionalUnique` | core/src/java/liquibase/statement/generator/CreateIndexGenerator.java:33-37 | the text starts with "CREATE "; "UNIQUE " follows exactly when the statement is unique (null and false both omit it); "INDEX " comes next |
| `CreateIndexGenerator.ColumnListLayout` | core/src/java/liquibase/statement/generator/CreateIndexGenerator.java:40-49 | inside the parentheses stand the escaped columns in input order with exactly ", " between adjacent ones and none after the last; the tablespace clause follows the ")" |
| `CreateIndexGenerator.EndsWithTablespaceClause` | core/src/java/liquibase/statement/generator/CreateIndexGenerator.java:49-59 | the text after the closing ")" is exactly the tablespace clause |
| `CreateIndexGenerator.PersonIndexExample` | core/src/java/liquibase/statement/generator/CreateIndexGenerator.java:30-59 | a unique index on PERSON(LAST_NAME, FIRST_NAME) in USERSPACE1 with identity escaping renders as "CREATE UNIQUE INDEX IDX_PERSON ON PERSON(LAST_NAME, FIRST_NAME)" followed by " ON ", " IN " or " TABLESPACE " and "USERSPACE1", by family |
| `CreateIndexGenerator.TablespaceKeptUntrimmed` | core/src/java/liquibase/statement/generator/CreateIndexGenerator.java:51-55 | on Informix, " TS1 " passes the trimmed emptiness test yet is emitted as " IN  TS1 ", its blanks kept |
| `CreateIndexGenerator.BlankTablespaceOmitted` | core/src/java/liquibase/statement/generator/CreateIndexGenerator.java:51 | a tablespace of blanks and a tab emits no clause on any database |
| `Text.Interleave` | core/src/java/liquibase/statement/generator/CreateIndexGenerator.java:42-48 | the layout the column loop produces: element k at even position 2k, a separator at every odd position, 2n-1 pieces for n elements |
| `Text.JoinStep` | core/src/java/liquibase/statement/generator/CreateIndexGenerator.java:43-47 | one loop step: the join of one more column is the previous join, the separator, then the new column (the first column alone has no separator) |
| `Text.JoinIsInterleaved` | core/src/java/liquibase/statement/generator/CreateIndexGenerator.java:40-49 | the separator-joined text equals the concatenation of the interleaved layout: n-1 separators and no trailing one |
| `Text.TrimToNull` | core/src/java/liquibase/statement/generator/CreateIndexGenerator.java:51 | the trimmed tablespace is null exactly when the value is null or holds only characters up to U+0020; otherwise it is non-empty and has no blank at either end |
| `SortedStrings.TreeSet.constructor` | liquibase-core/src/main/java/liquibase/integration/commandline/CommandLineResourceAccessor.java:37 | a new sorted set is empty and ordered |
| `SortedStrings.TreeSet.Add` | liquibase-core/src/main/java/liquibase/integration/commandline/CommandLineResourceAccessor.java:40 | adding keeps the elements strictly ascending and adds exactly the one name |
| `SortedStrings.TreeSet.AddAll` | liquibase-core/src/main/java/liquibase/integration/commandline/CommandLineResourceAccessor.java:39-44 | `addAll` keeps the order and makes the contents the old contents plus the given names |
| `SortedStrings.TreeSet.IsEmpty` | liquibase-core/src/main/java/liquibase/integration/commandline/CommandLineResourceAccessor.java:45 | true exactly when the set holds no name |
| `CommandLineResourceAccessor.AlternatePaths` | liquibase-core/src/main/java/liquibase/integration/commandline/CommandLineResourceAccessor.java:54-63 | at most one alternate; none exactly when the path does not start with "/"; a "/" put back in front of the alternate gives the path, so only one leading slash is removed |
| `CommandLineResourceAccessor.FirstFound` | liquibase-core/src/main/java/liquibase/integration/commandline/CommandLineResourceAccessor.java:22-31 | the priority rule: null exactly when every path misses; otherwise the result of some path that every earlier path missed |
| `CommandLineResourceAccessor.FirstFoundAt` | liquibase-core/src/main/java/liquibase/integration/commandline/CommandLineResourceAccessor.java:24-28 | a hit after only misses is the result chosen, which is why the loop may return early |
| `CommandLineResourceAccessor.OpenStreams` | liquibase-core/src/main/java/liquibase/integration/commandline/CommandLineResourceAccessor.java:20-32 | the result is the first hit among the path and then its alternates, in that order; a hit on the path itself is returned unchanged, with no alternate consulted; a path without a leading "/" gives just the lookup's own result |
| `CommandLineResourceAccessor.ListedUnder` | liquibase-core/src/main/java/liquibase/integration/commandline/CommandLineResourceAccessor.java:42-44 | a name is gathered exactly when some alternate's listing holds it |
| `CommandLineResourceAccessor.Gathered` | liquibase-core/src/main/java/liquibase/integration/commandline/CommandLineResourceAccessor.java:37-44 | a name is gathered exactly when the path's own listing (if non-null) or the slash-less alternate's listing holds it; a null own listing contributes nothing |
| `CommandLineResourceAccessor.List` | liquibase-core/src/main/java/liquibase/integration/commandline/CommandLineResourceAccessor.java:35-49 | null exactly when nothing is gathered; otherwise a non-empty, strictly ascending sequence holding exactly the gathered names |

## Left out

- The database escaping functions (`escapeIndexName`, `escapeTableName`, `escapeColumnName`) belong to database classes that are not part of this model. They stay uninterpreted total functions.
- `ValidationErrors.checkRequiredField`: its definition is outside the modelled files. The model assumes a value is missing when it is null or empty (an empty string or an empty array); so a table name of blanks only is not reported. The accumulator records field names rather than message texts.
- `SqlGenerator.SPECIALIZATION_LEVEL_DEFAULT`: its definition is outside the modelled files. The model assumes the value 1; only its identity with the returned level matters.
- `StringUtils.trimToNull`: its definition is outside the modelled files. The model assumes Java's `String.trim` (drop characters up to U+0020 at both ends), giving null when nothing is left.
- Column entries are non-null strings (`seq<string>`). A Java `String[]` may hold a null entry, which `escapeColumnName` would then receive; the model cannot represent that input.
- GenerateSql: requires a non-null column array. Java's `Arrays.asList` would throw a `NullPointerException` on a null one, and that exception is not modelled. The generator does not require validation to have passed, and neither does the model.
- The generator registry, dispatch and the tie-breaking between equal specialization levels are not part of this model.
- `ClassLoaderResourceAccessor` and `InputStreamList` are not modelled. Their lookups are function parameters, and stream contents are opaque.
- `IOException` from the underlying lookups is not modelled.
- List: requires every alternate listing to be non-null. Java adds it without a null check, so a null one would throw a `NullPointerException`, which is not modelled.
- List: returns the sorted set's elements as a sequence instead of the `TreeSet` object itself.
- SortedStrings.Below: compares Dafny characters (Unicode scalar values), whereas Java's `String.compareTo` compares UTF-16 code units. The two orders differ only between supplementary characters and characters from U+E000 to U+FFFF.
- OpenStreams: the `consulted` out-parameter is ghost bookkeeping of the paths handed to the lookup. It stands in for the observation that the alternates are never tried once the path itself is found.
- The constructor `CommandLineResourceAccessor(ClassLoader)` only passes the loader on, and it is not modelled.
- The family tag stands for the `instanceof` tests; a database class that extends one of the four named classes is given that class's family by whoever builds the `Database` value.
