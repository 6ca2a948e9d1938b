/**
  The SQL generator for `CREATE INDEX` statements: its dispatch answers
  (specialization level, applicability), the validation of its two required
  fields, and the assembly of the single SQL fragment it emits.
 */
module CreateIndexGenerator {
  import opened Wrappers
  import opened Text

  /** The statement's `isUnique()`: a nullable `Boolean`. */
  datatype Uniqueness = Unspecified | Unique | NonUnique

  /** Reads a nullable `Boolean` as a `Uniqueness`; each of null, true and
      false keeps its own value. */
  function UniquenessOf(isUnique: Option<bool>): (u: Uniqueness)
    ensures u == Unspecified <==> isUnique.None?
    ensures u == Unique <==> isUnique == Some(true)
    ensures u == NonUnique <==> isUnique == Some(false)
  {
    match isUnique
    case None => Unspecified
    case Some(b) => if b then Unique else NonUnique
  }

  /** The database classes that the tablespace clause tells apart. */
  datatype Family = MSSQL | SybaseASA | DB2 | Informix | Other

  /** What the generator asks of the target database. The three escaping
      functions belong to the database classes and stay uninterpreted. */
  datatype Database = Database(
    family: Family,
    supportsTablespaces: bool,
    escapeIndexName: (Option<string>, Option<string>) -> string,
    escapeTableName: (Option<string>, Option<string>) -> string,
    escapeColumnName: (Option<string>, Option<string>, string) -> string)

  /** The fields of a `CreateIndexStatement` the generator reads. */
  datatype CreateIndexStatement = CreateIndexStatement(
    indexName: Option<string>,
    tableSchemaName: Option<string>,
    tableName: Option<string>,
    columns: Option<seq<string>>,
    isUnique: Uniqueness,
    tablespace: Option<string>)

  /** `UnparsedSql`: one fragment of SQL text. */
  datatype Sql = UnparsedSql(text: string)

  // ----- Dispatch answers -----

  /** `SqlGenerator.SPECIALIZATION_LEVEL_DEFAULT`. */
  const SPECIALIZATION_LEVEL_DEFAULT: int := 1

  /** This generator is the default one for its statement type. */
  function SpecializationLevel(): (level: int)
    ensures level == SPECIALIZATION_LEVEL_DEFAULT
  {
    SPECIALIZATION_LEVEL_DEFAULT
  }

  /** The generator applies to every statement on every database. */
  function IsValidGenerator(statement: CreateIndexStatement, database: Database): (valid: bool)
    ensures valid
  {
    true
  }

  // ----- Validation -----

  /** A value handed to `checkRequiredField`: a string or a string array. */
  datatype FieldValue = StringValue(text: Option<string>) | ArrayValue(items: Option<seq<string>>)

  /** A required field counts as missing when it is null or empty. */
  predicate Missing(value: FieldValue) {
    match value
    case StringValue(t) => t.None? || t.value == ""
    case ArrayValue(a) => a.None? || a.value == []
  }

  /** The accumulator `validate` fills: the names of the required fields found
      missing, in the order they were checked. */
  class ValidationErrors {
    var missingFields: seq<string>

    constructor ()
      ensures missingFields == []
    {
      missingFields := [];
    }

    /** Records `field` when its value is missing; otherwise changes nothing. */
    method CheckRequiredField(field: string, value: FieldValue)
      modifies this
      ensures missingFields == old(missingFields) + (if Missing(value) then [field] else [])
    {
      if Missing(value) {
        missingFields := missingFields + [field];
      }
    }
  }

  /** The fields `validate` reports for a statement: "tableName" exactly when
      the table name is missing, "columns" exactly when the column array is,
      both when both are, and nothing else. */
  function RequiredFieldErrors(statement: CreateIndexStatement): (fields: seq<string>)
    ensures "tableName" in fields <==> Missing(StringValue(statement.tableName))
    ensures "columns" in fields <==> Missing(ArrayValue(statement.columns))
    ensures forall f :: f in fields ==> f == "tableName" || f == "columns"
    ensures |fields| <= 2
    ensures |fields| == 2 ==> fields == ["tableName", "columns"]
  {
    (if Missing(StringValue(statement.tableName)) then ["tableName"] else [])
    + (if Missing(ArrayValue(statement.columns)) then ["columns"] else [])
  }

  /** `validate`: both required-field checks run, one after the other, on a
      fresh accumulator; the database plays no part. */
  method Validate(statement: CreateIndexStatement, database: Database) returns (errors: ValidationErrors)
    ensures fresh(errors)
    ensures errors.missingFields == RequiredFieldErrors(statement)
    ensures errors.missingFields == [] <==> !Missing(StringValue(statement.tableName)) && !Missing(ArrayValue(statement.columns))
  {
    errors := new ValidationErrors();
    errors.CheckRequiredField("tableName", StringValue(statement.tableName));
    errors.CheckRequiredField("columns", ArrayValue(statement.columns));
  }

  // ----- Generation -----

  /** The keyword before the tablespace, by database family. */
  function TablespaceKeyword(family: Family): (keyword: string)
    ensures family == MSSQL || family == SybaseASA ==> keyword == " ON "
    ensures family == DB2 || family == Informix ==> keyword == " IN "
    ensures family == Other ==> keyword == " TABLESPACE "
  {
    if family == MSSQL || family == SybaseASA then " ON "
    else if family == DB2 || family == Informix then " IN "
    else " TABLESPACE "
  }

  /** The text after the closing parenthesis: nothing unless the tablespace
      has a character beyond U+0020 and the database supports tablespaces;
      otherwise the family's keyword followed by the tablespace exactly as
      given, neither trimmed nor escaped. */
  function TablespaceClause(statement: CreateIndexStatement, database: Database): (clause: string)
    ensures clause != "" <==>
      && statement.tablespace.Some?
      && (exists i :: 0 <= i < |statement.tablespace.value| && !IsTrimmable(statement.tablespace.value[i]))
      && database.supportsTablespaces
    ensures clause != "" ==> clause == TablespaceKeyword(database.family) + statement.tablespace.value
  {
    if TrimToNull(statement.tablespace) != None && database.supportsTablespaces then
      TablespaceKeyword(database.family) + statement.tablespace.value
    else
      ""
  }

  /** The column names as the database escapes them, in input order. */
  function EscapedColumns(statement: CreateIndexStatement, database: Database, columns: seq<string>): (escaped: seq<string>)
    decreases |columns|
    ensures |escaped| == |columns|
    ensures forall i :: 0 <= i < |columns| ==>
      escaped[i] == database.escapeColumnName(statement.tableSchemaName, statement.tableName, columns[i])
  {
    if |columns| == 0 then [] else
      [database.escapeColumnName(statement.tableSchemaName, statement.tableName, columns[0])]
      + EscapedColumns(statement, database, columns[1..])
  }

  /** Everything up to and including the opening parenthesis. */
  function IndexHead(statement: CreateIndexStatement, database: Database): string {
    "CREATE " + (if statement.isUnique == Unique then "UNIQUE " else "") + "INDEX "
    + database.escapeIndexName(None, statement.indexName) + " ON "
    + database.escapeTableName(statement.tableSchemaName, statement.tableName) + "("
  }

  /** The text of the one fragment `generateSql` returns. */
  function CreateIndexSql(statement: CreateIndexStatement, database: Database): (sql: string)
    requires statement.columns.Some?
    ensures IndexHead(statement, database) <= sql
    ensures |sql| > |IndexHead(statement, database)| + |TablespaceClause(statement, database)|
    ensures sql[|sql| - |TablespaceClause(statement, database)| - 1..] == ")" + TablespaceClause(statement, database)
  {
    IndexHead(statement, database)
    + Join(EscapedColumns(statement, database, statement.columns.value), ", ") + ")"
    + TablespaceClause(statement, database)
  }

  /** `generateSql`: appends to a buffer step by step and returns exactly one
      fragment. Java dereferences the column array, so it must not be null. */
  method GenerateSql(statement: CreateIndexStatement, database: Database) returns (sql: seq<Sql>)
    requires statement.columns.Some?
    ensures |sql| == 1
    ensures sql[0].text == CreateIndexSql(statement, database)
  {
    var buffer := "CREATE ";
    if statement.isUnique == Unique {
      buffer := buffer + "UNIQUE ";
    }
    buffer := buffer + "INDEX ";
    buffer := buffer + database.escapeIndexName(None, statement.indexName) + " ON ";
    buffer := buffer + database.escapeTableName(statement.tableSchemaName, statement.tableName) + "(";
    ghost var head := buffer;
    assert head == IndexHead(statement, database);

    var columns := statement.columns.value;
    ghost var escaped := EscapedColumns(statement, database, columns);
    ghost var written := "";
    var i := 0;
    while i < |columns|
      invariant 0 <= i <= |columns|
      invariant buffer == head + written
      invariant 0 < i < |columns| ==> written == Join(escaped[..i], ", ") + ", "
      invariant i == 0 || i == |columns| ==> written == Join(escaped[..i], ", ")
    {
      var column := columns[i];
      var name := database.escapeColumnName(statement.tableSchemaName, statement.tableName, column);
      assert name == escaped[i];
      JoinStep(escaped, ", ", i);
      AppendAssociative(head, written, name);
      buffer := buffer + name;
      written := written + name;
      i := i + 1;
      if i < |columns| {
        AppendAssociative(head, written, ", ");
        buffer := buffer + ", ";
        written := written + ", ";
      }
    }
    assert escaped[..i] == escaped;
    buffer := buffer + ")";
    ghost var closed := buffer;
    ghost var clause := TablespaceClause(statement, database);
    assert closed + clause == CreateIndexSql(statement, database);

    if TrimToNull(statement.tablespace) != None && database.supportsTablespaces {
      var tablespace := statement.tablespace.value;
      if database.family == MSSQL || database.family == SybaseASA {
        AppendAssociative(closed, " ON ", tablespace);
        buffer := buffer + " ON " + tablespace;
      } else if database.family == DB2 || database.family == Informix {
        AppendAssociative(closed, " IN ", tablespace);
        buffer := buffer + " IN " + tablespace;
      } else {
        AppendAssociative(closed, " TABLESPACE ", tablespace);
        buffer := buffer + " TABLESPACE " + tablespace;
      }
    }
    sql := [UnparsedSql(buffer)];
  }

  // ----- Properties of the generated text -----

  /** The text opens with "CREATE ", and "UNIQUE " follows it exactly when the
      statement is unique; a null and a false `isUnique` both go straight on
      to "INDEX ". */
  lemma CreateThenOptionalUnique(statement: CreateIndexStatement, database: Database)
    requires statement.columns.Some?
    ensures var sql := CreateIndexSql(statement, database);
      && |sql| >= 14
      && sql[..7] == "CREATE "
      && (sql[7..14] == "UNIQUE " <==> statement.isUnique == Unique)
      && (statement.isUnique == Unique ==> sql[14..20] == "INDEX ")
      && (statement.isUnique != Unique ==> sql[7..13] == "INDEX ")
  {
    var idx := database.escapeIndexName(None, statement.indexName);
    var table := database.escapeTableName(statement.tableSchemaName, statement.tableName);
    var list := Join(EscapedColumns(statement, database, statement.columns.value), ", ");
    var clause := TablespaceClause(statement, database);
    if statement.isUnique == Unique {
      assert CreateIndexSql(statement, database)
        == "CREATE " + "UNIQUE " + "INDEX " + idx + " ON " + table + "(" + list + ")" + clause;
      UniqueOpening(idx, table, list, clause);
    } else {
      assert "CREATE " + "" == "CREATE ";
      assert CreateIndexSql(statement, database)
        == "CREATE " + "INDEX " + idx + " ON " + table + "(" + list + ")" + clause;
      PlainOpening(idx, table, list, clause);
    }
  }

  lemma UniqueOpening(idx: string, table: string, list: string, clause: string)
    ensures var sql := "CREATE " + "UNIQUE " + "INDEX " + idx + " ON " + table + "(" + list + ")" + clause;
      |sql| >= 20 && sql[..7] == "CREATE " && sql[7..14] == "UNIQUE " && sql[14..20] == "INDEX "
  {
  }

  lemma PlainOpening(idx: string, table: string, list: string, clause: string)
    ensures var sql := "CREATE " + "INDEX " + idx + " ON " + table + "(" + list + ")" + clause;
      |sql| >= 14 && sql[..7] == "CREATE " && sql[7..13] == "INDEX " && sql[7] != 'U'
  {
  }

  /** Between the opening parenthesis and the closing one stand the escaped
      columns in input order, a ", " between each adjacent pair and none after
      the last; what follows the closing parenthesis is the tablespace clause. */
  lemma ColumnListLayout(statement: CreateIndexStatement, database: Database)
    requires statement.columns.Some?
    ensures CreateIndexSql(statement, database) ==
      IndexHead(statement, database)
      + Flatten(Interleave(EscapedColumns(statement, database, statement.columns.value), ", ")) + ")"
      + TablespaceClause(statement, database)
  {
    JoinIsInterleaved(EscapedColumns(statement, database, statement.columns.value), ", ");
  }

  /** The text ends with the tablespace clause, right after the closing
      parenthesis of the column list. */
  lemma {:induction false} EndsWithTablespaceClause(statement: CreateIndexStatement, database: Database)
    requires statement.columns.Some?
    ensures var sql := CreateIndexSql(statement, database);
      var clause := TablespaceClause(statement, database);
      && |sql| > |clause|
      && sql[|sql| - |clause| - 1] == ')'
      && sql[|sql| - |clause|..] == clause
  {
    var clause := TablespaceClause(statement, database);
    var closed := IndexHead(statement, database)
      + Join(EscapedColumns(statement, database, statement.columns.value), ", ") + ")";
    assert CreateIndexSql(statement, database) == closed + clause;
    assert closed[|closed| - 1] == ')';
  }

  /** Escaping that leaves every name as it is (a null name as ""). */
  function IdentityDatabase(family: Family): Database
  {
    Database(family, true,
      (schema: Option<string>, name: Option<string>) => if name.Some? then name.value else "",
      (schema: Option<string>, name: Option<string>) => if name.Some? then name.value else "",
      (schema: Option<string>, table: Option<string>, name: string) => name)
  }

  /** The statement of the PERSON example below. */
  function PersonStatement(): CreateIndexStatement
  {
    CreateIndexStatement(Some("IDX_PERSON"), None, Some("PERSON"),
      Some(["LAST_NAME", "FIRST_NAME"]), Unique, Some("USERSPACE1"))
  }

  /** A unique index on PERSON(LAST_NAME, FIRST_NAME) in tablespace
      USERSPACE1 with identity escaping: " ON USERSPACE1" on MSSQL and Sybase
      ASA, " IN USERSPACE1" on DB2 and Informix, " TABLESPACE USERSPACE1"
      elsewhere. */
  lemma PersonIndexExample(family: Family)
    ensures CreateIndexSql(PersonStatement(), IdentityDatabase(family))
      == "CREATE UNIQUE INDEX IDX_PERSON ON PERSON(LAST_NAME, FIRST_NAME)" + TablespaceKeyword(family) + "USERSPACE1"
  {
    var statement, database := PersonStatement(), IdentityDatabase(family);
    var head := IndexHead(statement, database);
    var list := Join(EscapedColumns(statement, database, statement.columns.value), ", ");
    var clause := TablespaceClause(statement, database);
    PersonHead(family);
    PersonColumnList(family);
    PersonTablespace(family);
    PersonAssembly(head, list, clause, TablespaceKeyword(family));
    assert CreateIndexSql(statement, database) == head + list + ")" + clause;
  }

  lemma PersonAssembly(head: string, list: string, clause: string, keyword: string)
    requires head == "CREATE UNIQUE INDEX IDX_PERSON ON PERSON("
    requires list == "LAST_NAME, FIRST_NAME"
    requires clause == keyword + "USERSPACE1"
    ensures head + list + ")" + clause
      == "CREATE UNIQUE INDEX IDX_PERSON ON PERSON(LAST_NAME, FIRST_NAME)" + keyword + "USERSPACE1"
  {
    var closed := "CREATE UNIQUE INDEX IDX_PERSON ON PERSON(LAST_NAME, FIRST_NAME)";
    assert head + list == "CREATE UNIQUE INDEX IDX_PERSON ON PERSON(LAST_NAME, FIRST_NAME";
    assert head + list + ")" == closed;
    assert closed + (keyword + "USERSPACE1") == closed + keyword + "USERSPACE1";
  }

  lemma PersonHead(family: Family)
    ensures IndexHead(PersonStatement(), IdentityDatabase(family)) == "CREATE UNIQUE INDEX IDX_PERSON ON PERSON("
  {
  }

  lemma PersonColumnList(family: Family)
    ensures Join(EscapedColumns(PersonStatement(), IdentityDatabase(family), ["LAST_NAME", "FIRST_NAME"]), ", ")
      == "LAST_NAME, FIRST_NAME"
  {
    var columns := ["LAST_NAME", "FIRST_NAME"];
    assert EscapedColumns(PersonStatement(), IdentityDatabase(family), columns) == columns;
    assert columns[..1] == ["LAST_NAME"];
  }

  lemma PersonTablespace(family: Family)
    ensures TablespaceClause(PersonStatement(), IdentityDatabase(family)) == TablespaceKeyword(family) + "USERSPACE1"
  {
    assert !IsTrimmable("USERSPACE1"[0]);
  }

  /** The emptiness test trims the tablespace but the clause carries it as
      given, surrounding blanks included. */
  lemma TablespaceKeptUntrimmed(database: Database)
    requires database.family == Informix && database.supportsTablespaces
    ensures var statement := CreateIndexStatement(None, None, Some("T"), Some(["C"]), NonUnique, Some(" TS1 "));
      TablespaceClause(statement, database) == " IN  TS1 "
  {
    assert !IsTrimmable(" TS1 "[1]);
    assert " IN " + " TS1 " == " IN  TS1 ";
  }

  /** A tablespace made only of blanks emits no clause. */
  lemma BlankTablespaceOmitted(database: Database)
    ensures var statement := CreateIndexStatement(None, None, Some("T"), Some(["C"]), NonUnique, Some(" \t "));
      TablespaceClause(statement, database) == ""
  {
    assert forall i :: 0 <= i < 3 ==> IsTrimmable(" \t "[i]);
  }
}
