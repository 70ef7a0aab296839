/** The six statement structs (`MigrationTypeCreate`, `MigrationTypeDrop`,
    `MigrationTypeAlterRename`, `MigrationTypeAlterAdd`, `MigrationTypeAlterChange`,
    `MigrationTypeAlterModify`) as one closed datatype, their `toSQL()`
    renderings, and `MigrationItem`. */
module Statements {
  import opened Text
  import opened Columns

  /** Every variant has a `tableName`, the one field the shared protocol demands. */
  datatype Statement =
    | Create(tableName: string, columns: seq<Column>)
    | Drop(tableName: string)
    | AlterRename(tableName: string, newTableName: string)
    | AlterAdd(tableName: string, column: Column)
    | AlterChange(tableName: string, columnName: string, column: Column)
    | AlterModify(tableName: string, columnName: string, column: Column)

  /** Swift's `Int` on a 64-bit platform. */
  newtype Int64 = x: int | -0x8000_0000_0000_0000 <= x < 0x8000_0000_0000_0000

  /** A version number paired with a statement; plain data. */
  datatype MigrationItem = MigrationItem(migrationVersion: Int64, migrationType: Statement)

  /** The columns' renderings, in order (the `map` of `_columnString`). */
  function ColumnStrings(columns: seq<Column>): (r: seq<string>)
    ensures |r| == |columns|
    ensures forall i :: 0 <= i < |columns| ==> r[i] == ColumnSql(columns[i])
  {
    seq(|columns|, i requires 0 <= i < |columns| => ColumnSql(columns[i]))
  }

  /** `_columnString`: the renderings joined by ","; empty exactly when there are
      no columns, since every rendering holds at least a space. */
  function ColumnList(columns: seq<Column>): (r: string)
    ensures r == "" <==> columns == []
    ensures columns != [] ==> IsPrefix(ColumnSql(columns[0]), r)
  {
    var parts := ColumnStrings(columns);
    assert parts != [] ==> |parts[0]| > 0 by {
      if parts != [] {
        assert parts[0] == ColumnSql(columns[0]);
      }
    }
    Join(parts, ",")
  }

  /** `toSQL()` of each variant. */
  function Sql(s: Statement): (r: string)
  {
    match s
    case Create(t, columns) =>
      if columns == [] then "CREATE TABLE IF NOT EXISTS " + t
      else "CREATE TABLE IF NOT EXISTS " + t + " (" + ColumnList(columns) + ")"
    case Drop(t) => "DROP TABLE " + t
    case AlterRename(t, n) => "ALTER TABLE " + t + " RENAME " + n
    case AlterAdd(t, col) => "ALTER TABLE " + t + " ADD " + ColumnSql(col)
    case AlterChange(t, oldName, col) => "ALTER TABLE " + t + " CHANGE " + oldName + " " + ColumnSql(col)
    case AlterModify(t, _, col) => "ALTER TABLE " + t + " MODIFY " + ColumnSql(col)
  }

  /** `MigrationTypeCreate.toSQL()`, step by step: parentheses are added when the
      joined column string is non-empty. */
  method CreateToSql(tableName: string, columns: seq<Column>) returns (result: string)
    ensures result == Sql(Create(tableName, columns))
  {
    result := "CREATE TABLE IF NOT EXISTS " + tableName;
    var columnString := ColumnList(columns);
    if 0 < |columnString| {
      result := result + " (" + columnString + ")";
    }
  }

  /** The leading words tell the three statement families apart. */
  lemma LeadingWords(s: Statement)
    ensures IsPrefix("CREATE TABLE IF NOT EXISTS " + s.tableName, Sql(s)) <==> s.Create?
    ensures IsPrefix("DROP TABLE " + s.tableName, Sql(s)) <==> s.Drop?
    ensures IsPrefix("ALTER TABLE " + s.tableName + " ", Sql(s)) <==> !s.Create? && !s.Drop?
  {
    var r, t := Sql(s), s.tableName;
    var create, drop, alter := "CREATE TABLE IF NOT EXISTS " + t, "DROP TABLE " + t, "ALTER TABLE " + t + " ";
    FirstChar(create, r);
    FirstChar(drop, r);
    FirstChar(alter, r);
    assert create[0] == 'C' && drop[0] == 'D' && alter[0] == 'A';
    if s.Create? {
      CreateLeading(t, s.columns);
    } else if s.Drop? {
      assert r[0] == 'D';
    } else {
      AlterLeading(s);
    }
  }

  lemma CreateLeading(t: string, columns: seq<Column>)
    ensures IsPrefix("CREATE TABLE IF NOT EXISTS " + t, Sql(Create(t, columns)))
  {
    var create := "CREATE TABLE IF NOT EXISTS " + t;
    assert IsPrefix(create, create);
    if columns != [] {
      PrefixAppend(create, create, " (");
      PrefixAppend(create, create + " (", ColumnList(columns));
      PrefixAppend(create, create + " (" + ColumnList(columns), ")");
    }
  }

  lemma AlterLeading(s: Statement)
    requires !s.Create? && !s.Drop?
    ensures IsPrefix("ALTER TABLE " + s.tableName + " ", Sql(s))
  {
    var a := "ALTER TABLE " + s.tableName;
    var alter := a + " ";
    match s
    case AlterRename(_, n) =>
      PrefixCommon(a, " ", " RENAME ");
      PrefixAppend(alter, a + " RENAME ", n);
    case AlterAdd(_, col) =>
      PrefixCommon(a, " ", " ADD ");
      PrefixAppend(alter, a + " ADD ", ColumnSql(col));
    case AlterChange(_, n, col) =>
      PrefixCommon(a, " ", " CHANGE ");
      PrefixAppend(alter, a + " CHANGE ", n);
      PrefixAppend(alter, a + " CHANGE " + n, " ");
      PrefixAppend(alter, a + " CHANGE " + n + " ", ColumnSql(col));
    case AlterModify(_, _, col) =>
      PrefixCommon(a, " ", " MODIFY ");
      PrefixAppend(alter, a + " MODIFY ", ColumnSql(col));
  }

  /** An empty column list renders without parentheses; a non-empty one always
      gets them, around the renderings joined by ",". */
  lemma CreateShape(t: string, columns: seq<Column>)
    ensures columns == [] ==> Sql(Create(t, columns)) == "CREATE TABLE IF NOT EXISTS " + t
    ensures columns != [] ==>
      Sql(Create(t, columns)) == "CREATE TABLE IF NOT EXISTS " + t + " (" + Join(ColumnStrings(columns), ",") + ")"
  {
  }

  /** A statement that carries a column ends with that column's rendering. */
  lemma AlterEndsWithColumn(s: Statement)
    requires s.AlterAdd? || s.AlterChange? || s.AlterModify?
    ensures IsSuffix(" " + ColumnSql(s.column), Sql(s))
  {
    match s
    case AlterAdd(t, col) =>
      SpaceBeforeLast("ALTER TABLE " + t + " ADD ", ColumnSql(col));
    case AlterChange(t, oldName, col) =>
      SpaceBeforeLast("ALTER TABLE " + t + " CHANGE " + oldName + " ", ColumnSql(col));
    case AlterModify(t, _, col) =>
      SpaceBeforeLast("ALTER TABLE " + t + " MODIFY ", ColumnSql(col));
  }

  /** The stored `columnName` of a modify statement never reaches its rendering. */
  lemma ModifyIgnoresColumnName(t: string, n1: string, n2: string, col: Column)
    ensures Sql(AlterModify(t, n1, col)) == Sql(AlterModify(t, n2, col))
  {
  }

  /** A change statement's rendering determines the old column name. */
  lemma ChangeDeterminesOldName(t: string, n1: string, n2: string, col: Column)
    ensures Sql(AlterChange(t, n1, col)) == Sql(AlterChange(t, n2, col)) <==> n1 == n2
  {
    var p, tail := "ALTER TABLE " + t + " CHANGE ", " " + ColumnSql(col);
    var r1, r2 := Sql(AlterChange(t, n1, col)), Sql(AlterChange(t, n2, col));
    assert r1 == p + n1 + tail;
    assert r2 == p + n2 + tail;
    if r1 == r2 {
      assert |n1| == |n2|;
      assert r1[|p|..|p| + |n1|] == n1;
      assert r2[|p|..|p| + |n2|] == n2;
    }
  }

  /** A rename statement's rendering determines the new table name. */
  lemma RenameDeterminesNewName(t: string, n1: string, n2: string)
    ensures Sql(AlterRename(t, n1)) == Sql(AlterRename(t, n2)) <==> n1 == n2
  {
    var p := "ALTER TABLE " + t + " RENAME ";
    if Sql(AlterRename(t, n1)) == Sql(AlterRename(t, n2)) {
      assert Sql(AlterRename(t, n1))[|p|..] == n1;
      assert Sql(AlterRename(t, n2))[|p|..] == n2;
    }
  }

  /** Identifiers are spliced in unquoted, so a rendering does not always
      determine its statement: an added column named `RENAME` reads as a rename
      of the table `t ADD`. */
  lemma AddReadsAsRename(t: string, col: Column)
    requires col.name == "RENAME"
    ensures AlterAdd(t, col) != AlterRename(t + " ADD", ColumnSql(col)[7..])
    ensures Sql(AlterAdd(t, col)) == Sql(AlterRename(t + " ADD", ColumnSql(col)[7..]))
  {
    var r := ColumnSql(col);
    NameStartsRendering(col);
    var rest := r[7..];
    assert r == "RENAME " + rest by {
      assert r[..7] == "RENAME ";
    }
    RenameSplice(t, rest);
  }

  lemma RenameSplice(t: string, rest: string)
    ensures "ALTER TABLE " + t + " ADD " + ("RENAME " + rest) == "ALTER TABLE " + (t + " ADD") + " RENAME " + rest
  {
    var a, mid := "ALTER TABLE " + t, " ADD RENAME ";
    Concat3Left("ALTER TABLE ", t, " ADD");
    Concat3Left(" ADD ", "RENAME ", rest);
    assert " ADD " + "RENAME " == mid;
    Concat3Left(a, " ADD", " RENAME ");
    assert " ADD" + " RENAME " == mid;
    Concat3Left(a, " ADD ", "RENAME " + rest);
    Concat3Left(a, mid, rest);
  }

  /** Likewise a create with columns renders as a create without columns whose
      table name carries the parenthesised column list. */
  lemma CreateReadsAsBareCreate(t: string, columns: seq<Column>)
    requires columns != []
    ensures Create(t, columns) != Create(t + " (" + ColumnList(columns) + ")", [])
    ensures Sql(Create(t, columns)) == Sql(Create(t + " (" + ColumnList(columns) + ")", []))
  {
    var none: seq<Column> := [];
    var cs := ColumnList(columns);
    var p := "CREATE TABLE IF NOT EXISTS ";
    assert Sql(Create(t, columns)) == p + t + " (" + cs + ")";
    assert Sql(Create(t + " (" + cs + ")", none)) == p + (t + " (" + cs + ")");
    Concat4Right(p, t, " (", cs, ")");
  }

  // Sample statement renderings.

  lemma CreateEmptyExample()
    ensures Sql(Create("orders", [])) == "CREATE TABLE IF NOT EXISTS orders"
  {
    var none: seq<Column> := [];
    assert Sql(Create("orders", none)) == "CREATE TABLE IF NOT EXISTS " + "orders";
  }

  lemma DropExample()
    ensures Sql(Drop("users")) == "DROP TABLE users"
  {
  }

  lemma RenameExample()
    ensures Sql(AlterRename("users", "accounts")) == "ALTER TABLE users RENAME accounts"
  {
  }
}
