/** `MigrationColumn`: one column definition, its four initialisers and its
    rendering as a column-definition fragment of a DDL statement. */
module Columns {
  import opened Text
  import opened ColumnTypes

  /** The stored fields, in the order the struct declares them. */
  datatype Column = Column(
    name: string,
    columnType: ColumnType,
    constraint: Option<string>,
    unique: bool,
    primaryKey: bool,
    autoIncrement: bool,
    unsigned: bool,
    nullable: bool)

  /** The one nullability/key clause a rendering carries. */
  datatype KeyClause = NullClause | PrimaryKeyClause | UniqueClause | NoClause

  /** The clause the flags select: `nullable` first, then `primaryKey`, then `unique`. */
  function EffectiveClause(c: Column): (k: KeyClause)
    ensures k == NullClause <==> c.nullable
    ensures k == PrimaryKeyClause <==> !c.nullable && c.primaryKey
    ensures k == UniqueClause <==> !c.nullable && !c.primaryKey && c.unique
    ensures k == NoClause <==> !c.nullable && !c.primaryKey && !c.unique
  {
    if c.nullable then NullClause
    else if c.primaryKey then PrimaryKeyClause
    else if c.unique then UniqueClause
    else NoClause
  }

  function ClauseText(k: KeyClause): string
  {
    match k
    case NullClause => " NULL"
    case PrimaryKeyClause => " PRIMARY KEY"
    case UniqueClause => " UNIQUE"
    case NoClause => ""
  }

  function UnsignedText(unsigned: bool): string
  {
    if unsigned then " UNSIGNED" else ""
  }

  function AutoIncrementText(autoIncrement: bool): string
  {
    if autoIncrement then " AUTO_INCREMENT" else ""
  }

  /** The fixed start of every rendering: the name, a space and the type rendering. */
  function Head(c: Column): string
  {
    c.name + " " + TypeString(c.columnType, c.constraint)
  }

  /** What a rendering adds after its head. */
  function FlagText(c: Column): string
  {
    UnsignedText(c.unsigned) + ClauseText(EffectiveClause(c)) + AutoIncrementText(c.autoIncrement)
  }

  /** The rendering as a specification: head, then `UNSIGNED`, then exactly one
      clause chosen by precedence, then `AUTO_INCREMENT`. It is never empty,
      since the head holds a space. */
  function ColumnSql(c: Column): (r: string)
    ensures IsPrefix(Head(c), r) && r[|Head(c)|..] == FlagText(c)
    ensures r[|c.name|] == ' '
  {
    Head(c) + FlagText(c)
  }

  /** `MigrationColumn.toString`, step by step as the source grows its result. */
  method ColumnToString(c: Column) returns (result: string)
    ensures result == ColumnSql(c)
  {
    result := c.name + " " + TypeString(c.columnType, c.constraint);
    assert result == Head(c);
    if c.unsigned {
      result := result + " UNSIGNED";
    }
    ghost var afterUnsigned := result;
    assert afterUnsigned == Head(c) + UnsignedText(c.unsigned);
    if c.nullable {
      result := result + " NULL";
    } else if c.primaryKey {
      result := result + " PRIMARY KEY";
    } else if c.unique {
      result := result + " UNIQUE";
    }
    assert result == afterUnsigned + ClauseText(EffectiveClause(c));
    ghost var afterClause := result;
    if c.autoIncrement {
      result := result + " AUTO_INCREMENT";
    }
    assert result == afterClause + AutoIncrementText(c.autoIncrement);
    Concat4(Head(c), UnsignedText(c.unsigned), ClauseText(EffectiveClause(c)), AutoIncrementText(c.autoIncrement));
  }

  lemma Concat4(a: string, b: string, c: string, d: string)
    ensures a + b + c + d == a + (b + c + d)
  {
  }

  // -------------------------------------------------------------------------
  // Reading the flag text back

  /** The part of the flags that reaches the rendering. */
  datatype Flags = Flags(unsigned: bool, clause: KeyClause, autoIncrement: bool)

  function RenderedFlags(c: Column): Flags
  {
    Flags(c.unsigned, EffectiveClause(c), c.autoIncrement)
  }

  /** Reads the text after a head back into the flags that produced it. */
  function ParseFlagText(s: string): Option<Flags>
  {
    var (unsigned, s1) := ParseUnsigned(s);
    var (clause, s2) := ParseClause(s1);
    match ParseAutoIncrement(s2)
    case Some(autoIncrement) => Some(Flags(unsigned, clause, autoIncrement))
    case None => None
  }

  function ParseUnsigned(s: string): (bool, string)
  {
    if IsPrefix(" UNSIGNED", s) then (true, s[9..]) else (false, s)
  }

  function ParseClause(s: string): (KeyClause, string)
  {
    if IsPrefix(" NULL", s) then (NullClause, s[5..])
    else if IsPrefix(" PRIMARY KEY", s) then (PrimaryKeyClause, s[12..])
    else if IsPrefix(" UNIQUE", s) then (UniqueClause, s[7..])
    else (NoClause, s)
  }

  function ParseAutoIncrement(s: string): Option<bool>
  {
    if s == " AUTO_INCREMENT" then Some(true)
    else if s == "" then Some(false)
    else None
  }

  /** After the optional `" UNSIGNED"`, the clause text is recognised by its
      prefix, and what follows it is the `AUTO_INCREMENT` text. */
  lemma ClauseTail(k: KeyClause, a: bool)
    ensures
      var s := ClauseText(k) + AutoIncrementText(a);
      && (IsPrefix(" NULL", s) <==> k == NullClause)
      && (IsPrefix(" PRIMARY KEY", s) <==> k == PrimaryKeyClause)
      && (IsPrefix(" UNIQUE", s) <==> k == UniqueClause)
      && !IsPrefix(" UNSIGNED", s)
      && s[|ClauseText(k)|..] == AutoIncrementText(a)
  {
    var c, t := ClauseText(k), AutoIncrementText(a);
    var s := c + t;
    assert s[|c|..] == t;
    match k
    case NullClause =>
      PrefixAppend(c, c, t);
      assert s[1] == 'N';
      MismatchNotPrefix(" PRIMARY KEY", s, 1);
      MismatchNotPrefix(" UNIQUE", s, 1);
      MismatchNotPrefix(" UNSIGNED", s, 1);
    case PrimaryKeyClause =>
      PrefixAppend(c, c, t);
      assert s[1] == 'P';
      MismatchNotPrefix(" NULL", s, 1);
      MismatchNotPrefix(" UNIQUE", s, 1);
      MismatchNotPrefix(" UNSIGNED", s, 1);
    case UniqueClause =>
      PrefixAppend(c, c, t);
      assert s[1] == 'U' && s[3] == 'I';
      MismatchNotPrefix(" NULL", s, 1);
      MismatchNotPrefix(" PRIMARY KEY", s, 1);
      MismatchNotPrefix(" UNSIGNED", s, 3);
    case NoClause =>
      assert s == t;
      if a {
        assert s[1] == 'A';
        MismatchNotPrefix(" NULL", s, 1);
        MismatchNotPrefix(" PRIMARY KEY", s, 1);
        MismatchNotPrefix(" UNIQUE", s, 1);
        MismatchNotPrefix(" UNSIGNED", s, 1);
      }
  }

  /** The flag text determines every flag that reaches the rendering. */
  lemma FlagTextRoundTrip(c: Column)
    ensures ParseFlagText(FlagText(c)) == Some(RenderedFlags(c))
  {
    FlagsRoundTrip(c.unsigned, EffectiveClause(c), c.autoIncrement);
  }

  lemma FlagsRoundTrip(u: bool, k: KeyClause, a: bool)
    ensures ParseFlagText(UnsignedText(u) + ClauseText(k) + AutoIncrementText(a)) == Some(Flags(u, k, a))
  {
    var tail := ClauseText(k) + AutoIncrementText(a);
    assert UnsignedText(u) + ClauseText(k) + AutoIncrementText(a) == UnsignedText(u) + tail;
    ClauseTail(k, a);
    UnsignedPart(u, tail);
    assert ParseClause(tail) == (k, AutoIncrementText(a));
    assert ParseAutoIncrement(AutoIncrementText(a)) == Some(a);
  }

  lemma UnsignedPart(u: bool, tail: string)
    requires !IsPrefix(" UNSIGNED", tail)
    ensures ParseUnsigned(UnsignedText(u) + tail) == (u, tail)
  {
    if u {
      PrefixAppend(" UNSIGNED", " UNSIGNED", tail);
      assert (" UNSIGNED" + tail)[9..] == tail;
    } else {
      assert UnsignedText(u) + tail == tail;
    }
  }

  /** `" UNSIGNED"` follows the head immediately exactly when `unsigned` is set. */
  lemma UnsignedFollowsHead(c: Column)
    ensures IsPrefix(" UNSIGNED", ColumnSql(c)[|Head(c)|..]) <==> c.unsigned
  {
    var tail := ClauseText(EffectiveClause(c)) + AutoIncrementText(c.autoIncrement);
    ClauseTail(EffectiveClause(c), c.autoIncrement);
    assert FlagText(c) == UnsignedText(c.unsigned) + tail;
    if c.unsigned {
      PrefixAppend(" UNSIGNED", " UNSIGNED", tail);
    } else {
      assert FlagText(c) == tail;
    }
  }

  /** `" AUTO_INCREMENT"` ends the text after the head exactly when `autoIncrement` is set. */
  lemma AutoIncrementEndsFlags(c: Column)
    ensures IsSuffix(" AUTO_INCREMENT", ColumnSql(c)[|Head(c)|..]) <==> c.autoIncrement
  {
    var s := FlagText(c);
    var u, k := UnsignedText(c.unsigned), ClauseText(EffectiveClause(c));
    if !c.autoIncrement && |s| >= 15 {
      // the longest text without AUTO_INCREMENT is " UNSIGNED PRIMARY KEY"
      assert s == u + k;
      assert s[|s| - 1] in "LYED";
    }
  }

  /** Every rendering starts with the column's name and a space. */
  lemma NameStartsRendering(c: Column)
    ensures IsPrefix(c.name + " ", ColumnSql(c))
  {
    var x, ts := c.name + " ", TypeString(c.columnType, c.constraint);
    PrefixAppend(x, x, ts);
    PrefixAppend(x, x + ts, FlagText(c));
  }

  /** The whole rendering ends with `" AUTO_INCREMENT"` exactly when `autoIncrement`
      is set: without it the rendering ends in a flag word, ')' or a keyword, and
      none of those ends in "ENT". */
  lemma AutoIncrementEndsRendering(c: Column)
    ensures IsSuffix(" AUTO_INCREMENT", ColumnSql(c)) <==> c.autoIncrement
  {
    var ai := " AUTO_INCREMENT";
    if c.autoIncrement {
      AutoIncrementEndsFlags(c);
      SuffixDrop(ai, Head(c), FlagText(c));
    } else {
      NotEndingInEnt(c);
      SuffixTrans("ENT", ai, ColumnSql(c));
    }
  }

  /** Without `autoIncrement`, the flag text ends in a letter other than 'T'. */
  lemma FlagTextEnding(c: Column)
    requires !c.autoIncrement
    ensures |FlagText(c)| > 0 ==> FlagText(c)[|FlagText(c)| - 1] != 'T'
  {
  }

  /** Without `autoIncrement` a rendering does not end in "ENT". */
  lemma NotEndingInEnt(c: Column)
    requires !c.autoIncrement
    ensures !IsSuffix("ENT", ColumnSql(c))
  {
    var h, s := Head(c), FlagText(c);
    var ts := TypeString(c.columnType, c.constraint);
    if |s| > 0 {
      FlagTextEnding(c);
      SuffixLast("ENT", h + s);
      assert (h + s)[|h + s| - 1] == s[|s| - 1];
    } else {
      TypeStringEnding(c.columnType, c.constraint);
      assert h + s == c.name + " " + ts;
      SuffixDrop("ENT", c.name + " ", ts);
    }
  }

  /** Two renderings with the same head carry the same flags. */
  lemma SameHeadSameFlags(c1: Column, c2: Column)
    requires Head(c1) == Head(c2) && ColumnSql(c1) == ColumnSql(c2)
    ensures RenderedFlags(c1) == RenderedFlags(c2)
  {
    FlagTextRoundTrip(c1);
    FlagTextRoundTrip(c2);
  }

  /** `nullable` wins: whatever `primaryKey` and `unique` say, the clause is `" NULL"`. */
  lemma NullableWins(c: Column)
    requires c.nullable
    ensures EffectiveClause(c) == NullClause
    ensures FlagText(c) == UnsignedText(c.unsigned) + " NULL" + AutoIncrementText(c.autoIncrement)
    ensures ColumnSql(c) == ColumnSql(c.(primaryKey := false, unique := false))
  {
  }

  /** Setting `autoIncrement` appends `" AUTO_INCREMENT"` and changes nothing else. */
  lemma AutoIncrementIndependent(c: Column)
    ensures ColumnSql(c.(autoIncrement := true)) == ColumnSql(c.(autoIncrement := false)) + " AUTO_INCREMENT"
  {
  }

  /** With every flag clear the rendering is the head alone: no `NOT NULL` is added. */
  lemma NoFlagsHeadOnly(c: Column)
    requires !c.unique && !c.primaryKey && !c.autoIncrement && !c.unsigned && !c.nullable
    ensures ColumnSql(c) == c.name + " " + TypeString(c.columnType, c.constraint)
  {
  }

  // -------------------------------------------------------------------------
  // The four initialisers

  /** `init(name:columnType:constraint:)`: every flag keeps its default, false,
      so the rendering is the head alone. */
  function PlainColumn(name: string, columnType: ColumnType, constraint: Option<string>): (c: Column)
    ensures c.name == name && c.columnType == columnType && c.constraint == constraint
    ensures RenderedFlags(c) == Flags(false, NoClause, false)
    ensures ColumnSql(c) == Head(c)
  {
    Column(name, columnType, constraint, false, false, false, false, false)
  }

  /** `init(name:columnType:constraint:primaryKey:autoIncrement:)`: always unsigned and not nullable. */
  function KeyColumn(name: string, columnType: ColumnType, constraint: Option<string>,
                     primaryKey: bool, autoIncrement: bool): (c: Column)
    ensures c.name == name && c.columnType == columnType && c.constraint == constraint
    ensures c.unsigned && !c.nullable && !c.unique
    ensures c.primaryKey == primaryKey && c.autoIncrement == autoIncrement
    ensures RenderedFlags(c) == Flags(true, if primaryKey then PrimaryKeyClause else NoClause, autoIncrement)
    ensures FlagText(c) == " UNSIGNED" + (if primaryKey then " PRIMARY KEY" else "") + AutoIncrementText(autoIncrement)
  {
    Column(name, columnType, constraint, false, primaryKey, autoIncrement, true, false)
  }

  /** `init(name:columnType:constraint:nullable:)`: every other flag is forced false. */
  function NullableColumn(name: string, columnType: ColumnType, constraint: Option<string>,
                          nullable: bool): (c: Column)
    ensures c.name == name && c.columnType == columnType && c.constraint == constraint
    ensures !c.primaryKey && !c.unique && !c.autoIncrement && !c.unsigned
    ensures c.nullable == nullable
    ensures RenderedFlags(c) == Flags(false, if nullable then NullClause else NoClause, false)
    ensures FlagText(c) == if nullable then " NULL" else ""
  {
    Column(name, columnType, constraint, false, false, false, false, nullable)
  }

  /** `init(name:columnType:constraint:unique:)` as written: the argument is
      ignored, `unique` is false and `unsigned` true, so the text after the
      head is `" UNSIGNED"` and never `" UNIQUE"`. */
  function UniqueColumn(name: string, columnType: ColumnType, constraint: Option<string>,
                        unique: bool): (c: Column)
    ensures c.name == name && c.columnType == columnType && c.constraint == constraint
    ensures !c.unique && c.unsigned && !c.primaryKey && !c.autoIncrement && !c.nullable
    ensures RenderedFlags(c) == Flags(true, NoClause, false)
    ensures FlagText(c) == " UNSIGNED"
  {
    Column(name, columnType, constraint, false, false, false, true, false)
  }

  /** The unique initialiser never marks the column `UNIQUE`, even when asked to. */
  lemma UniqueColumnDropsUnique(name: string, columnType: ColumnType, constraint: Option<string>)
    ensures UniqueColumn(name, columnType, constraint, true) == UniqueColumn(name, columnType, constraint, false)
    ensures EffectiveClause(UniqueColumn(name, columnType, constraint, true)) == NoClause
  {
  }

  /** The unique initialiser as evidently intended: the column is `UNIQUE` exactly when asked. */
  function UniqueColumnIntended(name: string, columnType: ColumnType, constraint: Option<string>,
                                unique: bool): (c: Column)
    ensures c.name == name && c.columnType == columnType && c.constraint == constraint
    ensures RenderedFlags(c) == Flags(true, if unique then UniqueClause else NoClause, false)
    ensures FlagText(c) == " UNSIGNED" + (if unique then " UNIQUE" else "")
  {
    Column(name, columnType, constraint, unique, false, false, true, false)
  }

  /** The nullable initialiser with `false` gives the plain column. */
  lemma NullableFalseIsPlain(name: string, columnType: ColumnType, constraint: Option<string>)
    ensures NullableColumn(name, columnType, constraint, false) == PlainColumn(name, columnType, constraint)
  {
  }

  /** A sample column rendering. */
  lemma VarcharColumnExample()
    ensures ColumnSql(PlainColumn("name", VARCHAR, Some("255"))) == "name VARCHAR(255)"
  {
  }
}
