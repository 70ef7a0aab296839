/** The closed set of SQL column types (`MigrationColumnType`) and their
    rendering to an upper-case keyword, optionally parameterised by a
    constraint string such as "255" or "10,2". */
module ColumnTypes {
  import opened Text

  /** The fifteen cases, in declaration order; the order fixes the Int raw value. */
  datatype ColumnType =
    | VARCHAR | SMALLINT | MEDIUMINT | INT | BIGINT | DECIMAL | TEXT | DOUBLE
    | FLOAT | DATE | DATETIME | TIMESTAMP | TIME | ENUM | SET

  /** The `Int` raw value Swift assigns to each case: its position, from 0. */
  function RawValue(t: ColumnType): (n: nat)
    ensures n < 15
  {
    match t
    case VARCHAR => 0
    case SMALLINT => 1
    case MEDIUMINT => 2
    case INT => 3
    case BIGINT => 4
    case DECIMAL => 5
    case TEXT => 6
    case DOUBLE => 7
    case FLOAT => 8
    case DATE => 9
    case DATETIME => 10
    case TIMESTAMP => 11
    case TIME => 12
    case ENUM => 13
    case SET => 14
  }

  /** The failable `init?(rawValue:)` Swift derives from the raw values. */
  function FromRawValue(n: int): (r: Option<ColumnType>)
    ensures r.Some? <==> 0 <= n < 15
  {
    match n
    case 0 => Some(VARCHAR)
    case 1 => Some(SMALLINT)
    case 2 => Some(MEDIUMINT)
    case 3 => Some(INT)
    case 4 => Some(BIGINT)
    case 5 => Some(DECIMAL)
    case 6 => Some(TEXT)
    case 7 => Some(DOUBLE)
    case 8 => Some(FLOAT)
    case 9 => Some(DATE)
    case 10 => Some(DATETIME)
    case 11 => Some(TIMESTAMP)
    case 12 => Some(TIME)
    case 13 => Some(ENUM)
    case 14 => Some(SET)
    case _ => None
  }

  lemma RawValueRoundTrip(t: ColumnType)
    ensures FromRawValue(RawValue(t)) == Some(t)
  {
  }

  lemma FromRawValueRoundTrip(n: int)
    requires 0 <= n < 15
    ensures RawValue(FromRawValue(n).value) == n
  {
  }

  /** An upper-case ASCII letter. */
  predicate IsUpper(ch: char)
  {
    'A' <= ch <= 'Z'
  }

  /** The SQL keyword of a type. */
  function Keyword(t: ColumnType): (k: string)
    ensures |k| > 0
  {
    match t
    case VARCHAR => "VARCHAR"
    case SMALLINT => "SMALLINT"
    case MEDIUMINT => "MEDIUMINT"
    case INT => "INT"
    case BIGINT => "BIGINT"
    case DECIMAL => "DECIMAL"
    case TEXT => "TEXT"
    case DOUBLE => "DOUBLE"
    case FLOAT => "FLOAT"
    case DATE => "DATE"
    case DATETIME => "DATETIME"
    case TIMESTAMP => "TIMESTAMP"
    case TIME => "TIME"
    case ENUM => "ENUM"
    case SET => "SET"
  }

  /** Every keyword is made of upper-case letters only, so it holds no parenthesis. */
  lemma KeywordUpperCase(t: ColumnType)
    ensures forall i :: 0 <= i < |Keyword(t)| ==> IsUpper(Keyword(t)[i])
  {
  }

  /** Reads a keyword back; an independent table used to show that keywords are distinct. */
  function ParseKeyword(s: string): Option<ColumnType>
  {
    if s == "VARCHAR" then Some(VARCHAR)
    else if s == "SMALLINT" then Some(SMALLINT)
    else if s == "MEDIUMINT" then Some(MEDIUMINT)
    else if s == "INT" then Some(INT)
    else if s == "BIGINT" then Some(BIGINT)
    else if s == "DECIMAL" then Some(DECIMAL)
    else if s == "TEXT" then Some(TEXT)
    else if s == "DOUBLE" then Some(DOUBLE)
    else if s == "FLOAT" then Some(FLOAT)
    else if s == "DATE" then Some(DATE)
    else if s == "DATETIME" then Some(DATETIME)
    else if s == "TIMESTAMP" then Some(TIMESTAMP)
    else if s == "TIME" then Some(TIME)
    else if s == "ENUM" then Some(ENUM)
    else if s == "SET" then Some(SET)
    else None
  }

  lemma KeywordRoundTrip(t: ColumnType)
    ensures ParseKeyword(Keyword(t)) == Some(t)
  {
  }

  lemma ParseKeywordSound(s: string)
    ensures ParseKeyword(s).Some? ==> Keyword(ParseKeyword(s).value) == s
  {
  }

  /** Every type has its own keyword. */
  lemma KeywordInjective(a: ColumnType, b: ColumnType)
    ensures Keyword(a) == Keyword(b) <==> a == b
  {
    KeywordRoundTrip(a);
    KeywordRoundTrip(b);
  }

  /** `MigrationColumnType.toString(constraint:)`: the keyword, then "(c)" when a
      constraint `c` is present. Only an absent constraint suppresses the
      parentheses; an empty one yields "()". */
  function TypeString(t: ColumnType, constraint: Option<string>): (r: string)
    ensures IsPrefix(Keyword(t), r)
    ensures constraint.Some? ==>
      |r| == |Keyword(t)| + |constraint.value| + 2 && r[|Keyword(t)|] == '(' && r[|r| - 1] == ')'
  {
    var k := Keyword(t);
    match constraint
    case None => k
    case Some(c) =>
      assert (k + "(" + c + ")")[|k|] == '(';
      k + "(" + c + ")"
  }

  /** A type rendering holds a '(' exactly when a constraint is present. */
  lemma TypeStringParenthesis(t: ColumnType, constraint: Option<string>)
    ensures '(' in TypeString(t, constraint) <==> constraint.Some?
  {
    KeywordUpperCase(t);
    var r := TypeString(t, constraint);
    if constraint.Some? {
      assert r[|Keyword(t)|] == '(';
    } else {
      assert r == Keyword(t);
    }
  }

  /** Every keyword has at least three letters, and none ends in "ENT". */
  lemma KeywordEnding(t: ColumnType)
    ensures |Keyword(t)| >= 3 && !IsSuffix("ENT", Keyword(t))
  {
  }

  /** Neither does a type rendering, which ends in a keyword or in ')'. */
  lemma TypeStringEnding(t: ColumnType, constraint: Option<string>)
    ensures |TypeString(t, constraint)| >= 3 && !IsSuffix("ENT", TypeString(t, constraint))
  {
    KeywordEnding(t);
    SuffixLast("ENT", TypeString(t, constraint));
  }

  /** Reads a type rendering back: the keyword runs up to the first '(' and the
      constraint is everything between it and a final ')'. */
  function ParseTypeString(s: string): Option<(ColumnType, Option<string>)>
  {
    var i := IndexOf(s, '(');
    if i == |s| then
      match ParseKeyword(s)
      case Some(t) => Some((t, None))
      case None => None
    else if i < |s| - 1 && s[|s| - 1] == ')' then
      match ParseKeyword(s[..i])
      case Some(t) => Some((t, Some(s[i + 1..|s| - 1])))
      case None => None
    else None
  }

  /** The rendering determines both the type and the constraint. */
  lemma TypeStringRoundTrip(t: ColumnType, constraint: Option<string>)
    ensures ParseTypeString(TypeString(t, constraint)) == Some((t, constraint))
  {
    match constraint
    case None => BareKeywordParses(t);
    case Some(c) => ParenthesisedParses(t, c);
  }

  lemma BareKeywordParses(t: ColumnType)
    ensures ParseTypeString(Keyword(t)) == Some((t, None))
  {
    KeywordRoundTrip(t);
    KeywordUpperCase(t);
    assert IndexOf(Keyword(t), '(') == |Keyword(t)|;
  }

  lemma ParenthesisedParses(t: ColumnType, c: string)
    ensures ParseTypeString(Keyword(t) + "(" + c + ")") == Some((t, Some(c)))
  {
    var k := Keyword(t);
    var s := k + ("(" + c + ")");
    assert s == k + "(" + c + ")";
    KeywordRoundTrip(t);
    KeywordUpperCase(t);
    IndexOfAfter(k, "(" + c + ")", '(');
    var i := IndexOf(s, '(');
    assert i == |k|;
    assert s[..i] == k;
    assert s[i + 1..|s| - 1] == c;
    assert s[|s| - 1] == ')';
  }

  lemma TypeStringInjective(t1: ColumnType, c1: Option<string>, t2: ColumnType, c2: Option<string>)
    ensures TypeString(t1, c1) == TypeString(t2, c2) <==> t1 == t2 && c1 == c2
  {
    var r1, r2 := TypeString(t1, c1), TypeString(t2, c2);
    if r1 == r2 {
      TypeStringRoundTrip(t1, c1);
      TypeStringRoundTrip(t2, c2);
      assert Some((t1, c1)) == ParseTypeString(r1) == ParseTypeString(r2) == Some((t2, c2));
    }
  }

  /** A present but empty constraint still renders its parentheses. */
  lemma EmptyConstraintKeepsParentheses(t: ColumnType)
    ensures TypeString(t, Some("")) == Keyword(t) + "()"
    ensures TypeString(t, Some("")) != TypeString(t, None)
  {
    TypeStringInjective(t, Some(""), t, None);
  }
}
