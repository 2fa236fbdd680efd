/**
 * The rules of the workbook analysis script that suggests a PostgreSQL schema:
 * identifier clean-up, the SQL type and constraints of a column, the
 * relationship hints of a sheet and the text of the suggested CREATE TABLE and
 * CREATE INDEX statements. pandas' per-column statistics are inputs.
 */
module SchemaAnalysis {
  import opened Wrappers
  import opened Text

  // ---------------------------------------------------------------------------
  // `suggest_table_name` and `suggest_column_name`

  /** `[a-zA-Z0-9_]` */
  predicate IsWordChar(c: char) {
    'a' <= c <= 'z' || 'A' <= c <= 'Z' || '0' <= c <= '9' || c == '_'
  }

  /** The characters a suggested name is made of: `[a-z0-9_]`. */
  predicate IsNameChar(c: char) {
    'a' <= c <= 'z' || '0' <= c <= '9' || c == '_'
  }

  /** `re.sub(r'[^a-zA-Z0-9_]', '_', s)` */
  function ReplaceSpecial(s: string): (r: string)
    ensures |r| == |s|
    ensures forall i :: 0 <= i < |s| ==> r[i] == if IsWordChar(s[i]) then s[i] else '_'
  {
    seq(|s|, i requires 0 <= i < |s| => if IsWordChar(s[i]) then s[i] else '_')
  }

  predicate NoDoubleUnderscore(s: string) {
    forall i :: 1 <= i < |s| ==> !(s[i - 1] == '_' && s[i] == '_')
  }

  /** `re.sub(r'_+', '_', s)`: every run of underscores becomes one. */
  function CollapseUnderscores(s: string): (r: string)
    ensures NoDoubleUnderscore(r)
    ensures r == [] <==> s == []
    ensures s != [] ==> r[0] == s[0] && r[|r| - 1] == s[|s| - 1]
    ensures forall c :: c in r <==> c in s
    ensures NoDoubleUnderscore(s) ==> r == s
  {
    if |s| < 2 then s
    else
      var rest := CollapseUnderscores(s[1..]);
      assert s[1..][0] == s[1];
      assert forall c :: c in s <==> c == s[0] || c in s[1..];
      if s[0] == '_' && s[1] == '_' then rest
      else
        var r := [s[0]] + rest;
        forall i | 2 <= i < |r| ensures !(r[i - 1] == '_' && r[i] == '_') {
          assert r[i - 1] == rest[i - 2] && r[i] == rest[i - 1];
        }
        assert NoDoubleUnderscore(s) ==> NoDoubleUnderscore(s[1..]) by {
          if NoDoubleUnderscore(s) {
            forall i | 1 <= i < |s[1..]| ensures !(s[1..][i - 1] == '_' && s[1..][i] == '_') {
              assert s[1..][i - 1] == s[i] && s[1..][i] == s[i + 1];
            }
          }
        }
        r
  }

  /** Collapsing keeps every character other than `_`, in order. */
  lemma {:induction false} CollapseKeepsOtherChars(s: string)
    ensures Remove(CollapseUnderscores(s), '_') == Remove(s, '_')
  {
    if |s| >= 2 {
      CollapseKeepsOtherChars(s[1..]);
      RemoveCons(s[0], s[1..], '_');
      assert s == [s[0]] + s[1..];
      if !(s[0] == '_' && s[1] == '_') {
        RemoveCons(s[0], CollapseUnderscores(s[1..]), '_');
      }
    }
  }

  /** A run of two underscores collapses as one does: with the fixed points above, this
      makes every run of underscores a single `_` and keeps all other characters in place. */
  lemma {:induction false} CollapseDoubleUnderscore(a: string, b: string)
    ensures CollapseUnderscores(a + "__" + b) == CollapseUnderscores(a + "_" + b)
  {
    var s, t := a + "__" + b, a + "_" + b;
    if a == [] {
      assert s[1..] == t;
    } else {
      var a' := a[1..];
      assert s[1..] == a' + "__" + b && t[1..] == a' + "_" + b;
      assert s[1] == t[1];
      CollapseDoubleUnderscore(a', b);
    }
  }

  /** The one pipeline both suggestions use: lower-case, every character outside
      `[a-zA-Z0-9_]` to `_`, runs of `_` collapsed, `_` stripped from both ends. */
  function SuggestName(s: string): string {
    StripUnderscores(CollapseUnderscores(ReplaceSpecial(Lower(s))))
  }

  /** A name the pipeline can produce: `[a-z0-9_]` only, no `__`, no `_` at either end. */
  predicate CleanName(r: string) {
    && (forall i :: 0 <= i < |r| ==> IsNameChar(r[i]))
    && NoDoubleUnderscore(r)
    && (r != [] ==> r[0] != '_' && r[|r| - 1] != '_')
  }

  /** Lower-casing and replacing leave only name characters. */
  lemma ReplacedLowerNameChars(s: string)
    ensures var t := ReplaceSpecial(Lower(s)); forall i :: 0 <= i < |t| ==> IsNameChar(t[i])
  {
    var l := Lower(s);
    var t := ReplaceSpecial(l);
    forall i | 0 <= i < |t| ensures IsNameChar(t[i]) {
      assert l[i] == LowerChar(s[i]);
    }
  }

  /** A string of name characters without `__` keeps both properties in any slice. */
  lemma SliceKeepsNameShape(u: string, a: nat, b: nat)
    requires a <= b <= |u|
    requires (forall i :: 0 <= i < |u| ==> IsNameChar(u[i])) && NoDoubleUnderscore(u)
    ensures var r := u[a..b]; (forall i :: 0 <= i < |r| ==> IsNameChar(r[i])) && NoDoubleUnderscore(r)
  {
    var r := u[a..b];
    forall i | 0 <= i < |r| ensures IsNameChar(r[i]) {
      assert r[i] == u[a + i];
    }
    forall i | 1 <= i < |r| ensures !(r[i - 1] == '_' && r[i] == '_') {
      assert r[i - 1] == u[a + i - 1] && r[i] == u[a + i];
    }
  }

  /** Collapsing underscores keeps a string of name characters one. */
  lemma CollapseKeepsNameChars(t: string)
    requires forall i :: 0 <= i < |t| ==> IsNameChar(t[i])
    ensures forall i :: 0 <= i < |CollapseUnderscores(t)| ==> IsNameChar(CollapseUnderscores(t)[i])
  {
    var u := CollapseUnderscores(t);
    forall i | 0 <= i < |u| ensures IsNameChar(u[i]) {
      assert u[i] in t;
    }
  }

  /** Stripping underscores from name characters without `__` leaves a clean name. */
  lemma StripGivesCleanName(u: string)
    requires (forall i :: 0 <= i < |u| ==> IsNameChar(u[i])) && NoDoubleUnderscore(u)
    ensures CleanName(StripUnderscores(u))
  {
    var r := StripUnderscores(u);
    var a, b :| 0 <= a <= b <= |u| && r == u[a..b] &&
      (forall k :: 0 <= k < a ==> IsUnderscore(u[k])) && (forall k :: b <= k < |u| ==> IsUnderscore(u[k]));
    SliceKeepsNameShape(u, a, b);
  }

  /** Every suggestion is a clean name. */
  lemma SuggestNameIsClean(s: string)
    ensures CleanName(SuggestName(s))
  {
    var t := ReplaceSpecial(Lower(s));
    ReplacedLowerNameChars(s);
    CollapseKeepsNameChars(t);
    var u := CollapseUnderscores(t);
    assert NoDoubleUnderscore(u);
    StripGivesCleanName(u);
  }

  /** A clean name is its own suggestion. */
  lemma CleanNameIsFixed(r: string)
    requires CleanName(r)
    ensures SuggestName(r) == r
  {
    assert Lower(r) == r;
    assert ReplaceSpecial(r) == r;
    TrimFixesTrimmed(r, Underscores);
  }

  /** The suggestions are exactly the clean names, so suggesting again changes nothing. */
  lemma SuggestNameIdempotent(s: string)
    ensures SuggestName(SuggestName(s)) == SuggestName(s)
    ensures SuggestName(s) == s <==> CleanName(s)
  {
    SuggestNameIsClean(s);
    CleanNameIsFixed(SuggestName(s));
    if CleanName(s) {
      CleanNameIsFixed(s);
    }
  }

  // ---------------------------------------------------------------------------
  // `analyze_column`: the SQL type

  /** Which of pandas' dtype tests holds, in the order the source asks them. */
  datatype DtypeKind = IntegerDtype | FloatDtype | DatetimeDtype | BoolDtype | ObjectDtype

  datatype SqlType = Integer | Decimal15x6 | Timestamp | Boolean | Varchar(width: nat) | Text

  function SqlTypeText(t: SqlType): string {
    match t
    case Integer => "INTEGER"
    case Decimal15x6 => "DECIMAL(15,6)"
    case Timestamp => "TIMESTAMP"
    case Boolean => "BOOLEAN"
    case Varchar(w) => "VARCHAR(" + NatToString(w) + ")"
    case Text => "TEXT"
  }

  function Max(a: nat, b: nat): nat {
    if a >= b then a else b
  }

  /** The type chosen from the dtype and, for any other column, the length of its longest
      text (`0` for an empty column). */
  function SuggestSqlType(kind: DtypeKind, maxLength: nat): (t: SqlType)
    ensures kind == IntegerDtype <==> t == Integer
    ensures kind == FloatDtype <==> t == Decimal15x6
    ensures kind == DatetimeDtype <==> t == Timestamp
    ensures kind == BoolDtype <==> t == Boolean
    ensures t.Text? <==> kind == ObjectDtype && maxLength > 255
    ensures kind == ObjectDtype && maxLength <= 50 ==> t == Varchar(100)
    ensures kind == ObjectDtype && 50 < maxLength <= 255 ==> t == Varchar(2 * maxLength)
  {
    match kind
    case IntegerDtype => Integer
    case FloatDtype => Decimal15x6
    case DatetimeDtype => Timestamp
    case BoolDtype => Boolean
    case ObjectDtype =>
      if maxLength <= 50 then Varchar(Max(maxLength * 2, 100))
      else if maxLength <= 255 then Varchar(maxLength * 2)
      else Text
  }

  /** A suggested `VARCHAR` holds twice the longest text, is at least 100 wide and at most 510. */
  lemma VarcharFits(kind: DtypeKind, maxLength: nat)
    ensures var t := SuggestSqlType(kind, maxLength);
      t.Varchar? ==> 2 * maxLength <= t.width && 100 <= t.width <= 510 && t.width % 2 == 0
  {
  }

  // ---------------------------------------------------------------------------
  // `analyze_column`: the constraints

  /** What pandas reports about one column. */
  datatype ColumnStats = ColumnStats(
    name: string, kind: DtypeKind, nonNullCount: nat, nullCount: nat, uniqueCount: nat, maxLength: nat)

  /** The per-column entry of the analysis (`pandas_dtype` left out). */
  datatype ColumnAnalysis = ColumnAnalysis(
    columnName: string, suggestedDbName: string,
    nonNullCount: nat, nullCount: nat, uniqueCount: nat,
    suggestedSqlType: SqlType, constraints: seq<string>,
    isPotentialPrimaryKey: bool, isPotentialForeignKey: bool)

  const PrimaryKey := "PRIMARY KEY"
  const NotNull := "NOT NULL"

  /** An integer column whose non-null values are all distinct and whose lower-cased name contains "id". */
  predicate PrimaryKeyCandidate(c: ColumnStats) {
    c.kind == IntegerDtype && c.uniqueCount == c.nonNullCount && Contains(Lower(c.name), "id")
  }

  /** A column of no recognised dtype whose lower-cased name contains "id", "key" or "ref". */
  predicate ForeignKeyCandidate(c: ColumnStats) {
    var l := Lower(c.name);
    c.kind == ObjectDtype && (Contains(l, "id") || Contains(l, "key") || Contains(l, "ref"))
  }

  /** The constraints of a column: "PRIMARY KEY" first when `primaryKey`, then "NOT NULL"
      when `notNull`. */
  function ConstraintList(primaryKey: bool, notNull: bool): (r: seq<string>)
    ensures PrimaryKey in r <==> primaryKey
    ensures NotNull in r <==> notNull
    ensures |r| <= 2
    ensures forall k :: 0 <= k < |r| ==> r[k] == PrimaryKey || r[k] == NotNull
    ensures primaryKey ==> r[0] == PrimaryKey
  {
    assert PrimaryKey != NotNull by {
      assert PrimaryKey[0] != NotNull[0];
    }
    (if primaryKey then [PrimaryKey] else []) + (if notNull then [NotNull] else [])
  }

  /** `analyze_column`, given the column's statistics. */
  method AnalyzeColumn(c: ColumnStats) returns (a: ColumnAnalysis)
    ensures a.columnName == c.name && a.suggestedDbName == SuggestName(c.name)
    ensures a.nonNullCount == c.nonNullCount && a.nullCount == c.nullCount && a.uniqueCount == c.uniqueCount
    ensures a.suggestedSqlType == SuggestSqlType(c.kind, c.maxLength)
    ensures a.isPotentialPrimaryKey <==> PrimaryKeyCandidate(c)
    ensures a.isPotentialForeignKey <==> ForeignKeyCandidate(c)
    ensures a.constraints == ConstraintList(PrimaryKeyCandidate(c), c.nullCount == 0)
  {
    var constraints: seq<string> := [];
    var isPrimaryKey := false;
    var isForeignKey := false;
    var sqlType: SqlType;
    var lowered := Lower(c.name);
    if c.kind == IntegerDtype {
      sqlType := Integer;
      if c.uniqueCount == c.nonNullCount && Contains(lowered, "id") {
        isPrimaryKey := true;
        constraints := constraints + [PrimaryKey];
      }
    } else if c.kind == FloatDtype {
      sqlType := Decimal15x6;
    } else if c.kind == DatetimeDtype {
      sqlType := Timestamp;
    } else if c.kind == BoolDtype {
      sqlType := Boolean;
    } else {
      if c.maxLength <= 50 {
        sqlType := Varchar(Max(c.maxLength * 2, 100));
      } else if c.maxLength <= 255 {
        sqlType := Varchar(c.maxLength * 2);
      } else {
        sqlType := Text;
      }
      if Contains(lowered, "id") || Contains(lowered, "key") || Contains(lowered, "ref") {
        isForeignKey := true;
      }
    }
    if c.nullCount == 0 {
      constraints := constraints + [NotNull];
    }
    assert constraints == ConstraintList(isPrimaryKey, c.nullCount == 0);
    a := ColumnAnalysis(c.name, SuggestName(c.name), c.nonNullCount, c.nullCount, c.uniqueCount,
      sqlType, constraints, isPrimaryKey, isForeignKey);
  }

  // ---------------------------------------------------------------------------
  // `detect_relationships`

  /** One column of the frame: its header and `unique()`, the distinct values in order of
      first appearance, with `None` standing for NaN. */
  datatype FrameColumn = FrameColumn(name: string, uniques: seq<Option<string>>)

  /** `nunique()`: the distinct values that are not NaN. */
  function NUnique(u: seq<Option<string>>): (n: nat)
    ensures n <= |u|
  {
    if u == [] then 0 else NUnique(u[..|u| - 1]) + (if u[|u| - 1].Some? then 1 else 0)
  }

  datatype Relationship =
    | PotentialForeignKey(column: string, description: string)
    | PotentialLookupTable(column: string, uniqueValues: seq<Option<string>>, description: string)

  /** The lower-cased header contains `_id`, `id_`, `ref_` or `_ref`. */
  predicate ForeignKeyPattern(name: string) {
    var l := Lower(name);
    Contains(l, "_id") || Contains(l, "id_") || Contains(l, "ref_") || Contains(l, "_ref")
  }

  /** More than one and fewer than twenty distinct non-NaN values. */
  predicate LookupCandidate(col: FrameColumn) {
    1 < NUnique(col.uniques) < 20
  }

  function Take<T>(s: seq<T>, n: nat): (r: seq<T>)
    ensures |r| <= n && |r| <= |s| && r == s[..|r|]
    ensures |s| <= n ==> r == s
  {
    if |s| <= n then s else s[..n]
  }

  /** The hints one column contributes: a foreign-key hint, then a lookup-table hint. */
  function ColumnRelationships(col: FrameColumn): (rs: seq<Relationship>)
    ensures |rs| <= 2
    ensures forall k :: 0 <= k < |rs| ==> rs[k].column == col.name
    ensures (exists k :: 0 <= k < |rs| && rs[k].PotentialForeignKey?) <==> ForeignKeyPattern(col.name)
    ensures (exists k :: 0 <= k < |rs| && rs[k].PotentialLookupTable?) <==> LookupCandidate(col)
    ensures forall k :: 0 <= k < |rs| && rs[k].PotentialLookupTable? ==>
      && |rs[k].uniqueValues| == (if |col.uniques| < 10 then |col.uniques| else 10)
      && rs[k].uniqueValues == col.uniques[..|rs[k].uniqueValues|]
    ensures |rs| == 2 ==> rs[0].PotentialForeignKey? && rs[1].PotentialLookupTable?
  {
    var fk := if ForeignKeyPattern(col.name)
      then [PotentialForeignKey(col.name, col.name + " appears to be a foreign key reference")]
      else [];
    var lookup := if LookupCandidate(col)
      then [PotentialLookupTable(col.name, Take(col.uniques, 10),
              col.name + " has " + NatToString(NUnique(col.uniques)) + " unique values, consider lookup table")]
      else [];
    var rs := fk + lookup;
    assert ForeignKeyPattern(col.name) ==> rs[0].PotentialForeignKey?;
    assert LookupCandidate(col) ==> rs[|rs| - 1].PotentialLookupTable?;
    rs
  }

  /** The hints of the first columns, column by column. */
  function Relationships(cols: seq<FrameColumn>): seq<Relationship> {
    if cols == [] then [] else Relationships(cols[..|cols| - 1]) + ColumnRelationships(cols[|cols| - 1])
  }

  /** `detect_relationships(df)` */
  method DetectRelationships(cols: seq<FrameColumn>) returns (relationships: seq<Relationship>)
    ensures relationships == Relationships(cols)
  {
    relationships := [];
    var i := 0;
    while i < |cols|
      invariant 0 <= i <= |cols|
      invariant relationships == Relationships(cols[..i])
    {
      assert cols[..i + 1][..i] == cols[..i];
      relationships := relationships + ColumnRelationships(cols[i]);
      i := i + 1;
    }
    assert cols[..i] == cols;
  }

  /** The hints of a frame are the hints of its columns, in column order. */
  lemma {:induction false} RelationshipsAppend(a: seq<FrameColumn>, b: seq<FrameColumn>)
    ensures Relationships(a + b) == Relationships(a) + Relationships(b)
    decreases |b|
  {
    if b == [] {
      assert a + b == a;
    } else {
      var b' := b[..|b| - 1];
      var last := ColumnRelationships(b[|b| - 1]);
      assert (a + b)[..|a + b| - 1] == a + b';
      assert (a + b)[|a + b| - 1] == b[|b| - 1];
      assert Relationships(a + b) == Relationships(a + b') + last;
      RelationshipsAppend(a, b');
      ConcatAssociative(Relationships(a), Relationships(b'), last);
    }
  }

  /** Every hint is about a column of the frame. */
  lemma {:induction false} RelationshipsNameColumns(cols: seq<FrameColumn>, k: nat)
    requires k < |Relationships(cols)|
    ensures exists i :: 0 <= i < |cols| && Relationships(cols)[k].column == cols[i].name
  {
    var init := Relationships(cols[..|cols| - 1]);
    if k < |init| {
      RelationshipsNameColumns(cols[..|cols| - 1], k);
      var i :| 0 <= i < |cols| - 1 && init[k].column == cols[..|cols| - 1][i].name;
      assert cols[..|cols| - 1][i] == cols[i];
    } else {
      assert Relationships(cols)[k] == ColumnRelationships(cols[|cols| - 1])[k - |init|];
    }
  }

  lemma ContainsShift(s: string, pattern: string, inner: string, offset: nat)
    requires Contains(s, pattern)
    requires offset + |inner| <= |pattern| && pattern[offset..offset + |inner|] == inner
    ensures Contains(s, inner)
  {
    var i: nat :| OccursAt(s, pattern, i);
    OccursShift(s, pattern, inner, offset, i);
  }

  /** An occurrence of `pattern` at `i` holds one of its slice `inner` at `i + offset`. */
  lemma OccursShift(s: string, pattern: string, inner: string, offset: nat, i: nat)
    requires OccursAt(s, pattern, i)
    requires offset + |inner| <= |pattern| && pattern[offset..offset + |inner|] == inner
    ensures OccursAt(s, inner, i + offset)
  {
    var w := s[i..i + |pattern|];
    var h := offset + |inner|;
    SubSlice(s, i, |pattern|, offset, h);
    assert w[offset..h] == inner;
  }

  /** A text column that gets a foreign-key hint is also flagged as a potential foreign key,
      and so gets an index; the converse fails for names such as "valid" or "humidity". */
  lemma ForeignKeyHintFlagsColumn(c: ColumnStats)
    requires c.kind == ObjectDtype && ForeignKeyPattern(c.name)
    ensures ForeignKeyCandidate(c)
  {
    var l := Lower(c.name);
    if Contains(l, "_id") {
      ContainsShift(l, "_id", "id", 1);
    } else if Contains(l, "id_") {
      ContainsShift(l, "id_", "id", 0);
    } else if Contains(l, "ref_") {
      ContainsShift(l, "ref_", "ref", 0);
    } else {
      ContainsShift(l, "_ref", "ref", 1);
    }
  }

  // ---------------------------------------------------------------------------
  // `generate_schema_suggestions`

  /** A sheet's analysis as the schema step reads it. */
  datatype SheetAnalysis = SheetAnalysis(suggestedTableName: string, totalRows: nat, columns: seq<ColumnAnalysis>)

  datatype TableSuggestion = TableSuggestion(createStatement: string, sourceSheet: string, estimatedRows: nat)

  datatype SchemaSuggestions = SchemaSuggestions(
    tables: map<string, TableSuggestion>, relationships: seq<Relationship>,
    indexes: seq<string>, generalRecommendations: seq<string>)

  /** The entries of `analysis['sheets']` in sheet order: an analysis, or the `error` entry. */
  type SheetResults = seq<(string, Result<SheetAnalysis, string>)>

  const GeneralRecommendations: seq<string> := [
    "Review suggested data types and adjust precision as needed",
    "Validate foreign key relationships between tables",
    "Consider adding created_at/updated_at timestamps to tables",
    "Add appropriate constraints and check constraints",
    "Review indexes for query optimization",
    "Consider partitioning for large tables (>1M rows)"]

  /** One line of a CREATE TABLE: indented name and type, then " NOT NULL", then " PRIMARY KEY". */
  function ColumnDefinition(c: ColumnAnalysis): string {
    "    " + c.suggestedDbName + " " + SqlTypeText(c.suggestedSqlType)
      + (if NotNull in c.constraints then " NOT NULL" else "")
      + (if PrimaryKey in c.constraints then " PRIMARY KEY" else "")
  }

  function ColumnDefinitions(cols: seq<ColumnAnalysis>): (defs: seq<string>)
    ensures |defs| == |cols| && forall k :: 0 <= k < |cols| ==> defs[k] == ColumnDefinition(cols[k])
  {
    seq(|cols|, k requires 0 <= k < |cols| => ColumnDefinition(cols[k]))
  }

  function CreateTableStatement(table: string, cols: seq<ColumnAnalysis>): string {
    "CREATE TABLE " + table + " (\n" + Join(ColumnDefinitions(cols), ",\n") + "\n);"
  }

  function IndexStatement(table: string, column: string): string {
    "CREATE INDEX idx_" + table + "_" + column + " ON " + table + "(" + column + ");"
  }

  /** One index per column flagged as a potential foreign key, in column order. */
  function IndexStatements(table: string, cols: seq<ColumnAnalysis>): (r: seq<string>)
    ensures |r| <= |cols|
    ensures forall k :: 0 <= k < |r| ==>
      exists j :: 0 <= j < |cols| && cols[j].isPotentialForeignKey && r[k] == IndexStatement(table, cols[j].suggestedDbName)
    ensures forall j :: 0 <= j < |cols| && cols[j].isPotentialForeignKey ==>
      IndexStatement(table, cols[j].suggestedDbName) in r
  {
    if cols == [] then []
    else
      var init := IndexStatements(table, cols[..|cols| - 1]);
      var c := cols[|cols| - 1];
      assert forall j :: 0 <= j < |cols| - 1 ==> cols[..|cols| - 1][j] == cols[j];
      if c.isPotentialForeignKey then init + [IndexStatement(table, c.suggestedDbName)] else init
  }

  function TableOf(sheetName: string, a: SheetAnalysis): TableSuggestion {
    TableSuggestion(CreateTableStatement(a.suggestedTableName, a.columns), sheetName, a.totalRows)
  }

  /** `suggestions['tables']` after the first sheets: a later sheet with the same suggested
      name overwrites an earlier one. */
  function TablesOf(sheets: SheetResults): (tables: map<string, TableSuggestion>)
    ensures forall i :: 0 <= i < |sheets| && sheets[i].1.Success? ==> sheets[i].1.value.suggestedTableName in tables
    ensures forall t :: t in tables ==>
      exists i :: 0 <= i < |sheets| && sheets[i].1.Success? && sheets[i].1.value.suggestedTableName == t
  {
    if sheets == [] then map[]
    else
      var init := TablesOf(sheets[..|sheets| - 1]);
      var entry := sheets[|sheets| - 1];
      assert forall i :: 0 <= i < |sheets| - 1 ==> sheets[..|sheets| - 1][i] == sheets[i];
      match entry.1
      case Failure(_) => init
      case Success(a) => init[a.suggestedTableName := TableOf(entry.0, a)]
  }

  function IndexesOf(sheets: SheetResults): seq<string> {
    if sheets == [] then []
    else
      var init := IndexesOf(sheets[..|sheets| - 1]);
      var entry := sheets[|sheets| - 1];
      match entry.1
      case Failure(_) => init
      case Success(a) => init + IndexStatements(a.suggestedTableName, a.columns)
  }

  /** `generate_schema_suggestions(sheets_analysis)` */
  method GenerateSchemaSuggestions(sheets: SheetResults) returns (suggestions: SchemaSuggestions)
    ensures suggestions == SchemaSuggestions(TablesOf(sheets), [], IndexesOf(sheets), GeneralRecommendations)
  {
    var tables: map<string, TableSuggestion> := map[];
    var indexes: seq<string> := [];
    var i := 0;
    while i < |sheets|
      invariant 0 <= i <= |sheets|
      invariant tables == TablesOf(sheets[..i]) && indexes == IndexesOf(sheets[..i])
    {
      assert sheets[..i + 1][..i] == sheets[..i];
      var (sheetName, sheetData) := sheets[i];
      if sheetData.Success? {
        var a := sheetData.value;
        var createTable, tableIndexes := TableStatements(a.suggestedTableName, a.columns);
        tables := tables[a.suggestedTableName := TableSuggestion(createTable, sheetName, a.totalRows)];
        indexes := indexes + tableIndexes;
      }
      i := i + 1;
    }
    assert sheets[..i] == sheets;
    suggestions := SchemaSuggestions(tables, [], indexes, GeneralRecommendations);
  }

  /** The two column loops of one sheet: the CREATE TABLE text and its indexes. */
  method TableStatements(table: string, cols: seq<ColumnAnalysis>) returns (createTable: string, indexes: seq<string>)
    ensures createTable == CreateTableStatement(table, cols)
    ensures indexes == IndexStatements(table, cols)
  {
    var columns: seq<string> := [];
    var k := 0;
    while k < |cols|
      invariant 0 <= k <= |cols|
      invariant columns == ColumnDefinitions(cols[..k])
    {
      columns := columns + [ColumnDefinition(cols[k])];
      k := k + 1;
    }
    assert cols[..k] == cols;
    createTable := "CREATE TABLE " + table + " (\n" + Join(columns, ",\n") + "\n);";
    indexes := [];
    k := 0;
    while k < |cols|
      invariant 0 <= k <= |cols|
      invariant indexes == IndexStatements(table, cols[..k])
    {
      assert cols[..k + 1][..k] == cols[..k];
      if cols[k].isPotentialForeignKey {
        indexes := indexes + [IndexStatement(table, cols[k].suggestedDbName)];
      }
      k := k + 1;
    }
    assert cols[..k] == cols;
  }

  // ---------------------------------------------------------------------------
  // Properties of the suggestions

  /** The lines of entries joined by `mark` and a line break: every entry but the last ends
      in `mark`. */
  function MarkedLines(defs: seq<string>, mark: string): (lines: seq<string>)
    ensures |lines| == |defs|
  {
    if |defs| <= 1 then defs else [defs[0] + mark] + MarkedLines(defs[1..], mark)
  }

  /** A text without a line break. */
  predicate OneLine(s: string) {
    '\n' !in s
  }

  lemma OneLineConcat(a: string, b: string)
    requires OneLine(a) && OneLine(b)
    ensures OneLine(a + b)
  {
  }

  /** No definition of a column whose name has no line break holds one. */
  lemma DefinitionIsOneLine(c: ColumnAnalysis)
    requires OneLine(c.suggestedDbName)
    ensures OneLine(ColumnDefinition(c))
  {
    var t := SqlTypeText(c.suggestedSqlType);
    if c.suggestedSqlType.Varchar? {
      var digits := NatToString(c.suggestedSqlType.width);
      assert forall k :: 0 <= k < |digits| ==> IsDigit(digits[k]);
      OneLineConcat("VARCHAR(", digits);
      OneLineConcat("VARCHAR(" + digits, ")");
    }
    assert OneLine(t);
    OneLineConcat("    ", c.suggestedDbName);
    OneLineConcat("    " + c.suggestedDbName, " ");
    OneLineConcat("    " + c.suggestedDbName + " ", t);
    var head := "    " + c.suggestedDbName + " " + t;
    var nn := if NotNull in c.constraints then " NOT NULL" else "";
    var pk := if PrimaryKey in c.constraints then " PRIMARY KEY" else "";
    OneLineConcat(head, nn);
    OneLineConcat(head + nn, pk);
  }

  /** The constraints follow the type, " NOT NULL" before " PRIMARY KEY". */
  lemma DefinitionConstraintOrder(c: ColumnAnalysis)
    requires NotNull in c.constraints && PrimaryKey in c.constraints
    ensures var head := "    " + c.suggestedDbName + " " + SqlTypeText(c.suggestedSqlType);
      ColumnDefinition(c) == head + " NOT NULL PRIMARY KEY"
  {
  }

  lemma JoinStep(defs: seq<string>, mark: string, rest: string)
    requires |defs| >= 2
    ensures Join(defs, mark + ['\n']) + ['\n'] + rest
      == (defs[0] + mark) + ['\n'] + (Join(defs[1..], mark + ['\n']) + ['\n'] + rest)
  {
    var j := Join(defs[1..], mark + ['\n']);
    assert Join(defs, mark + ['\n']) == defs[0] + (mark + ['\n']) + j;
  }

  /** Entries without line breaks, joined by `mark` and a line break and followed by a line
      break, split back into the entries (with `mark` on all but the last). */
  lemma {:induction false} SplitJoinedLines(defs: seq<string>, mark: string, rest: string)
    requires OneLine(mark) && defs != [] && forall k :: 0 <= k < |defs| ==> OneLine(defs[k])
    ensures Split(Join(defs, mark + ['\n']) + ['\n'] + rest, '\n') == MarkedLines(defs, mark) + Split(rest, '\n')
  {
    if |defs| == 1 {
      SplitJoinedSingle(defs, mark, rest);
    } else {
      var tail := Join(defs[1..], mark + ['\n']) + ['\n'] + rest;
      SplitJoinedFirst(defs, mark, rest);
      assert forall k :: 0 <= k < |defs[1..]| ==> OneLine(defs[1..][k]);
      SplitJoinedLines(defs[1..], mark, rest);
      assert MarkedLines(defs, mark) == [defs[0] + mark] + MarkedLines(defs[1..], mark);
      ConcatAssociative([defs[0] + mark], MarkedLines(defs[1..], mark), Split(rest, '\n'));
    }
  }

  lemma SplitJoinedSingle(defs: seq<string>, mark: string, rest: string)
    requires |defs| == 1 && OneLine(defs[0])
    ensures Split(Join(defs, mark + ['\n']) + ['\n'] + rest, '\n') == MarkedLines(defs, mark) + Split(rest, '\n')
  {
    assert Join(defs, mark + ['\n']) == defs[0];
    SplitCons(defs[0], '\n', rest);
  }

  lemma SplitJoinedFirst(defs: seq<string>, mark: string, rest: string)
    requires |defs| >= 2 && OneLine(mark) && OneLine(defs[0])
    ensures Split(Join(defs, mark + ['\n']) + ['\n'] + rest, '\n')
      == [defs[0] + mark] + Split(Join(defs[1..], mark + ['\n']) + ['\n'] + rest, '\n')
  {
    var tail := Join(defs[1..], mark + ['\n']) + ['\n'] + rest;
    JoinStep(defs, mark, rest);
    OneLineConcat(defs[0], mark);
    SplitCons(defs[0] + mark, '\n', tail);
  }

  /** The literals of a CREATE TABLE, each a text and a line break. */
  lemma StatementLiterals()
    ensures ",\n" == "," + ['\n'] && " (\n" == " (" + ['\n'] && "\n);" == ['\n'] + ");"
    ensures Split(");", '\n') == [");"]
  {
  }

  /** A CREATE TABLE is its header line, a line break and its body. */
  lemma StatementParts(table: string, cols: seq<ColumnAnalysis>)
    ensures CreateTableStatement(table, cols)
      == ("CREATE TABLE " + table + " (") + ['\n'] + (Join(ColumnDefinitions(cols), "," + ['\n']) + ['\n'] + ");")
  {
    StatementLiterals();
    var j := Join(ColumnDefinitions(cols), "," + ['\n']);
    assert CreateTableStatement(table, cols) == "CREATE TABLE " + table + (" (" + ['\n']) + j + (['\n'] + ");");
  }

  /** A CREATE TABLE reads line by line as its header, one line per column (with a comma
      after all but the last, and a single empty line when there is no column) and ");". */
  lemma CreateTableLines(table: string, cols: seq<ColumnAnalysis>)
    requires OneLine(table)
    requires forall k :: 0 <= k < |cols| ==> OneLine(cols[k].suggestedDbName)
    ensures Split(CreateTableStatement(table, cols), '\n') ==
      ["CREATE TABLE " + table + " ("]
      + (if cols == [] then [""] else MarkedLines(ColumnDefinitions(cols), ","))
      + [");"]
  {
    var header := "CREATE TABLE " + table + " (";
    var defs := ColumnDefinitions(cols);
    var body := Join(defs, "," + ['\n']) + ['\n'] + ");";
    StatementParts(table, cols);
    StatementLiterals();
    OneLineConcat("CREATE TABLE ", table);
    OneLineConcat("CREATE TABLE " + table, " (");
    SplitCons(header, '\n', body);
    if cols == [] {
      assert body == [] + ['\n'] + ");";
      SplitCons([], '\n', ");");
    } else {
      forall k | 0 <= k < |defs| ensures OneLine(defs[k]) {
        DefinitionIsOneLine(cols[k]);
      }
      SplitJoinedLines(defs, ",", ");");
    }
  }

  /** A suggested name never holds a line break. */
  lemma SuggestedNameIsOneLine(s: string)
    ensures OneLine(SuggestName(s))
  {
    SuggestNameIsClean(s);
  }

  /** The table stored under a name is the one built from the last analysed sheet with that name. */
  lemma {:induction false} TablesOfLast(sheets: SheetResults, i: nat)
    requires i < |sheets| && sheets[i].1.Success?
    requires forall j :: i < j < |sheets| && sheets[j].1.Success? ==>
      sheets[j].1.value.suggestedTableName != sheets[i].1.value.suggestedTableName
    ensures var a := sheets[i].1.value;
      a.suggestedTableName in TablesOf(sheets) && TablesOf(sheets)[a.suggestedTableName] == TableOf(sheets[i].0, a)
  {
    var init := sheets[..|sheets| - 1];
    if i < |sheets| - 1 {
      assert init[i] == sheets[i];
      forall j | i < j < |init| && init[j].1.Success?
        ensures init[j].1.value.suggestedTableName != init[i].1.value.suggestedTableName
      {
        assert init[j] == sheets[j];
      }
      TablesOfLast(init, i);
    }
  }

  /** The indexes of a run of sheets are those of its earlier sheets, then those of the last. */
  lemma {:induction false} IndexesOfAppend(a: SheetResults, b: SheetResults)
    ensures IndexesOf(a + b) == IndexesOf(a) + IndexesOf(b)
    decreases |b|
  {
    if b == [] {
      assert a + b == a;
    } else {
      var b' := b[..|b| - 1];
      var s := a + b;
      assert s[..|s| - 1] == a + b';
      assert s[|s| - 1] == b[|b| - 1];
      IndexesOfAppend(a, b');
      var extra := match b[|b| - 1].1
        case Failure(_) => []
        case Success(x) => IndexStatements(x.suggestedTableName, x.columns);
      assert IndexesOf(s) == IndexesOf(a + b') + extra;
      assert IndexesOf(b) == IndexesOf(b') + extra;
      ConcatAssociative(IndexesOf(a), IndexesOf(b'), extra);
    }
  }

  /** An error entry contributes neither a table nor an index. */
  lemma ErrorSheetSkipped(sheets: SheetResults, name: string, error: string)
    ensures TablesOf(sheets + [(name, Failure(error))]) == TablesOf(sheets)
    ensures IndexesOf(sheets + [(name, Failure(error))]) == IndexesOf(sheets)
  {
    assert (sheets + [(name, Failure(error))])[..|sheets|] == sheets;
  }
}
