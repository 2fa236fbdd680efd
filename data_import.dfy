/**
 * `ExcelDataImporter`: the workbook-to-database import. For every catalogue
 * entry it clears the target table, turns every row of the entry's sheet into
 * a record (or a row error), and commits once per sheet.
 *
 * pandas and the database are the environment: a sheet is given as its
 * headers and rows, `pd.to_datetime` is a parameter, and the session is a
 * class holding the committed tables and the tables as the open transaction
 * sees them.
 */
module DataImport {
  import opened Wrappers
  import opened Text
  import opened DataTransforms
  import opened TableModels
  import opened ExcelMappings

  /** A worksheet as `pd.read_excel` delivers it: its headers (`df.columns`) and its rows. */
  datatype Sheet = Sheet(columns: set<string>, rows: seq<map<string, Cell>>)

  /** A row holds a cell under every header of its sheet. */
  predicate RowFits(columns: set<string>, row: map<string, Cell>) {
    forall h :: h in columns ==> h in row
  }

  /** Every row fits the headers, and every datetime cell is a real calendar instant. */
  predicate WellFormedSheet(sheet: Sheet) {
    forall i :: 0 <= i < |sheet.rows| ==>
      RowFits(sheet.columns, sheet.rows[i]) && forall h :: h in sheet.rows[i] ==> WellFormedCell(sheet.rows[i][h])
  }

  /** The workbook by sheet name (`workbook.sheet_names` are its keys). */
  type Workbook = map<string, Sheet>

  predicate WellFormedWorkbook(workbook: Workbook) {
    forall name :: name in workbook ==> WellFormedSheet(workbook[name])
  }

  /** A stored record: the attributes the constructor set. */
  type Record = map<string, Value>

  /** The contents of the tables, by table name; a table not in the map is empty. */
  type Tables = map<string, seq<Record>>

  function Rows(t: Tables, table: string): seq<Record> {
    if table in t then t[table] else []
  }

  /** A converter set: what `getattr(transforms, name)(value)` returns or raises. */
  type Converter = (TransformName, Cell) -> Result<Value, string>

  /** The converters of `DataTransforms`, applied to the cells a sheet can hold (a datetime
      cell is a real calendar instant; any other cell is passed through untouched). */
  function StandardConverters(toDatetime: DatetimeParser): (transforms: Converter)
    ensures forall name, c :: WellFormedCell(c) ==> transforms(name, c) == ApplyTransform(toDatetime, name, c)
  {
    (name, c) => if WellFormedCell(c) then ApplyTransform(toDatetime, name, c) else Success(Raw(c))
  }

  /** What the import cannot see of the database: whether the driver accepts a raw SQL
      string, the working tables whose flush fails (with the message of the error), and
      the texts of the two errors the session raises. A text is given as a template:
      its pieces around the place where the statement or the original error goes. */
  datatype Environment = Environment(
    acceptsRawSql: bool,
    rawSqlError: seq<string>,
    commitErrors: imap<Tables, string>,
    pendingRollback: seq<string>)

  /** A template with its argument filled in at every place. */
  function Fill(template: seq<string>, arg: string): string {
    Join(template, arg)
  }

  /** `str()` of the error a refused raw SQL string raises. */
  function RawSqlError(env: Environment, statement: string): string {
    Fill(env.rawSqlError, statement)
  }

  /** `str()` of the error a session raises once a flush has failed. */
  function PendingRollbackError(env: Environment, cause: string): string {
    Fill(env.pendingRollback, cause)
  }

  /** The error flushing the given working tables raises, if any. */
  function CommitError(env: Environment, working: Tables): Option<string> {
    if working in env.commitErrors then Some(env.commitErrors[working]) else None
  }

  // ---------------------------------------------------------------------------
  // `model_data`: a dict in insertion order, as an association list

  type ModelData = seq<(string, Value)>

  function KeysOf(d: ModelData): (ks: seq<string>)
    ensures |ks| == |d| && forall i :: 0 <= i < |d| ==> ks[i] == d[i].0
  {
    if d == [] then [] else [d[0].0] + KeysOf(d[1..])
  }

  /** `d.get(k)` */
  function Lookup(d: ModelData, k: string): (r: Option<Value>)
    ensures r.None? <==> k !in KeysOf(d)
  {
    if d == [] then None
    else if d[0].0 == k then Some(d[0].1)
    else Lookup(d[1..], k)
  }

  /** `d[k] = v`: the key now holds the new value, and every other key keeps its own. */
  function Put(d: ModelData, k: string, v: Value): (r: ModelData)
    ensures Lookup(r, k) == Some(v)
    ensures forall x :: x != k ==> Lookup(r, x) == Lookup(d, x)
  {
    if d == [] then [(k, v)]
    else if d[0].0 == k then [(k, v)] + d[1..]
    else [d[0]] + Put(d[1..], k, v)
  }

  /** Insertion order: an existing key keeps its place, a new key goes last. */
  lemma {:induction false} PutKeys(d: ModelData, k: string, v: Value)
    ensures k in KeysOf(d) ==> KeysOf(Put(d, k, v)) == KeysOf(d)
    ensures k !in KeysOf(d) ==> KeysOf(Put(d, k, v)) == KeysOf(d) + [k]
  {
    if d != [] {
      if d[0].0 == k {
        assert Put(d, k, v)[1..] == d[1..];
      } else {
        PutKeys(d[1..], k, v);
        assert Put(d, k, v)[1..] == Put(d[1..], k, v);
      }
    }
  }

  // ---------------------------------------------------------------------------
  // One row

  /** The value the field gets from the cell under `header`: converted when the field
      names a converter, the raw cell when it does not. */
  function ConvertCell(transforms: Converter, entry: MappingEntry, row: map<string, Cell>, header: string, field: string): (r: Result<Value, string>)
    requires header in row
    ensures field !in entry.transforms ==> r == Success(Raw(row[header]))
    ensures field in entry.transforms ==> r == transforms(entry.transforms[field], row[header])
  {
    if field in entry.transforms then transforms(entry.transforms[field], row[header])
    else Success(Raw(row[header]))
  }

  /** `model_data` after the first `n` pairs of the column mapping, or the exception a converter raised. */
  function ModelDataOf(transforms: Converter, entry: MappingEntry, columns: set<string>, row: map<string, Cell>, n: nat): Result<ModelData, string>
    requires n <= |entry.columnMapping| && RowFits(columns, row)
  {
    if n == 0 then Success([])
    else
      match ModelDataOf(transforms, entry, columns, row, n - 1)
      case Failure(e) => Failure(e)
      case Success(d) =>
        var (header, field) := entry.columnMapping[n - 1];
        if header !in columns then Success(d)
        else
          match ConvertCell(transforms, entry, row, header, field)
          case Failure(e) => Failure(e)
          case Success(v) => Success(Put(d, field, v))
  }

  /** Once a converter has raised, the rest of the mapping is not looked at. */
  lemma {:induction false} ModelDataFailureSticks(transforms: Converter, entry: MappingEntry, columns: set<string>, row: map<string, Cell>, n: nat, k: nat)
    requires n <= k <= |entry.columnMapping| && RowFits(columns, row)
    requires ModelDataOf(transforms, entry, columns, row, n).Failure?
    ensures ModelDataOf(transforms, entry, columns, row, k) == ModelDataOf(transforms, entry, columns, row, n)
    decreases k - n
  {
    if k > n {
      ModelDataFailureSticks(transforms, entry, columns, row, n, k - 1);
    }
  }


  /** `str()` of the `TypeError` the declarative constructor raises for an unknown keyword. */
  function InvalidKeyword(k: string, className: string): string {
    "'" + k + "' is an invalid keyword argument for " + className
  }

  /** `d[i]` is the first keyword argument whose name the model does not declare. */
  predicate FirstUndeclared(m: TableModel, d: ModelData, i: nat) {
    i < |d| && d[i].0 !in m.fields && forall j :: 0 <= j < i ==> d[j].0 in m.fields
  }

  /** `table_model(**model_data)`: the keyword arguments are taken in order, the first one
      the class does not declare raises, and otherwise each becomes an attribute. */
  function Construct(m: TableModel, d: ModelData): (r: Result<Record, string>)
    ensures r.Success? <==> forall i :: 0 <= i < |d| ==> d[i].0 in m.fields
    ensures r.Failure? ==> exists i: nat :: FirstUndeclared(m, d, i) && r.error == InvalidKeyword(d[i].0, m.className)
    ensures r.Success? ==> forall k :: k in r.value <==> k in KeysOf(d)
    ensures r.Success? ==> forall k :: k in r.value ==> Lookup(d, k) == Some(r.value[k])
  {
    if d == [] then Success(map[])
    else if d[0].0 !in m.fields then
      assert FirstUndeclared(m, d, 0);
      Failure(InvalidKeyword(d[0].0, m.className))
    else
      var rest := Construct(m, d[1..]);
      assert forall i :: 1 <= i < |d| ==> d[i] == d[1..][i - 1];
      assert rest.Failure? ==> exists i: nat :: FirstUndeclared(m, d, i) && rest.error == InvalidKeyword(d[i].0, m.className) by {
        if rest.Failure? {
          var i: nat :| FirstUndeclared(m, d[1..], i) && rest.error == InvalidKeyword(d[1..][i].0, m.className);
          FirstUndeclaredShift(m, d, i);
        }
      }
      match rest
      case Failure(e) => Failure(e)
      case Success(rec) =>
        RecordCons(d, rec);
        Success(rec[d[0].0 := d[0].1])
  }

  /** The record of a nonempty `model_data`: the first argument over the record of the rest. */
  lemma RecordCons(d: ModelData, rec: Record)
    requires d != []
    requires forall k :: k in rec <==> k in KeysOf(d[1..])
    requires forall k :: k in rec ==> Lookup(d[1..], k) == Some(rec[k])
    ensures var r := rec[d[0].0 := d[0].1];
      (forall k :: k in r <==> k in KeysOf(d)) && forall k :: k in r ==> Lookup(d, k) == Some(r[k])
  {
    assert KeysOf(d) == [d[0].0] + KeysOf(d[1..]);
  }

  lemma FirstUndeclaredShift(m: TableModel, d: ModelData, i: nat)
    requires d != [] && d[0].0 in m.fields && FirstUndeclared(m, d[1..], i)
    ensures FirstUndeclared(m, d, i + 1) && d[i + 1] == d[1..][i]
  {
    forall j | 0 <= j < i + 1 ensures d[j].0 in m.fields {
      if j > 0 {
        assert d[j] == d[1..][j - 1];
      }
    }
  }

  /** One row: build `model_data`, then the record. */
  function RowOutcome(transforms: Converter, entry: MappingEntry, columns: set<string>, row: map<string, Cell>): Result<Record, string>
    requires RowFits(columns, row)
  {
    match ModelDataOf(transforms, entry, columns, row, |entry.columnMapping|)
    case Failure(e) => Failure(e)
    case Success(d) => Construct(entry.tableModel, d)
  }

  // ---------------------------------------------------------------------------
  // One sheet

  /** The entry `f"Row {index}: {str(e)}"` for a rejected row. */
  function RowError(index: nat, message: string): string {
    "Row " + NatToString(index) + ": " + message
  }

  /** The records added and the row errors after the first `n` rows, both in row order. */
  function Tally(transforms: Converter, entry: MappingEntry, sheet: Sheet, n: nat): (seq<Record>, seq<string>)
    requires n <= |sheet.rows| && WellFormedSheet(sheet)
  {
    if n == 0 then ([], [])
    else
      var (records, errors) := Tally(transforms, entry, sheet, n - 1);
      match RowOutcome(transforms, entry, sheet.columns, sheet.rows[n - 1])
      case Success(rec) => (records + [rec], errors)
      case Failure(e) => (records, errors + [RowError(n - 1, e)])
  }

  /** The statistics `import_sheet` returns. */
  datatype ImportStats = ImportStats(sheetName: string, totalRows: nat, importedRows: nat, skippedRows: nat, errors: seq<string>)

  /** The session as the import sees it. */
  datatype SessionState = SessionState(committed: Tables, working: Tables, active: bool, failure: string)

  function DeleteStatement(table: string): string {
    "DELETE FROM " + table
  }

  /** The exception `session.execute` raises on the raw `DELETE`, if any: a driver that
      refuses textual SQL raises before anything else; a session whose last flush failed
      refuses any further statement. */
  function DeleteError(env: Environment, table: string, s: SessionState): Option<string> {
    if !env.acceptsRawSql then Some(RawSqlError(env, DeleteStatement(table)))
    else if !s.active then Some(PendingRollbackError(env, s.failure))
    else None
  }

  /** The session after a commit of its working tables: they become the committed ones,
      or, when the flush fails, the transaction is rolled back and the session is unusable. */
  function CommitEffect(env: Environment, s: SessionState): (Option<string>, SessionState) {
    if !s.active then (Some(PendingRollbackError(env, s.failure)), s)
    else match CommitError(env, s.working)
      case Some(e) => (Some(e), SessionState(s.committed, s.committed, false, e))
      case None => (None, SessionState(s.working, s.working, true, s.failure))
  }

  /** `import_sheet`: its result (statistics, or the exception it lets through) and the session afterwards. */
  function ImportSheetEffect(env: Environment, transforms: Converter, entry: MappingEntry, sheet: Sheet, s: SessionState): (Result<ImportStats, string>, SessionState)
    requires WellFormedSheet(sheet)
  {
    var table := entry.tableModel.tableName;
    match DeleteError(env, table, s)
    case Some(e) => (Failure(e), s)
    case None =>
      var (records, errors) := Tally(transforms, entry, sheet, |sheet.rows|);
      var (commitErr, s') := CommitEffect(env, s.(working := s.working[table := records]));
      match commitErr
      case Some(e) => (Failure(e), s')
      case None => (Success(ImportStats(entry.sheetName, |sheet.rows|, |records|, |errors|, errors)), s')
  }

  /** The database session: the committed tables, the tables as the open transaction sees
      them, and whether a failed flush has left the transaction unusable (and why). */
  class Session {
    var committed: Tables
    var working: Tables
    var active: bool
    var failure: string

    constructor (tables: Tables)
      ensures State() == SessionState(tables, tables, true, "")
    {
      committed := tables;
      working := tables;
      active := true;
      failure := "";
    }

    function State(): SessionState
      reads this
    {
      SessionState(committed, working, active, failure)
    }

    /** `await session.execute(f"DELETE FROM {table}")` */
    method ExecuteDelete(env: Environment, table: string) returns (err: Option<string>)
      modifies this
      ensures err == DeleteError(env, table, old(State()))
      ensures err.Some? ==> State() == old(State())
      ensures err.None? ==> State() == old(State()).(working := old(working)[table := []])
    {
      if !env.acceptsRawSql {
        return Some(RawSqlError(env, DeleteStatement(table)));
      }
      if !active {
        return Some(PendingRollbackError(env, failure));
      }
      working := working[table := []];
      return None;
    }

    /** `session.add(record)` */
    method Add(table: string, rec: Record)
      modifies this
      ensures State() == old(State()).(working := old(working)[table := Rows(old(working), table) + [rec]])
    {
      working := working[table := Rows(working, table) + [rec]];
    }

    /** `await session.commit()` */
    method Commit(env: Environment) returns (err: Option<string>)
      modifies this
      ensures (err, State()) == CommitEffect(env, old(State()))
    {
      if !active {
        return Some(PendingRollbackError(env, failure));
      }
      var e := CommitError(env, working);
      if e.Some? {
        active := false;
        failure := e.value;
        working := committed;
        return e;
      }
      committed := working;
      return None;
    }

    /** `len((await session.execute(select(table_model))).all())` */
    method CountRows(env: Environment, table: string) returns (r: Result<nat, string>)
      ensures !active ==> r == Failure(PendingRollbackError(env, failure))
      ensures active ==> r == Success(|Rows(working, table)|)
    {
      if !active {
        return Failure(PendingRollbackError(env, failure));
      }
      return Success(|Rows(working, table)|);
    }
  }

  // ---------------------------------------------------------------------------
  // All sheets

  function SheetNotFound(sheetName: string): string {
    "Sheet " + sheetName + " not found"
  }

  /** One domain of `import_all_sheets`: a missing sheet is an error of its own, and an
      exception from `import_sheet` is caught and recorded for this key only. */
  function DomainEffect(env: Environment, transforms: Converter, workbook: Workbook, entry: MappingEntry, s: SessionState): (Result<ImportStats, string>, SessionState)
    requires WellFormedWorkbook(workbook)
  {
    if entry.sheetName !in workbook then (Failure(SheetNotFound(entry.sheetName)), s)
    else ImportSheetEffect(env, transforms, entry, workbook[entry.sheetName], s)
  }

  /** `import_all_sheets` over the given entries, in order: the result per key and the final session. */
  function ImportAllEffect(env: Environment, transforms: Converter, workbook: Workbook, entries: seq<MappingEntry>, s: SessionState): (seq<(string, Result<ImportStats, string>)>, SessionState)
    requires WellFormedWorkbook(workbook)
  {
    if entries == [] then ([], s)
    else
      var (results, s1) := ImportAllEffect(env, transforms, workbook, entries[..|entries| - 1], s);
      var entry := entries[|entries| - 1];
      var (r, s2) := DomainEffect(env, transforms, workbook, entry, s1);
      (results + [(entry.key, r)], s2)
  }

  /** The `validate_import` entry of one catalogue entry: its table name and record count. */
  function ValidationRow(entry: MappingEntry, s: SessionState): (string, (string, nat)) {
    (entry.key, (entry.tableModel.tableName, |Rows(s.working, entry.tableModel.tableName)|))
  }

  /** `validate_import`: per key, the table name and its record count, or the exception
      the first count raises. */
  function ValidationOf(env: Environment, entries: seq<MappingEntry>, s: SessionState): (r: Result<seq<(string, (string, nat))>, string>)
    ensures r.Failure? <==> !s.active && entries != []
    ensures r.Success? ==> |r.value| == |entries| && forall i :: 0 <= i < |entries| ==> r.value[i] == ValidationRow(entries[i], s)
  {
    if !s.active && entries != [] then Failure(PendingRollbackError(env, s.failure))
    else Success(seq(|entries|, i requires 0 <= i < |entries| => ValidationRow(entries[i], s)))
  }

  /** `ExcelDataImporter`: the workbook path stays outside the model (a sheet is given as
      its contents); the converter set is `self.transforms`. */
  class ExcelDataImporter {
    const transforms: Converter

    /** `ExcelDataImporter(excel_path)`, whose converters use `toDatetime` for `pd.to_datetime`. */
    constructor (toDatetime: DatetimeParser)
      ensures forall name, c :: WellFormedCell(c) ==> transforms(name, c) == ApplyTransform(toDatetime, name, c)
    {
      transforms := StandardConverters(toDatetime);
    }

    /** The inner loop over the column mapping. */
    method BuildModelData(entry: MappingEntry, columns: set<string>, row: map<string, Cell>) returns (r: Result<ModelData, string>)
      requires RowFits(columns, row)
      ensures r == ModelDataOf(transforms, entry, columns, row, |entry.columnMapping|)
    {
      var modelData: ModelData := [];
      var j := 0;
      while j < |entry.columnMapping|
        invariant 0 <= j <= |entry.columnMapping|
        invariant ModelDataOf(transforms, entry, columns, row, j) == Success(modelData)
      {
        var (excelCol, dbCol) := entry.columnMapping[j];
        if excelCol in columns {
          var rawValue := row[excelCol];
          var transformedValue: Value;
          if dbCol in entry.transforms {
            var t := transforms(entry.transforms[dbCol], rawValue);
            if t.Failure? {
              ModelDataFailureSticks(transforms, entry, columns, row, j + 1, |entry.columnMapping|);
              return Failure(t.error);
            }
            transformedValue := t.value;
          } else {
            transformedValue := Raw(rawValue);
          }
          modelData := Put(modelData, dbCol, transformedValue);
        }
        j := j + 1;
      }
      return Success(modelData);
    }

    /** The body of the row loop: `model_data`, then the record, or the exception either raised. */
    method ConvertRow(entry: MappingEntry, columns: set<string>, row: map<string, Cell>) returns (r: Result<Record, string>)
      requires RowFits(columns, row)
      ensures r == RowOutcome(transforms, entry, columns, row)
    {
      var modelData := BuildModelData(entry, columns, row);
      if modelData.Failure? {
        return Failure(modelData.error);
      }
      r := Construct(entry.tableModel, modelData.value);
    }

    /** The row loop of `import_sheet`: every row is converted and added, or counted as
        skipped with its error. */
    method ImportRows(session: Session, entry: MappingEntry, sheet: Sheet)
      returns (importedRows: nat, skippedRows: nat, errors: seq<string>)
      requires WellFormedSheet(sheet) && entry.tableModel.tableName in session.working
      modifies session
      ensures var (records, rowErrors) := Tally(transforms, entry, sheet, |sheet.rows|);
        && importedRows == |records| && skippedRows == |rowErrors| && errors == rowErrors
        && session.State() == old(session.State()).(working := old(session.working)[entry.tableModel.tableName :=
             Rows(old(session.working), entry.tableModel.tableName) + records])
    {
      var table := entry.tableModel.tableName;
      ghost var s0 := session.State();
      ghost var before := Rows(session.working, table);
      importedRows, skippedRows := 0, 0;
      errors := [];
      ghost var added: seq<Record> := [];
      assert before + added == before;
      assert s0.working[table := before + added] == s0.working;
      var index := 0;
      while index < |sheet.rows|
        invariant 0 <= index <= |sheet.rows|
        invariant Tally(transforms, entry, sheet, index) == (added, errors)
        invariant importedRows == |added| && skippedRows == |errors|
        invariant session.State() == s0.(working := s0.working[table := before + added])
      {
        ghost var w := session.working;
        assert Rows(w, table) == before + added;
        var outcome := ConvertRow(entry, sheet.columns, sheet.rows[index]);
        if outcome.Success? {
          assert Tally(transforms, entry, sheet, index + 1) == (added + [outcome.value], errors);
          session.Add(table, outcome.value);
          importedRows := importedRows + 1;
          assert before + (added + [outcome.value]) == (before + added) + [outcome.value];
          assert w[table := (before + added) + [outcome.value]] == s0.working[table := before + (added + [outcome.value])];
          added := added + [outcome.value];
        } else {
          assert Tally(transforms, entry, sheet, index + 1) == (added, errors + [RowError(index, outcome.error)]);
          skippedRows := skippedRows + 1;
          errors := errors + [RowError(index, outcome.error)];
        }
        index := index + 1;
      }
    }

    /** `import_sheet`: clear the table, convert and add every row, count, commit. */
    method ImportSheet(session: Session, env: Environment, entry: MappingEntry, sheet: Sheet) returns (r: Result<ImportStats, string>)
      requires WellFormedSheet(sheet)
      modifies session
      ensures (r, session.State()) == ImportSheetEffect(env, transforms, entry, sheet, old(session.State()))
    {
      var table := entry.tableModel.tableName;
      var deleteErr := session.ExecuteDelete(env, table);
      if deleteErr.Some? {
        return Failure(deleteErr.value);
      }
      ghost var s := old(session.State());
      ghost var tally := Tally(transforms, entry, sheet, |sheet.rows|);
      ghost var cleared := session.working;
      var importedRows, skippedRows, errors := ImportRows(session, entry, sheet);
      assert Rows(cleared, table) + tally.0 == tally.0;
      assert cleared[table := tally.0] == s.working[table := tally.0];
      assert session.State() == s.(working := s.working[table := tally.0]);
      var commitErr := session.Commit(env);
      if commitErr.Some? {
        return Failure(commitErr.value);
      }
      return Success(ImportStats(entry.sheetName, |sheet.rows|, importedRows, skippedRows, errors));
    }

    /** One pass of the loop in `import_all_sheets`. */
    method ImportDomain(session: Session, env: Environment, workbook: Workbook, config: MappingEntry) returns (r: Result<ImportStats, string>)
      requires WellFormedWorkbook(workbook)
      modifies session
      ensures (r, session.State()) == DomainEffect(env, transforms, workbook, config, old(session.State()))
    {
      if config.sheetName !in workbook {
        return Failure(SheetNotFound(config.sheetName));
      }
      r := ImportSheet(session, env, config, workbook[config.sheetName]);
    }

    /** `import_all_sheets`, over the catalogue. */
    method ImportAllSheets(session: Session, env: Environment, workbook: Workbook) returns (results: seq<(string, Result<ImportStats, string>)>)
      requires WellFormedWorkbook(workbook)
      modifies session
      ensures (results, session.State()) == ImportAllEffect(env, transforms, workbook, ExcelMappings.ExcelMappings, old(session.State()))
    {
      results := ImportEntries(session, env, workbook, ExcelMappings.ExcelMappings);
    }

    /** The loop of `import_all_sheets` over the given entries. */
    method ImportEntries(session: Session, env: Environment, workbook: Workbook, entries: seq<MappingEntry>) returns (results: seq<(string, Result<ImportStats, string>)>)
      requires WellFormedWorkbook(workbook)
      modifies session
      ensures (results, session.State()) == ImportAllEffect(env, transforms, workbook, entries, old(session.State()))
    {
      ghost var s0 := session.State();
      results := [];
      var i := 0;
      while i < |entries|
        invariant 0 <= i <= |entries|
        invariant (results, session.State()) == ImportAllEffect(env, transforms, workbook, entries[..i], s0)
      {
        assert entries[..i + 1][..i] == entries[..i];
        var result := ImportDomain(session, env, workbook, entries[i]);
        results := results + [(entries[i].key, result)];
        i := i + 1;
      }
      assert entries[..i] == entries;
    }

    /** `validate_import`, over the catalogue. */
    method ValidateImport(session: Session, env: Environment) returns (r: Result<seq<(string, (string, nat))>, string>)
      ensures r == ValidationOf(env, ExcelMappings.ExcelMappings, session.State())
    {
      r := ValidateEntries(session, env, ExcelMappings.ExcelMappings);
    }

    /** The loop of `validate_import` over the given entries. */
    method ValidateEntries(session: Session, env: Environment, entries: seq<MappingEntry>) returns (r: Result<seq<(string, (string, nat))>, string>)
      ensures r == ValidationOf(env, entries, session.State())
    {
      ghost var s := session.State();
      var validationResults: seq<(string, (string, nat))> := [];
      var i := 0;
      while i < |entries|
        invariant 0 <= i <= |entries|
        invariant i > 0 ==> session.active
        invariant validationResults == seq(i, j requires 0 <= j < i => ValidationRow(entries[j], s))
      {
        var count := session.CountRows(env, entries[i].tableModel.tableName);
        if count.Failure? {
          return Failure(count.error);
        }
        validationResults := validationResults + [(entries[i].key, (entries[i].tableModel.tableName, count.value))];
        i := i + 1;
      }
      return Success(validationResults);
    }
  }
}
