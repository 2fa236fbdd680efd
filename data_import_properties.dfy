/**
 * What the import promises, stated over the functions that specify
 * `ExcelDataImporter`: which value a field receives, how rows are counted,
 * full refresh of a table, idempotence, and how the domains of
 * `import_all_sheets` are kept apart.
 */
module DataImportProperties {
  import opened Wrappers
  import opened DataTransforms
  import opened TableModels
  import opened ExcelMappings
  import opened DataImport

  // ---------------------------------------------------------------------------
  // One row: which cell a field gets

  /** The mapping position, among the first `n`, that last targets `field` with a header
      the sheet has; `None` when there is none. */
  function LastSource(entry: MappingEntry, columns: set<string>, field: string, n: nat): (r: Option<nat>)
    requires n <= |entry.columnMapping|
    ensures r.Some? ==> r.value < n && entry.columnMapping[r.value].1 == field && entry.columnMapping[r.value].0 in columns
    ensures r.Some? ==> forall j :: r.value < j < n ==> !(entry.columnMapping[j].1 == field && entry.columnMapping[j].0 in columns)
    ensures r.None? <==> forall j :: 0 <= j < n ==> !(entry.columnMapping[j].1 == field && entry.columnMapping[j].0 in columns)
  {
    if n == 0 then None
    else if entry.columnMapping[n - 1].1 == field && entry.columnMapping[n - 1].0 in columns then Some(n - 1)
    else LastSource(entry, columns, field, n - 1)
  }

  /** A field is set exactly when some header mapped to it is present, and it holds the
      converted (or raw) cell of the last such header in mapping order. */
  lemma {:induction false} LastMappingWins(transforms: Converter, entry: MappingEntry, columns: set<string>, row: map<string, Cell>, n: nat, field: string)
    requires n <= |entry.columnMapping| && RowFits(columns, row)
    requires ModelDataOf(transforms, entry, columns, row, n).Success?
    ensures var d := ModelDataOf(transforms, entry, columns, row, n).value;
      match LastSource(entry, columns, field, n)
      case None => Lookup(d, field).None?
      case Some(j) =>
        var c := ConvertCell(transforms, entry, row, entry.columnMapping[j].0, field);
        c.Success? && Lookup(d, field) == Some(c.value)
  {
    if n > 0 {
      LastMappingWins(transforms, entry, columns, row, n - 1, field);
    }
  }

  /** A field without a converter receives the cell itself, untouched. */
  lemma RawPassthrough(transforms: Converter, entry: MappingEntry, columns: set<string>, row: map<string, Cell>, field: string)
    requires RowFits(columns, row) && field !in entry.transforms
    requires ModelDataOf(transforms, entry, columns, row, |entry.columnMapping|).Success?
    requires LastSource(entry, columns, field, |entry.columnMapping|).Some?
    ensures Lookup(ModelDataOf(transforms, entry, columns, row, |entry.columnMapping|).value, field)
      == Some(Raw(row[entry.columnMapping[LastSource(entry, columns, field, |entry.columnMapping|).value].0]))
  {
    LastMappingWins(transforms, entry, columns, row, |entry.columnMapping|, field);
  }

  /** A present header whose target the model does not declare makes every row fail:
      either a converter raises first, or the constructor refuses the keyword. */
  lemma RowRejected(transforms: Converter, entry: MappingEntry, columns: set<string>, row: map<string, Cell>, j: nat)
    requires RowFits(columns, row) && j < |entry.columnMapping|
    requires entry.columnMapping[j].0 in columns && entry.columnMapping[j].1 !in entry.tableModel.fields
    ensures RowOutcome(transforms, entry, columns, row).Failure?
  {
    var n := |entry.columnMapping|;
    var field := entry.columnMapping[j].1;
    var md := ModelDataOf(transforms, entry, columns, row, n);
    if md.Success? {
      LastMappingWins(transforms, entry, columns, row, n, field);
      var d := md.value;
      assert field in KeysOf(d);
      var i :| 0 <= i < |d| && KeysOf(d)[i] == field;
      assert d[i].0 !in entry.tableModel.fields;
    }
  }

  // ---------------------------------------------------------------------------
  // One sheet: counting

  /** The indices of the rejected rows among the first `n`: each once, in increasing order. */
  function FailedRows(transforms: Converter, entry: MappingEntry, sheet: Sheet, n: nat): (failed: seq<nat>)
    requires n <= |sheet.rows| && WellFormedSheet(sheet)
    ensures forall j :: 0 <= j < |failed| ==> failed[j] < n && RowOutcome(transforms, entry, sheet.columns, sheet.rows[failed[j]]).Failure?
    ensures forall j, k :: 0 <= j < k < |failed| ==> failed[j] < failed[k]
    ensures forall i :: 0 <= i < n ==> (i in failed <==> RowOutcome(transforms, entry, sheet.columns, sheet.rows[i]).Failure?)
  {
    if n == 0 then []
    else if RowOutcome(transforms, entry, sheet.columns, sheet.rows[n - 1]).Failure? then
      FailedRows(transforms, entry, sheet, n - 1) + [n - 1]
    else FailedRows(transforms, entry, sheet, n - 1)
  }

  /** The outcome of each of the first `n` rows, in row order. */
  function Outcomes(transforms: Converter, entry: MappingEntry, sheet: Sheet, n: nat): (outs: seq<Result<Record, string>>)
    requires n <= |sheet.rows| && WellFormedSheet(sheet)
    ensures |outs| == n
  {
    seq(n, i requires 0 <= i < n => RowOutcome(transforms, entry, sheet.columns, sheet.rows[i]))
  }

  /** The values of the successful outcomes, in order. */
  function Successes<T, E>(outs: seq<Result<T, E>>): (values: seq<T>)
    ensures |values| <= |outs|
  {
    if outs == [] then []
    else
      var last := outs[|outs| - 1];
      Successes(outs[..|outs| - 1]) + if last.Success? then [last.value] else []
  }

  /** The records `session.add` receives are the records of the accepted rows, one per
      row, in row order. */
  lemma {:induction false} TallyRecords(transforms: Converter, entry: MappingEntry, sheet: Sheet, n: nat)
    requires n <= |sheet.rows| && WellFormedSheet(sheet)
    ensures Tally(transforms, entry, sheet, n).0 == Successes(Outcomes(transforms, entry, sheet, n))
  {
    if n > 0 {
      TallyRecords(transforms, entry, sheet, n - 1);
      var outs := Outcomes(transforms, entry, sheet, n);
      assert outs[..n - 1] == Outcomes(transforms, entry, sheet, n - 1);
    }
  }

  /** Every row is counted once, as imported or as skipped, and the errors name the
      skipped rows in order with their messages. */
  lemma {:induction false} TallyCounts(transforms: Converter, entry: MappingEntry, sheet: Sheet, n: nat)
    requires n <= |sheet.rows| && WellFormedSheet(sheet)
    ensures var (records, errors) := Tally(transforms, entry, sheet, n);
      var failed := FailedRows(transforms, entry, sheet, n);
      && |records| + |errors| == n
      && |errors| == |failed|
      && forall j :: 0 <= j < |failed| ==>
           errors[j] == RowError(failed[j], RowOutcome(transforms, entry, sheet.columns, sheet.rows[failed[j]]).error)
  {
    if n > 0 {
      TallyCounts(transforms, entry, sheet, n - 1);
      var (records, errors) := Tally(transforms, entry, sheet, n - 1);
      var failed := FailedRows(transforms, entry, sheet, n - 1);
      var outcome := RowOutcome(transforms, entry, sheet.columns, sheet.rows[n - 1]);
      if outcome.Failure? {
        assert Tally(transforms, entry, sheet, n) == (records, errors + [RowError(n - 1, outcome.error)]);
        assert FailedRows(transforms, entry, sheet, n) == failed + [n - 1];
      } else {
        assert Tally(transforms, entry, sheet, n) == (records + [outcome.value], errors);
        assert FailedRows(transforms, entry, sheet, n) == failed;
      }
    }
  }

  /** With a present header whose target is undeclared, no row is imported. */
  lemma {:induction false} UndeclaredTargetRejectsAll(transforms: Converter, entry: MappingEntry, sheet: Sheet, j: nat, n: nat)
    requires n <= |sheet.rows| && WellFormedSheet(sheet) && j < |entry.columnMapping|
    requires entry.columnMapping[j].0 in sheet.columns && entry.columnMapping[j].1 !in entry.tableModel.fields
    ensures Tally(transforms, entry, sheet, n).0 == []
    ensures |Tally(transforms, entry, sheet, n).1| == n
  {
    if n > 0 {
      UndeclaredTargetRejectsAll(transforms, entry, sheet, j, n - 1);
      RowRejected(transforms, entry, sheet.columns, sheet.rows[n - 1], j);
    }
  }

  /** The technical-analysis sheet of the catalogue maps "MOYENNE DECALER" to
      `displaced_average`, which `Technicals` does not declare: whenever that header is
      present, every row of the sheet is skipped. */
  lemma DisplacedAverageRejectsTechnicalsRows(transforms: Converter, sheet: Sheet)
    requires WellFormedSheet(sheet) && "MOYENNE DECALER" in sheet.columns
    ensures Tally(transforms, ExcelMappings.ExcelMappings[0], sheet, |sheet.rows|).0 == []
    ensures |Tally(transforms, ExcelMappings.ExcelMappings[0], sheet, |sheet.rows|).1| == |sheet.rows|
  {
    DisplacedAverageIsNotAField();
    DisplacedAverageNotDeclared();
    UndeclaredTargetRejectsAll(transforms, ExcelMappings.ExcelMappings[0], sheet, 39, |sheet.rows|);
  }

  // ---------------------------------------------------------------------------
  // One sheet: the session

  /** A successful sheet import commits the working tables with the target table holding
      exactly the sheet's records, and its statistics add up. */
  lemma SheetSuccess(env: Environment, transforms: Converter, entry: MappingEntry, sheet: Sheet, s: SessionState)
    requires WellFormedSheet(sheet)
    ensures var (r, s') := ImportSheetEffect(env, transforms, entry, sheet, s);
      var (records, errors) := Tally(transforms, entry, sheet, |sheet.rows|);
      r.Success? ==>
        && s'.committed == s.working[entry.tableModel.tableName := records]
        && s'.working == s'.committed && s'.active
        && r.value.sheetName == entry.sheetName
        && r.value.totalRows == |sheet.rows| == r.value.importedRows + r.value.skippedRows
        && r.value.importedRows == |records| && r.value.errors == errors && |errors| == r.value.skippedRows
  {
    TallyCounts(transforms, entry, sheet, |sheet.rows|);
  }

  /** Full refresh: what the table held before does not matter, neither to the result nor
      to the session afterwards. */
  lemma FullRefresh(env: Environment, transforms: Converter, entry: MappingEntry, sheet: Sheet, s: SessionState, contents: seq<Record>)
    requires WellFormedSheet(sheet)
    ensures var table := entry.tableModel.tableName;
      ImportSheetEffect(env, transforms, entry, sheet, s.(working := s.working[table := contents])).0
        == ImportSheetEffect(env, transforms, entry, sheet, s).0
    ensures var table := entry.tableModel.tableName;
      DeleteError(env, table, s).None? ==>
        ImportSheetEffect(env, transforms, entry, sheet, s.(working := s.working[table := contents])).1
          == ImportSheetEffect(env, transforms, entry, sheet, s).1
  {
    var table := entry.tableModel.tableName;
    var records := Tally(transforms, entry, sheet, |sheet.rows|).0;
    assert s.working[table := contents][table := records] == s.working[table := records];
  }

  /** Importing the same sheet again, from the session a successful import left, gives the
      same statistics and the same session. */
  lemma ImportSheetIdempotent(env: Environment, transforms: Converter, entry: MappingEntry, sheet: Sheet, s: SessionState)
    requires WellFormedSheet(sheet)
    requires ImportSheetEffect(env, transforms, entry, sheet, s).0.Success?
    ensures ImportSheetEffect(env, transforms, entry, sheet, ImportSheetEffect(env, transforms, entry, sheet, s).1)
      == ImportSheetEffect(env, transforms, entry, sheet, s)
  {
    var table := entry.tableModel.tableName;
    var records := Tally(transforms, entry, sheet, |sheet.rows|).0;
    var w := s.working[table := records];
    assert w[table := records] == w;
  }

  /** A failed commit rolls back everything since the last commit, the cleared table
      included, and leaves the session unusable. */
  lemma CommitFailureRollsBack(env: Environment, transforms: Converter, entry: MappingEntry, sheet: Sheet, s: SessionState)
    requires WellFormedSheet(sheet)
    requires s.active && env.acceptsRawSql
    ensures var (r, s') := ImportSheetEffect(env, transforms, entry, sheet, s);
      r.Failure? ==> s'.committed == s.committed && s'.working == s.committed && !s'.active && r.error == s'.failure
  {
  }

  // ---------------------------------------------------------------------------
  // All sheets

  lemma {:induction false} ImportAllLength(env: Environment, transforms: Converter, workbook: Workbook, entries: seq<MappingEntry>, s: SessionState)
    requires WellFormedWorkbook(workbook)
    ensures |ImportAllEffect(env, transforms, workbook, entries, s).0| == |entries|
  {
    if entries != [] {
      ImportAllLength(env, transforms, workbook, entries[..|entries| - 1], s);
      ImportAllLast(env, transforms, workbook, entries, s);
    }
  }

  /** The result of entry `i` is that domain's own outcome from the session the entries
      before it left. */
  lemma {:induction false} ImportAllAt(env: Environment, transforms: Converter, workbook: Workbook, entries: seq<MappingEntry>, s: SessionState, i: nat)
    requires WellFormedWorkbook(workbook) && i < |entries|
    ensures var results := ImportAllEffect(env, transforms, workbook, entries, s).0;
      |results| == |entries| &&
      results[i] == (entries[i].key, DomainEffect(env, transforms, workbook, entries[i], ImportAllEffect(env, transforms, workbook, entries[..i], s).1).0)
    decreases |entries|
  {
    var init := entries[..|entries| - 1];
    ImportAllLength(env, transforms, workbook, entries, s);
    ImportAllLast(env, transforms, workbook, entries, s);
    if i < |init| {
      ImportAllAt(env, transforms, workbook, init, s, i);
      ImportAllLength(env, transforms, workbook, init, s);
      assert init[..i] == entries[..i];
    }
  }

  /** One result per entry, keyed and ordered as the entries; each is that domain's own
      outcome from the session the previous domains left, whatever became of the others. */
  lemma ImportAllShape(env: Environment, transforms: Converter, workbook: Workbook, entries: seq<MappingEntry>, s: SessionState)
    requires WellFormedWorkbook(workbook)
    ensures var results := ImportAllEffect(env, transforms, workbook, entries, s).0;
      && |results| == |entries|
      && (forall i :: 0 <= i < |entries| ==> results[i].0 == Keys(entries)[i])
      && forall i :: 0 <= i < |entries| ==>
           results[i].1 == DomainEffect(env, transforms, workbook, entries[i], ImportAllEffect(env, transforms, workbook, entries[..i], s).1).0
  {
    ImportAllLength(env, transforms, workbook, entries, s);
    forall i | 0 <= i < |entries|
      ensures ImportAllEffect(env, transforms, workbook, entries, s).0[i]
        == (entries[i].key, DomainEffect(env, transforms, workbook, entries[i], ImportAllEffect(env, transforms, workbook, entries[..i], s).1).0)
    {
      ImportAllAt(env, transforms, workbook, entries, s, i);
    }
  }

  /** A sheet the workbook lacks is reported as missing, under its own key. */
  lemma MissingSheetReported(env: Environment, transforms: Converter, workbook: Workbook, entries: seq<MappingEntry>, s: SessionState, i: nat)
    requires WellFormedWorkbook(workbook) && i < |entries| && entries[i].sheetName !in workbook
    ensures var results := ImportAllEffect(env, transforms, workbook, entries, s).0;
      i < |results| && results[i] == (entries[i].key, Failure(SheetNotFound(entries[i].sheetName)))
  {
    ImportAllAt(env, transforms, workbook, entries, s, i);
  }

  /** The last domain's result follows the results of the ones before it. */
  lemma ImportAllLast(env: Environment, transforms: Converter, workbook: Workbook, entries: seq<MappingEntry>, s: SessionState)
    requires WellFormedWorkbook(workbook) && entries != []
    ensures var init := ImportAllEffect(env, transforms, workbook, entries[..|entries| - 1], s);
      var last := DomainEffect(env, transforms, workbook, entries[|entries| - 1], init.1);
      ImportAllEffect(env, transforms, workbook, entries, s) == (init.0 + [(entries[|entries| - 1].key, last.0)], last.1)
  {
  }

  /** A domain run on a session whose flush failed. */
  lemma InactiveDomain(env: Environment, transforms: Converter, workbook: Workbook, entry: MappingEntry, s: SessionState)
    requires WellFormedWorkbook(workbook) && env.acceptsRawSql && !s.active
    ensures DomainEffect(env, transforms, workbook, entry, s) == (RollbackOutcome(env, workbook, entry, s), s)
  {
  }

  /** What a domain reports when the driver refuses a raw SQL string. */
  function RawSqlOutcome(env: Environment, workbook: Workbook, entry: MappingEntry): Result<ImportStats, string> {
    Failure(if entry.sheetName in workbook then RawSqlError(env, DeleteStatement(entry.tableModel.tableName)) else SheetNotFound(entry.sheetName))
  }

  /** What a domain reports on a session whose flush failed. */
  function RollbackOutcome(env: Environment, workbook: Workbook, entry: MappingEntry, s: SessionState): Result<ImportStats, string> {
    Failure(if entry.sheetName in workbook then PendingRollbackError(env, s.failure) else SheetNotFound(entry.sheetName))
  }

  /** A domain run by a driver that refuses raw SQL. */
  lemma RawSqlDomain(env: Environment, transforms: Converter, workbook: Workbook, entry: MappingEntry, s: SessionState)
    requires WellFormedWorkbook(workbook) && !env.acceptsRawSql
    ensures DomainEffect(env, transforms, workbook, entry, s) == (RawSqlOutcome(env, workbook, entry), s)
  {
  }

  /** Once a flush has failed, every later domain fails too, with the session's
      pending-rollback error, and the session stays as it is. */
  lemma {:induction false} FailedTransactionStaysFailed(env: Environment, transforms: Converter, workbook: Workbook, entries: seq<MappingEntry>, s: SessionState)
    requires WellFormedWorkbook(workbook) && env.acceptsRawSql && !s.active
    ensures var (results, s') := ImportAllEffect(env, transforms, workbook, entries, s);
      && s' == s
      && |results| == |entries|
      && forall i :: 0 <= i < |entries| ==> results[i].1 == RollbackOutcome(env, workbook, entries[i], s)
  {
    if entries != [] {
      var n := |entries|;
      var init := entries[..n - 1];
      var last := entries[n - 1];
      FailedTransactionStaysFailed(env, transforms, workbook, init, s);
      var pre := ImportAllEffect(env, transforms, workbook, init, s);
      InactiveDomain(env, transforms, workbook, last, s);
      ImportAllLast(env, transforms, workbook, entries, s);
      var results := pre.0 + [(last.key, RollbackOutcome(env, workbook, last, s))];
      assert ImportAllEffect(env, transforms, workbook, entries, s) == (results, s);
      forall i | 0 <= i < n ensures results[i].1 == RollbackOutcome(env, workbook, entries[i], s) {
        if i < n - 1 {
          assert results[i] == pre.0[i] && entries[i] == init[i];
        }
      }
    }
  }

  /** A driver that refuses a raw SQL string fails every domain whose sheet exists, at the
      `DELETE`, and nothing in the session changes. */
  lemma {:induction false} RawSqlRefusedFailsAll(env: Environment, transforms: Converter, workbook: Workbook, entries: seq<MappingEntry>, s: SessionState)
    requires WellFormedWorkbook(workbook) && !env.acceptsRawSql
    ensures var (results, s') := ImportAllEffect(env, transforms, workbook, entries, s);
      && s' == s
      && |results| == |entries|
      && forall i :: 0 <= i < |entries| ==> results[i].1 == RawSqlOutcome(env, workbook, entries[i])
  {
    if entries != [] {
      var n := |entries|;
      var init := entries[..n - 1];
      var last := entries[n - 1];
      RawSqlRefusedFailsAll(env, transforms, workbook, init, s);
      var pre := ImportAllEffect(env, transforms, workbook, init, s);
      RawSqlDomain(env, transforms, workbook, last, s);
      ImportAllLast(env, transforms, workbook, entries, s);
      var results := pre.0 + [(last.key, RawSqlOutcome(env, workbook, last))];
      assert ImportAllEffect(env, transforms, workbook, entries, s) == (results, s);
      forall i | 0 <= i < n ensures results[i].1 == RawSqlOutcome(env, workbook, entries[i]) {
        if i < n - 1 {
          assert results[i] == pre.0[i] && entries[i] == init[i];
        }
      }
    }
  }
}
