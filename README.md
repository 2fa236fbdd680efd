# Commodities Compass — a Dafny model of the import pipeline and the dashboard rules

Commodities Compass loads a hand-maintained Excel workbook into PostgreSQL and serves a
trading dashboard from the resulting tables. This project models, in Dafny, the parts of
the repository that carry its data rules:

* the **import pipeline** (`backend/app/services/data_import.py`): the three cell
  converters of `DataTransforms`, `ExcelDataImporter.import_sheet` (clear the table, turn
  every row into a record or a `"Row {index}: {msg}"` error, commit once),
  `import_all_sheets` (one result per catalogue key, failures isolated per domain) and
  `validate_import`;
* the **catalogue** `EXCEL_MAPPINGS` and its lookups (`backend/app/core/excel_mappings.py`),
  with the table models it names reduced to their table names and declared attributes;
* the **date rules** (`backend/app/utils/date_utils.py`): business date, year start,
  `YYYY-MM-DD` parsing and validation, display formatting;
* the **dashboard service rules** (`backend/app/services/dashboard_service.py`): YTD
  performance, range grouping and gauge bounds, recommendation-text parsing, latest
  recommendations, chart ordering and the position of the day;
* the **dashboard transformers** (`backend/app/services/dashboard_transformers.py`): gauge
  construction and its four errors, position normalisation, the indicators grid and the
  news and weather defaults;
* the **range-row validators** of `TestRange` (`backend/app/models/test_range.py`) and the
  uniqueness of `(indicator, range_low, range_high)`;
* the **pure rules of the schema-analysis script** (`scripts/analyze_excel_data.py`): name
  suggestion, SQL type choice, key flags and constraints, relationship hints and the
  CREATE TABLE / CREATE INDEX text.

Modules follow the source files: `DataTransforms` and `DataImport` (with the lemmas in
`DataImportProperties`), `ExcelMappings` and `TableModels`, `DateUtils`, `DashboardService`,
`DashboardTransformers`, `TestRangeModel` and `SchemaAnalysis`. `Wrappers` (Option, Result),
`Text` (strip, case, split/join, digit texts) and `DecimalLiteral` (the literal grammar of
Python's `Decimal` constructor) are shared helpers.

Where the source works step by step the model is imperative: the database session and the
importer are classes (`DataImport.Session`, `DataImport.ExcelDataImporter`) whose methods
change the session's tables, and every source loop is a `while` loop proved against a
specification function (`Tally`, `ImportAllEffect`, `RangesFor`, `Recommendations`,
`Relationships`, `TablesOf`, ...). The properties are then proved about those functions.

Some consequences of the code as written that the model makes explicit:

* `parse_decimal` does no `%` or `,` handling and does not map `"nan"` to null: `Decimal("nan")`
  is a NaN value and `Decimal("1,5")` raises, so the converter yields `None`. Raw values pass
  through with no empty-string or `"nan"` normalisation, and no defaults are supplied for
  required fields.
* A Python `bool` is an `int`, so `parse_decimal_from_string(True)` reaches `Decimal("True")`
  outside its `try` and raises; the row is then skipped with that error (`BoolCells`).
* The TECHNICALS mapping targets `displaced_average` (`backend/app/core/excel_mappings.py:65`),
  which the `Technicals` model does not declare. When a TECHNICALS sheet has the header
  `MOYENNE DECALER`, every row is rejected (`DisplacedAverageRejectsTechnicalsRows`).
* `import_sheet` passes a plain string to `session.execute`. The models use SQLAlchemy 2's
  `DeclarativeBase`, and that version refuses textual SQL that is not wrapped in `text()`.
  The model keeps both behaviours behind the flag `Environment.acceptsRawSql`. When the flag
  is false, every domain reports that error and nothing is written (`RawSqlRefusedFailsAll`).
* A failed flush leaves the shared session unusable. Every later domain then reports the
  pending-rollback error (`FailedTransactionStaysFailed`).

## Model

| member | source | states |
|---|---|---|
| DateUtils.GetBusinessDate | backend/app/utils/date_utils.py:51-70 | the result is a valid weekday, at most two days before the input; a weekday is kept, and a weekend day maps to the Friday before it |
| DateUtils.BusinessDateIdempotent | backend/app/utils/date_utils.py:51-70 | applying the business-date rule twice is the same as applying it once |
| DateUtils.BusinessDateIsLatestWeekday | backend/app/utils/date_utils.py:51-70 | every weekday on or before the input is on or before its business date, so the result is the latest weekday not after the input |
| DateUtils.WeekendBack | backend/app/utils/date_utils.py:64-68 | going back one day from a Saturday, or two days from a Sunday, reaches a Friday |
| DateUtils.Ordinal | backend/app/utils/date_utils.py:65-68 | a valid date's day number (`date.toordinal`) is positive |
| DateUtils.Weekday | backend/app/utils/date_utils.py:65-68 | `date.weekday()` lies in 0..6 |
| DateUtils.PreviousDay | backend/app/utils/date_utils.py:65-68 | subtracting one day gives a valid date whose ordinal is one less |
| DateUtils.MinusDays | backend/app/utils/date_utils.py:65-68 | subtracting `n` days gives a valid date whose ordinal is `n` less |
| DateUtils.OrdinalInjective | backend/app/utils/date_utils.py:65-68 | two valid dates with the same ordinal are equal, so date arithmetic through ordinals is exact |
| DateUtils.GetYearStartDate | backend/app/utils/date_utils.py:73-86 | the result is 1 January of the reference date's year (today's when none is given), and is not after the reference date |
| DateUtils.YearStartIsFirst | backend/app/utils/date_utils.py:73-86 | no date of the reference year comes before the year start |
| DateUtils.ErrorMessage | backend/app/utils/date_utils.py:30-31 | every `ValueError` text begins with "Invalid date format. Use YYYY-MM-DD format", followed by the text of `strptime`'s error; a mismatch reads "time data %r does not match format '%Y-%m-%d'" with the input in `repr` form |
| DateUtils.MismatchMessageInjective | backend/app/utils/date_utils.py:28-31 | a mismatch message names the whole input: two inputs with the same message are the same input |
| DateUtils.PlainMismatchText | backend/app/utils/date_utils.py:28-31 | for an input of plain characters without a single quote, the mismatch text quotes the input as it is between single quotes |
| DateUtils.SlashDateRefused | backend/app/utils/date_utils.py:28-31 | "2024/01/15" is refused as a mismatch that carries "2024/01/15" itself |
| Text.PyRepr | backend/app/utils/date_utils.py:28-31 | `repr` of the input as `strptime` quotes it: single quotes unless the text holds one and no double quote; the quoted body unescapes back to the input |
| Text.ReprInjective | backend/app/utils/date_utils.py:28-31 | distinct texts have distinct `repr`s |
| Text.ReprOfPlainText | backend/app/utils/date_utils.py:28-31 | a text without quotes, backslashes or control codes is shown as itself between single quotes |
| DateUtils.MatchFields | backend/app/utils/date_utils.py:28-29 | a match of `%Y-%m-%d` splits the whole text into four digits, a month field, and a day field matching all that is left |
| DateUtils.DateFromFields | backend/app/utils/date_utils.py:28-31 | a date built from the matched fields is always a valid calendar date |
| DateUtils.ParseDateString | backend/app/utils/date_utils.py:15-31 | whatever it accepts is a valid calendar date |
| DateUtils.ParseIsoDateText | backend/app/utils/date_utils.py:15-31 | the ISO text of any valid date from year 1000 on parses back to that date |
| DateUtils.IsoDateText | backend/app/services/dashboard_service.py:253 | `strftime("%Y-%m-%d")` of a valid date; `ParseIsoDateText` shows that it parses back to the date it came from |
| DateUtils.ValidateDateFormat | backend/app/utils/date_utils.py:34-48 | true exactly when `parse_date_string` succeeds; an accepted text starts with four digits and a dash |
| DateUtils.DisplayExample | backend/app/utils/date_utils.py:89-99 | 15 January 2024 is displayed as "January 15, 2024" |
| DateUtils.DisplayInjective | backend/app/utils/date_utils.py:89-99 | two valid dates with the same display text are equal |
| DateUtils.FormatDateForDisplay | backend/app/utils/date_utils.py:89-99 | `strftime("%B %d, %Y")`: the English month name, the two-digit day and the year; `DisplayExample` gives its text for one date and `DisplayInjective` shows that distinct dates get distinct texts |
| TestRangeModel.ValidateArea | backend/app/models/test_range.py:62-68 | raises exactly for a non-empty value whose upper-case form is not RED, ORANGE or GREEN; returns the upper-case form otherwise; `None` and "" come back unchanged |
| TestRangeModel.ValidateAreaIdempotent | backend/app/models/test_range.py:65-68 | validating an accepted area again gives the same result |
| TestRangeModel.AreaCaseInsensitive | backend/app/models/test_range.py:62-68 | any spelling whose upper-case form is an allowed zone is accepted as that zone |
| TestRangeModel.ValidateRange | backend/app/models/test_range.py:70-75 | raises "`key` cannot be None" exactly for `None`, and returns any other value unchanged |
| TestRangeModel.InsertRange | backend/app/models/test_range.py:55-60 | an insert is refused exactly when a stored row has the same (indicator, low, high); otherwise the row is appended; `InsertKeepsUnique` states the invariant this keeps |
| TestRangeModel.InsertKeepsUnique | backend/app/models/test_range.py:55-60 | an accepted insert keeps the (indicator, low, high) keys pairwise distinct |
| ExcelMappings.FindSheet | backend/app/core/excel_mappings.py:197-202 | the position of the first entry with the given sheet name, or none exactly when no entry has it |
| ExcelMappings.GetSheetMapping | backend/app/core/excel_mappings.py:197-202 | finds an entry exactly when some entry has that sheet name; the entry found is in the catalogue and has that name |
| ExcelMappings.LookupBySheetNameFindsEntry | backend/app/core/excel_mappings.py:197-202 | looking up any entry's key finds that entry itself |
| ExcelMappings.GetModelForSheet | backend/app/core/excel_mappings.py:205-208 | none exactly for an unknown sheet; otherwise the entry's table model |
| ExcelMappings.GetColumnMappingForSheet | backend/app/core/excel_mappings.py:211-214 | the empty mapping for an unknown sheet; otherwise the entry's column mapping |
| ExcelMappings.GetAllSheetNames | backend/app/core/excel_mappings.py:217-219 | one sheet name per entry, in declaration order |
| ExcelMappings.KeysAreSheetNames | backend/app/core/excel_mappings.py:20-194 | every key equals its entry's sheet name, and the sheet names are pairwise distinct |
| ExcelMappings.TransformKeysAreTargets | backend/app/core/excel_mappings.py:73-192 | every field with a transform is the target of some header in the same entry |
| ExcelMappings.TechnicalsAliases | backend/app/core/excel_mappings.py:46-55 | "RSI 14D"/"RSI(14d)", "Gain"/"Gain(14d)" and "Perte"/"Perte(14d)" map to one field each |
| ExcelMappings.TargetsAreModelFields | backend/app/core/excel_mappings.py:20-194 | every mapped field is declared by its entry's table model, with `displaced_average` the only exception |
| ExcelMappings.DisplacedAverageIsNotAField | backend/app/core/excel_mappings.py:65-84 | TECHNICALS maps "MOYENNE DECALER" to `displaced_average`, and declares a string-to-decimal transform for it |
| ExcelMappings.DisplacedAverageNotDeclared | backend/app/models/trading.py:23-242 | the `Technicals` model declares no `displaced_average` attribute |
| TableModels.TableNamesDistinct | backend/app/models/trading.py:33-575 | the seven models have pairwise distinct table names and class names |
| DecimalLiteral.ParseIntText | backend/app/services/data_import.py:44 | `Decimal(str(i))` is exactly the integer `i`, with exponent 0 |
| DecimalLiteral.ParsedCharsAreLiteral | backend/app/services/data_import.py:43-46 | every character of an accepted stripped literal is a digit, sign, point, or letter of `e`, `inf`, `infinity`, `nan`, `snan` |
| DecimalLiteral.NonLiteralCharRejected | backend/app/services/data_import.py:43-46 | a text containing any other non-space character (such as `%`, `,`, `/`) is rejected |
| DataTransforms.ParseDatetime | backend/app/services/data_import.py:23-35 | a missing cell gives `None`; a datetime passes unchanged; anything else gives what `pd.to_datetime` gives, and `None` where it raises |
| DataTransforms.ParseDatetimeIdempotent | backend/app/services/data_import.py:29-30 | converting a converted datetime again gives the same value |
| DataTransforms.ParseDecimal | backend/app/services/data_import.py:37-46 | a missing cell gives `None`; otherwise `None` exactly when `Decimal(str(value))` would raise |
| DataTransforms.IntegerCellsConvertExactly | backend/app/services/data_import.py:37-61 | an integer cell becomes exactly that integer under both decimal converters |
| DataTransforms.BoolCells | backend/app/services/data_import.py:37-61 | a bool gives `None` from `parse_decimal`; in `parse_decimal_from_string` it raises `ConversionSyntax` |
| DataTransforms.DatetimeCellsAreNotDecimals | backend/app/services/data_import.py:37-46 | a datetime cell does not parse as a decimal and gives `None` |
| DataTransforms.PercentAndCommaRejected | backend/app/services/data_import.py:37-46 | a text containing `%` or `,` gives `None`: no percentage or thousands-separator handling |
| DataTransforms.CleanFormula | backend/app/services/data_import.py:66 | the cleaned text contains no `=` |
| DataTransforms.CleanFormulaParse | backend/app/services/data_import.py:64-70 | parsing the cleaned text is parsing the text with every `=` removed |
| DataTransforms.FormulaMarkerRemoved | backend/app/services/data_import.py:64-70 | `"=" + digits` parses to the number the digits spell |
| DataTransforms.FormulaWithOperatorYieldsNone | backend/app/services/data_import.py:64-73 | a string holding an operator or cell reference character (as in `"=A1/B1"`) gives `None` |
| DataTransforms.ParseDecimalFromString | backend/app/services/data_import.py:48-75 | numbers and bools go through `Decimal(str(v))`, which raises only for a literal that does not parse; strings are cleaned of `=` then parsed, never raising; a missing cell or any other type gives `None` |
| DataTransforms.ApplyTransform | backend/app/services/data_import.py:143-147 | each transform name runs its converter, and only the string-to-decimal converter can raise |
| DataImport.StandardConverters | backend/app/services/data_import.py:83 | the importer's converters agree with `ApplyTransform` on every cell a sheet can hold |
| DataImport.Put | backend/app/services/data_import.py:151 | after `model_data[k] = v`, the key `k` holds `v` and every other key is unchanged |
| DataImport.PutKeys | backend/app/services/data_import.py:151 | rewriting a key keeps the key order; a new key goes last |
| DataImport.ConvertCell | backend/app/services/data_import.py:140-151 | a field with a transform gets the converter's result; any other field gets the raw cell unchanged |
| DataImport.ModelDataOf | backend/app/services/data_import.py:136-151 | `model_data` after the first mapping pairs, or the first converter exception; its meaning is stated by `LastSource`, `LastMappingWins`, `RawPassthrough` and `ModelDataFailureSticks` |
| DataImport.ModelDataFailureSticks | backend/app/services/data_import.py:134-160 | once a converter raises while `model_data` is built, the row's outcome is that error whatever mappings follow |
| DataImport.Construct | backend/app/services/data_import.py:154 | construction succeeds exactly when every keyword is a declared attribute, and then stores exactly the keys and values of `model_data`; otherwise it raises for the first undeclared keyword |
| DataImport.RowOutcome | backend/app/services/data_import.py:134-160 | one row becomes its record or the message of the exception conversion or construction raised; `RowRejected` and `ExcelDataImporter.ConvertRow` state what it gives |
| DataImport.Tally | backend/app/services/data_import.py:133-160 | the records added and the row errors after the first rows; `TallyCounts` states the counts and the error list, `TallyRecords` the records |
| DataImport.DeleteError | backend/app/services/data_import.py:130 | the exception the raw `DELETE` raises: a driver refusing raw SQL first, then a session whose flush failed; `RawSqlDomain`, `InactiveDomain` and `Session.ExecuteDelete` state its effect |
| DataImport.CommitEffect | backend/app/services/data_import.py:162-163 | a commit publishes the working tables, or rolls back and leaves the session unusable; `CommitFailureRollsBack` and `Session.Commit` state it |
| DataImport.ImportSheetEffect | backend/app/services/data_import.py:107-165 | the result and session after `import_sheet`: delete, row loop, one commit; its meaning is stated by `SheetSuccess`, `FullRefresh`, `ImportSheetIdempotent` and `CommitFailureRollsBack` |
| DataImport.DomainEffect | backend/app/services/data_import.py:92-103 | one domain of `import_all_sheets`; `MissingSheetReported` and `InactiveDomain` state its outcomes |
| DataImport.ImportAllEffect | backend/app/services/data_import.py:85-105 | the results of all domains in order and the final session; `ImportAllLength`, `ImportAllAt`, `ImportAllShape` and `FailedTransactionStaysFailed` state them |
| DataImport.ValidationOf | backend/app/services/data_import.py:167-183 | fails exactly when the session is unusable and there is an entry to count; otherwise gives, per key in order, the table name and its number of rows; `ExcelDataImporter.ValidateEntries` and `ValidateImport` tie the counting loop to it |
| DataImport.Session.ExecuteDelete | backend/app/services/data_import.py:130 | refuses raw SQL, or a session whose flush failed, and changes nothing then; otherwise empties the table in the open transaction only |
| DataImport.Session.Add | backend/app/services/data_import.py:155 | appends the record to its table in the open transaction and changes nothing else |
| DataImport.Session.Commit | backend/app/services/data_import.py:163 | a successful flush makes the working tables the committed ones; a failed one rolls back to the committed tables and leaves the session unusable |
| DataImport.Session.CountRows | backend/app/services/data_import.py:175-176 | the table's number of rows, or the pending-rollback error on an unusable session |
| DataImport.ExcelDataImporter.constructor | backend/app/services/data_import.py:81-83 | the importer's converters agree with `ApplyTransform` on every well-formed cell |
| DataImport.ExcelDataImporter.BuildModelData | backend/app/services/data_import.py:136-151 | the inner loop builds the `model_data` of the specification function, in mapping order |
| DataImport.ExcelDataImporter.ConvertRow | backend/app/services/data_import.py:134-154 | one row's outcome: the record, or the exception its conversion or construction raises |
| DataImport.ExcelDataImporter.ImportRows | backend/app/services/data_import.py:133-160 | the counters and the error list equal the tally of all rows, and the table gains exactly the tallied records, in row order |
| DataImport.ExcelDataImporter.ImportSheet | backend/app/services/data_import.py:107-165 | result and new session state are those of `ImportSheetEffect`: delete, row loop, one commit |
| DataImport.ExcelDataImporter.ImportDomain | backend/app/services/data_import.py:92-103 | one domain: a missing sheet is its own error; an exception from `import_sheet` is caught and recorded |
| DataImport.ExcelDataImporter.ImportAllSheets | backend/app/services/data_import.py:85-105 | result and new session are those of `ImportAllEffect` over the catalogue in order |
| DataImport.ExcelDataImporter.ImportEntries | backend/app/services/data_import.py:92-103 | the domain loop over any list of entries matches `ImportAllEffect` |
| DataImport.ExcelDataImporter.ValidateImport | backend/app/services/data_import.py:167-183 | the result is `ValidationOf` the catalogue on the current session |
| DataImport.ExcelDataImporter.ValidateEntries | backend/app/services/data_import.py:171-181 | the counting loop over any list of entries matches `ValidationOf` |
| DataImportProperties.LastSource | backend/app/services/data_import.py:138-151 | the last mapping position targeting a field whose header is present, or none exactly when there is no such position |
| DataImportProperties.LastMappingWins | backend/app/services/data_import.py:138-151 | a field gets a value only from a present header; when several present headers target it, the last one in mapping order wins |
| DataImportProperties.RawPassthrough | backend/app/services/data_import.py:148-151 | a field without a transform holds the raw cell of its winning header, unchanged |
| DataImportProperties.RowRejected | backend/app/services/data_import.py:153-160 | a present header whose field the model does not declare makes every row fail |
| DataImportProperties.FailedRows | backend/app/services/data_import.py:158-160 | the indices of the rejected rows, in increasing order, and exactly those |
| DataImportProperties.TallyCounts | backend/app/services/data_import.py:119-160 | imported + skipped = number of rows; there is one error per rejected row, in row order, of the form "Row {index}: {message}" |
| DataImportProperties.Outcomes | backend/app/services/data_import.py:133-160 | the outcome of each of the first rows, one per row, in row order |
| DataImportProperties.Successes | backend/app/services/data_import.py:155 | the values of the successful outcomes, in order; never more of them than outcomes |
| DataImportProperties.TallyRecords | backend/app/services/data_import.py:133-160 | the records `session.add` receives are the records of the accepted rows, one per accepted row, in row order |
| DataImportProperties.UndeclaredTargetRejectsAll | backend/app/services/data_import.py:133-160 | with such a header, no record is added and every row is an error |
| DataImportProperties.DisplacedAverageRejectsTechnicalsRows | backend/app/core/excel_mappings.py:65 | a TECHNICALS sheet with the header "MOYENNE DECALER" imports no row |
| DataImportProperties.SheetSuccess | backend/app/services/data_import.py:107-165 | a successful import commits the table as exactly the tallied records; its statistics add up and list the row errors |
| DataImportProperties.FullRefresh | backend/app/services/data_import.py:128-130 | the table's previous contents do not affect the result, nor the final state once the delete runs |
| DataImportProperties.ImportSheetIdempotent | backend/app/services/data_import.py:128-165 | importing the same sheet again after a success changes nothing and reports the same statistics |
| DataImportProperties.CommitFailureRollsBack | backend/app/services/data_import.py:162-163 | when the commit fails, the committed tables are unchanged and the session is unusable, with that error as its cause |
| DataImportProperties.ImportAllLength | backend/app/services/data_import.py:85-105 | exactly one result per catalogue entry |
| DataImportProperties.ImportAllAt | backend/app/services/data_import.py:92-103 | result `i` is entry `i`'s key with its domain outcome, on the session the earlier domains left |
| DataImportProperties.ImportAllShape | backend/app/services/data_import.py:92-105 | results follow the catalogue keys in order, each the outcome of its own domain |
| DataImportProperties.MissingSheetReported | backend/app/services/data_import.py:95-97 | an entry whose sheet is not in the workbook gets "Sheet X not found" |
| DataImportProperties.InactiveDomain | backend/app/services/data_import.py:99-103 | on an unusable session a domain reports the pending-rollback error (or its missing sheet) and changes nothing |
| DataImportProperties.FailedTransactionStaysFailed | backend/app/services/data_import.py:99-103 | once the session is unusable, every later domain fails that way and the session stays as it is |
| DataImportProperties.RawSqlDomain | backend/app/services/data_import.py:130 | a driver that refuses raw SQL fails the domain at the delete, and the session is unchanged |
| DataImportProperties.RawSqlRefusedFailsAll | backend/app/services/data_import.py:130 | with such a driver, every domain fails and nothing is written |
| DashboardService.YtdConclusions | backend/app/services/dashboard_service.py:46-59 | a value is among the conclusions exactly when a row dated from the year start to the reference date carries it; none exactly when no such row has one |
| DashboardService.YtdConclusionsAppend | backend/app/services/dashboard_service.py:46-59 | the conclusions of two runs of rows are those of the first run followed by those of the second, so the rows' order is kept |
| DashboardService.YtdPerformance | backend/app/services/dashboard_service.py:61-70 | 0.0 with no conclusions; otherwise 100 times their mean |
| DashboardService.YtdWithinBounds | backend/app/services/dashboard_service.py:61-70 | the performance lies between 100 times the least and 100 times the greatest conclusion |
| DashboardService.RangesFor | backend/app/services/dashboard_service.py:135-139 | a group holds only rows of its indicator, and is empty exactly when no row has that indicator |
| DashboardService.RangesForComplete | backend/app/services/dashboard_service.py:135-139 | every range of an indicator is in that indicator's group |
| DashboardService.RangesForAppend | backend/app/services/dashboard_service.py:135-139 | grouping two runs of ranges gives the group of the first run followed by that of the second, so each group keeps the input order |
| DashboardService.GroupRanges | backend/app/services/dashboard_service.py:135-139 | the dict has a key exactly for each indicator that has ranges, and its group is `RangesFor` of that indicator: all its ranges, in input order |
| DashboardService.Bounds | backend/app/services/dashboard_service.py:159-161 | the low and then the high bound of every range, in order |
| DashboardService.CollectBounds | backend/app/services/dashboard_service.py:159-161 | the `extend` loop collects exactly those bounds |
| DashboardService.SeqMin | backend/app/services/dashboard_service.py:165-166 | a member of the list, at most every element |
| DashboardService.SeqMax | backend/app/services/dashboard_service.py:165-166 | a member of the list, at least every element |
| DashboardService.RangeViews | backend/app/services/dashboard_service.py:168-175 | one low/high/area view per range, in order; `GaugeOnSuccess` and `IndicatorPresence` rely on it for the gauge ranges |
| DashboardService.IndicatorConfigs | backend/app/services/dashboard_service.py:145-152 | the six gauge configurations |
| DashboardService.GetIndicatorsWithRanges | backend/app/services/dashboard_service.py:126-178 | the result is `IndicatorsWithRanges`: no indicator row gives `{}` |
| DashboardService.FillIndicators | backend/app/services/dashboard_service.py:154-176 | the configuration loop yields `IndicatorsFrom` the configurations, given the grouped ranges |
| DashboardService.IndicatorsFromKeys | backend/app/services/dashboard_service.py:126-176 | every key of the result comes from a configuration with a value and ranges |
| DashboardService.IndicatorPresence | backend/app/services/dashboard_service.py:126-176 | no row gives `{}`; a configuration appears exactly when its value is present and its range name has ranges, and then as the gauge over that group |
| DashboardService.GaugeSpansRanges | backend/app/services/dashboard_service.py:159-166 | the gauge's min and max are bounds of the group, and every bound lies between them |
| DashboardService.GaugeOf | backend/app/services/dashboard_service.py:159-176 | the gauge entry of a value and its non-empty group; `GaugeSpansRanges` states its bounds |
| DashboardService.IndicatorsFrom | backend/app/services/dashboard_service.py:154-176 | the dict after the first configurations; `IndicatorsFromKeys` and `IndicatorPresence` state which keys it holds |
| DashboardService.IndicatorsWithRanges | backend/app/services/dashboard_service.py:126-178 | `get_indicators_with_ranges` on the indicator row found, if any; `IndicatorPresence` states when each configuration appears |
| DashboardService.ParseRecommendationsText | backend/app/services/dashboard_service.py:181-206 | empty text gives `[]`; otherwise the non-empty cleaned lines of the text, in order |
| DashboardService.CleanRecommendationShape | backend/app/services/dashboard_service.py:199-202 | a cleaned line is its stripped line with the leading bullet, exactly when there is one, and the whitespace after it dropped; it has no outer whitespace |
| DashboardService.DropBulletShape | backend/app/services/dashboard_service.py:199-202 | on a stripped text, `^[-•*]\s*` removes a prefix, which is non-empty exactly when the text starts with a bullet and is that bullet and whitespace; no outer whitespace is left |
| DashboardService.CleanRecommendation | backend/app/services/dashboard_service.py:199-202 | a line stripped and without its leading bullet; `CleanRecommendationShape` states its shape |
| DashboardService.DropBullet | backend/app/services/dashboard_service.py:202 | `re.sub(r"^[-•*]\s*", "", t)`; `DropBulletShape` states its shape |
| DashboardService.Recommendations | backend/app/services/dashboard_service.py:195-206 | the non-empty cleaned lines; `RecommendationsItems`, `RecommendationsComplete` and `RecommendationsAppend` state which items appear and in what order |
| DashboardService.RecommendationsItems | backend/app/services/dashboard_service.py:198-204 | there are no more items than lines, none empty, each the cleaned form of some line |
| DashboardService.RecommendationsComplete | backend/app/services/dashboard_service.py:198-204 | every line whose cleaned form is not empty contributes that form to the items |
| DashboardService.RecommendationsAppend | backend/app/services/dashboard_service.py:195-206 | the items of two runs of lines are the items of each, in order |
| DashboardService.GetLatestRecommendations | backend/app/services/dashboard_service.py:222-227 | no row or an empty score gives nothing; otherwise the parsed score text, the raw score and the row's timestamp |
| DashboardService.ChartLength | backend/app/services/dashboard_service.py:241 | `LIMIT days` keeps `days` rows, or all of them when there are fewer |
| DashboardService.Reverse | backend/app/services/dashboard_service.py:247 | the same elements in the opposite order |
| DashboardService.ChartRows | backend/app/services/dashboard_service.py:241-247 | the first `days` rows of the query, reversed; `ChartAscending` states that they are ascending and the most recent |
| DashboardService.ChartPointOf | backend/app/services/dashboard_service.py:251-261 | one chart point: the ISO date of the row and its seven values; `GetChartData` builds one per row of `ChartRows` |
| DashboardService.GetChartData | backend/app/services/dashboard_service.py:241-264 | one point per kept row, in ascending order |
| DashboardService.ChartAscending | backend/app/services/dashboard_service.py:241-247 | for rows given newest first, the chart is strictly ascending in time and holds the most recent rows |
| DashboardService.PositionFromIndicator | backend/app/services/dashboard_service.py:336-340 | `None` exactly without an indicator row; a non-empty conclusion is returned as is; a missing or empty one gives "MONITOR" |
| DashboardTransformers.CreateIndicator | backend/app/services/dashboard_transformers.py:58-108 | the four `ValueError`s in the source's order (unknown name, missing attribute, no value, no ranges); success exactly when none applies |
| DashboardTransformers.CreateIndicatorForGauge | backend/app/services/dashboard_transformers.py:29-108 | the method with its `extend` loop computes `CreateIndicator` |
| DashboardTransformers.GaugeOnSuccess | backend/app/services/dashboard_transformers.py:76-108 | on success: the attribute's value, the fixed display label, the ranges in length and order, and min and max attained with every bound between them |
| DashboardTransformers.TechnicalsLacksGaugeOnlyAttributes | backend/app/models/technicals.py:29-239 | the `Technicals` attributes contain none of `macroeco`, `percent_k`, `vol_oi` |
| DashboardTransformers.GaugeAttributesMissingFromTechnicals | backend/app/models/technicals.py:29-239 | on a `Technicals` object, those three gauges always fail with "missing attribute" |
| DashboardTransformers.TransformToPositionStatus | backend/app/services/dashboard_transformers.py:127-135 | the position is always OPEN, HEDGE or MONITOR: a valid one is kept, anything else becomes MONITOR; date and performance are copied |
| DashboardTransformers.PositionIdempotent | backend/app/services/dashboard_transformers.py:128-129 | normalising a response's position again changes nothing |
| DashboardTransformers.ServicePositionInResponse | backend/app/services/dashboard_transformers.py:128-129 | with no indicator row the response says MONITOR; otherwise the service's position is kept exactly when it is valid |
| DashboardTransformers.TransformToIndicatorsGrid | backend/app/services/dashboard_transformers.py:152-180 | exactly the input's indicator keys, each copied, dated at midnight of the response date |
| DashboardTransformers.OrDefault | backend/app/services/dashboard_transformers.py:252 | a non-empty value is kept; `None` or "" gives the default |
| DashboardTransformers.TransformMarketResearchToNews | backend/app/services/dashboard_transformers.py:240-255 | the display date, and the title, content and author: each the row's text or its fixed default, never empty |
| DashboardTransformers.TransformWeatherDataToResponse | backend/app/services/dashboard_transformers.py:258-272 | the display date, and the description and impact: each the row's text or its fixed default, never empty |
| DashboardTransformers.NewsDefaultsExactly | backend/app/services/dashboard_transformers.py:252-254 | a default appears exactly when the field is empty (unless the row holds the default text itself) |
| DashboardTransformers.WeatherDefaultsExactly | backend/app/services/dashboard_transformers.py:270-271 | likewise for the weather description and impact |
| SchemaAnalysis.ReplaceSpecial | scripts/analyze_excel_data.py:146 | same length; each character outside `[a-zA-Z0-9_]` becomes `_`, and the others stay; `SuggestNameIsClean` uses this for the characters of a suggested name |
| SchemaAnalysis.CollapseUnderscores | scripts/analyze_excel_data.py:148 | no `__` remains; it keeps the first and last characters and the set of characters; a text without `__` is unchanged |
| SchemaAnalysis.CollapseKeepsOtherChars | scripts/analyze_excel_data.py:148 | every character other than `_` is kept, in order |
| SchemaAnalysis.CollapseDoubleUnderscore | scripts/analyze_excel_data.py:148 | a `__` anywhere collapses as a single `_` does; with the unchanged case this makes every run of `_` one `_` |
| SchemaAnalysis.SuggestName | scripts/analyze_excel_data.py:143-161 | `suggest_table_name` and `suggest_column_name`; `SuggestNameIsClean`, `CleanNameIsFixed` and `SuggestNameIdempotent` state its meaning |
| SchemaAnalysis.SuggestNameIsClean | scripts/analyze_excel_data.py:143-161 | a suggested name is over `[a-z0-9_]`, has no `__` and no `_` at either end |
| SchemaAnalysis.CleanNameIsFixed | scripts/analyze_excel_data.py:143-161 | such a clean name is its own suggestion |
| SchemaAnalysis.SuggestNameIdempotent | scripts/analyze_excel_data.py:143-161 | suggesting twice is suggesting once; a name is its own suggestion exactly when it is clean |
| SchemaAnalysis.SuggestSqlType | scripts/analyze_excel_data.py:83-105 | INTEGER, DECIMAL(15,6), TIMESTAMP and BOOLEAN exactly for their dtypes; otherwise VARCHAR(100) up to 50 characters, VARCHAR(2L) up to 255, TEXT beyond |
| SchemaAnalysis.VarcharFits | scripts/analyze_excel_data.py:99-103 | a VARCHAR is at least twice the longest text, between 100 and 510, and even |
| SchemaAnalysis.ConstraintList | scripts/analyze_excel_data.py:83-113 | PRIMARY KEY exactly when flagged, and first; NOT NULL exactly when there are no nulls; nothing else |
| SchemaAnalysis.AnalyzeColumn | scripts/analyze_excel_data.py:67-115 | the suggested name and type; PRIMARY KEY exactly for an integer column with unique values and "id" in its name; a foreign-key flag exactly for a text column whose name contains "id", "key" or "ref"; NOT NULL exactly with no nulls |
| SchemaAnalysis.Take | scripts/analyze_excel_data.py:137 | a prefix of at most `n` elements, the whole list when it is short enough |
| SchemaAnalysis.ColumnRelationships | scripts/analyze_excel_data.py:121-139 | a foreign-key hint exactly when the name contains `_id`, `id_`, `ref_` or `_ref`; a lookup hint exactly when 1 < nunique < 20, with the first ten unique values at most; the foreign-key hint comes first |
| SchemaAnalysis.DetectRelationships | scripts/analyze_excel_data.py:117-141 | the loop yields each column's hints in column order |
| SchemaAnalysis.Relationships | scripts/analyze_excel_data.py:117-141 | the hints of the first columns; `RelationshipsAppend` and `RelationshipsNameColumns` state their order and columns |
| SchemaAnalysis.RelationshipsAppend | scripts/analyze_excel_data.py:117-141 | the hints of two runs of columns are the hints of each, in order |
| SchemaAnalysis.RelationshipsNameColumns | scripts/analyze_excel_data.py:117-141 | every hint names a column of the frame |
| SchemaAnalysis.ForeignKeyHintFlagsColumn | scripts/analyze_excel_data.py:108 | a text column with a foreign-key hint is also flagged as a potential foreign key |
| SchemaAnalysis.IndexStatements | scripts/analyze_excel_data.py:234-240 | one CREATE INDEX per flagged column, and only for flagged columns |
| SchemaAnalysis.IndexStatement | scripts/analyze_excel_data.py:237-240 | one `CREATE INDEX idx_<table>_<column> ON <table>(<column>);` |
| SchemaAnalysis.CreateTableLines | scripts/analyze_excel_data.py:211-226 | line by line, a CREATE TABLE is its header, one line per column (a comma after all but the last) and ");" |
| SchemaAnalysis.CreateTableStatement | scripts/analyze_excel_data.py:211-226 | the CREATE TABLE text of a sheet; `CreateTableLines` states it line by line |
| SchemaAnalysis.ColumnDefinition | scripts/analyze_excel_data.py:215-221 | one column line; `DefinitionConstraintOrder` and `DefinitionIsOneLine` state its shape |
| SchemaAnalysis.ColumnDefinitions | scripts/analyze_excel_data.py:214-224 | the `columns` list: one definition per column, in column order; `CreateTableLines` and `TableStatements` state the text built from it |
| SchemaAnalysis.DefinitionConstraintOrder | scripts/analyze_excel_data.py:215-221 | " NOT NULL" comes before " PRIMARY KEY" after the column's name and type |
| SchemaAnalysis.DefinitionIsOneLine | scripts/analyze_excel_data.py:215-221 | a column definition holds no line break |
| SchemaAnalysis.SuggestedNameIsOneLine | scripts/analyze_excel_data.py:208-215 | a suggested name holds no line break |
| SchemaAnalysis.TablesOf | scripts/analyze_excel_data.py:204-232 | every analysed sheet's table name is a key, and every key comes from an analysed sheet |
| SchemaAnalysis.TablesOfLast | scripts/analyze_excel_data.py:204-232 | the table stored under a name is built from the last analysed sheet with that name |
| SchemaAnalysis.TableOf | scripts/analyze_excel_data.py:228-232 | the table entry of a sheet: its statement, source sheet and row count; `TablesOfLast` states which sheet a name keeps |
| SchemaAnalysis.IndexesOf | scripts/analyze_excel_data.py:234-240 | the indexes of the first sheets; `IndexesOfAppend` and `ErrorSheetSkipped` state their order and the skipped sheets |
| SchemaAnalysis.IndexesOfAppend | scripts/analyze_excel_data.py:234-240 | the indexes of two runs of sheets are those of each, in order |
| SchemaAnalysis.ErrorSheetSkipped | scripts/analyze_excel_data.py:204-206 | a sheet with an error adds neither a table nor an index |
| SchemaAnalysis.GenerateSchemaSuggestions | scripts/analyze_excel_data.py:195-252 | the tables and indexes of the analysed sheets, no relationships, and the six general recommendations |
| SchemaAnalysis.TableStatements | scripts/analyze_excel_data.py:211-240 | the two column loops build the CREATE TABLE text and the sheet's CREATE INDEX list |

## Left out

- Databases, pandas and the workbook file are not modelled. A sheet is given as its headers and rows. `pd.to_datetime` is the parameter `DatetimeParser`. The str() form of a float is part of its cell.
- `DataTransforms.ParseDatetime`: the parser parameter returns a datetime or `None`, and `None` stands for the exception `pd.to_datetime` raises. `pd.to_datetime` can also return `NaT` without raising, for example on `""`. `parse_datetime` then returns `NaT`, a missing timestamp that is not `None`. The model has no such outcome, so a stored `NaT` is not represented.
- The outcome of a flush is an input: the `commitErrors` map of `Environment`. So are the texts of the SQLAlchemy errors, which are templates such as `rawSqlError` and `pendingRollback`.
- The row index in "Row {index}" is the position of the row: `read_excel` builds a default range index.
- Asynchronous execution is not modelled. The model treats `await` as a plain sequential call.
- Floats are modelled as reals: the YTD mean and the gauge bounds. `float()` rounding is left out.
- The `Decimal` literal grammar is modelled without `_` digit separators, non-ASCII digits and exponent limits.
- `Upper` and `Lower` fold ASCII letters only. Python's `upper()` and `lower()` also fold other letters: `'İ'.lower()` is two characters, and the Kelvin sign lowers to `k`. This narrows `SuggestName` and `ValidateArea`.
- `%Y`, `%m` and `%d` in `MatchFields` accept ASCII digits only. The regex of `strptime` uses `\d`, which also matches other Unicode decimal digits.
- `DateUtils.ErrorMessage`: `repr` of the input is modelled for quotes, backslashes and ASCII control codes. Python also escapes non-printable non-ASCII characters as `\xhh`, `\uhhhh` or `\Uhhhhhhhh`; the model writes those characters as they are.
- The queries themselves are not modelled. This covers `get_latest_technicals`, `get_latest_market_research`, `get_latest_weather_data` and the query of `get_position_from_indicator`, including its business-date filter. The rows they return, in the order they return them, are inputs.
- For `calculate_ytd_performance`, the `WHERE` clause of the query is modelled by `YtdConclusions`. Its `ORDER BY timestamp` is not: the input rows are taken to be in that order already.
- `CalculateYtdPerformance` is not in "## Model": it composes `GetYearStartDate`, `YtdConclusions` and `YtdPerformance` and adds no new rule.
- `IndicatorConfigs`: its contract states only that there are six configurations; `ConfigKeysDistinct` adds that their keys are distinct. The table from field to key and label is its body.
- `DashboardTransformers.TransformToIndicatorsGrid` does not model the order of dict keys. The grid's keys form a set.
- `NUnique` only promises that the count is at most the number of values. The model counts `pandas.nunique` over the uniques it is given.
- `transform_to_recommendations_response` and `transform_to_chart_data_response` are not modelled. They are field-by-field copies into Pydantic models (`backend/app/services/dashboard_transformers.py:183-237`).
- `log_business_date_conversion` is not modelled; it only logs. All other logging calls are left out too.
- `run_excel_import` is not modelled. It is command-line glue: engine creation, printing and closing.
- `TestRange.__repr__` is not modelled; it only formats debugging text. The uniqueness rule is modelled as an insert into a list of rows.
- From `scripts/analyze_excel_data.py`, a list of functions is not modelled:
  - `load_workbook` and `analyze_sheet` (pandas reading, sample values);
  - `analyze_all_sheets` (file info, timestamps, printing);
  - `save_analysis`, `print_summary` and `main` (file output and printing).
  A column, or an analysed sheet, is given by the statistics these functions compute.
- The SchemaAnalysis source behaves in two ways the model records as they are, not as findings.
  - The foreign-key keywords of `analyze_column` ("id", "key", "ref") match inside words such as "valid" or "humidity".
  - `suggestions['tables']` is keyed by table name, so two sheets with the same suggested name keep only the later one (`TablesOfLast`).
- `app.models.market_research` and `app.models.weather_data` are not part of this model. Their rows carry only the fields the transformers read.
- The ORM models are reduced to their table names and declared attribute sets. Nullability, column types and defaults are left out.
