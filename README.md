# SQL file importer: a Dafny model

This project models the core of a batch importer for delimited text files.
It takes a list of import configurations. Each configuration names a file, a delimiter, a database and a table. For each configuration the importer:

- loads the file;
- fits the loaded frame to the target table's column metadata (`adjust_dataframe_to_table`);
- appends the rows to the table (`import_file_to_sql`).

Along the way it collects a list of failure groups and a text log (`process_imports`). Finally it builds a plain-text report and an HTML report from both (`send_email`, the body-building part).

The model has five modules:

- `Frames`: the values involved.
  - A frame is a row count and a list of named columns; its cells are None, a string, or another scalar carried with its `str()` text.
  - A metadata row is `COLUMN_NAME`, `DATA_TYPE`, `CHARACTER_MAXIMUM_LENGTH`.
  - Python's `s[:n]`, including a negative `n`.
  - `df[name]` and `df[name] = cells` (replace in place, or append), for frames whose column names are distinct.
- `PyText`: the Python string behaviour the report relies on.
  - `str.split` with a non-empty separator, `str.join`, `str.strip` with Python's whitespace set.
  - The f-string rendering of a list of strings.
- `Reconcile`: `adjust_dataframe_to_table`.
  - The method `AdjustToTable` keeps the source's steps. A loop builds `column_lengths`. Then come the two warnings, the projection onto known columns, the None fill of missing columns, the truncation of bounded columns in dictionary order (any order), and the final reorder.
  - `AdjustToTable` is proved equal to the column-by-column definition `Reconciled`, and to the warning list `ReconcileWarnings`.
- `Batch`: `import_file_to_sql` and `process_imports`.
  - The run's log and its failure list are the fields of the class `ImportBatch`. Its methods append to them as the source appends to `log_stream` and `invalid_imports`.
  - Each method is proved against a function: `ImportOutcome` for one file, `ConfigOutcome` for one configuration, and `BatchRun`, a left fold, for the batch.
- `Report`: the text and HTML bodies.
  - The method `ComposeReport` builds both bodies with the source's loops.
  - It is proved equal to the functions `TextHeader + ReportContent` and `HtmlHeader + ReportContent + HtmlFooter`.

The database, the file loader and the table append are calls into code outside the core. They are the three functions of the `Io` parameter, and each returns either a value or the text of the exception it raised.

A None cell in a bounded `varchar`/`nvarchar` column might be expected to stay None, so that the database stores NULL. It does not: `sql_import.py:136` applies `astype(str)` before slicing, so the cell becomes the text `"None"` cut to the column's length. The model follows the code:

- a missing `varchar(2)` column is filled with `"No"`;
- in a `varchar(3)` column, None becomes `"Non"`.

`Reconcile.MissingColumnFilled`, `Reconcile.MissingBoundedScenario` and `Reconcile.NullInBoundedColumnScenario` state this behaviour. A kept cell of an unbounded column keeps whatever value the loader produced (the number `2`, not the string `"2"`).

## Model

| member | source | states |
|---|---|---|
| Frames.Get | sql_import.py:136 | `df[name]` is defined exactly when the name is among the frame's columns, and then it is one of the frame's columns |
| Frames.WithColumn | sql_import.py:132 | `df[name] = cells` changes only that column's cells; the name list grows by the name only when it was absent |
| Reconcile.BuildLengths | sql_import.py:114-118 | the loop that builds `column_lengths` computes `Lengths` of the metadata rows |
| Reconcile.LengthsOfBounded | sql_import.py:116-118 | a name is in `column_lengths` exactly when some row of that name is varchar/nvarchar with a length other than NULL and -1; its value is that of the last such row |
| Reconcile.LengthOfDistinct | sql_import.py:116-118 | with distinct names, each bounded column maps to its own maximum length |
| Reconcile.Without | sql_import.py:121-122 | the kept elements are exactly those of the first list not in the second |
| Reconcile.Within | sql_import.py:129 | the kept elements are exactly those of the first list that are in the second |
| Reconcile.Retain | sql_import.py:129 | projection keeps the frame's order of the known columns, and their cells |
| Reconcile.FillMissing | sql_import.py:131-132 | after the loop each missing column holds one None per row, and every other column is unchanged |
| Reconcile.TruncateBounded | sql_import.py:134-136 | after the loop each bounded column present in the frame holds its cells' `str()` cut to the length; every other column is unchanged |
| Reconcile.Warnings | sql_import.py:124-127 | the dropping warning is present exactly when some column is extra, the adding warning exactly when some column is missing; the dropping one comes first, and there is none exactly when both lists are empty |
| Reconcile.WarnAbout | sql_import.py:124-127 | the two `if` statements log the list `Warnings` describes |
| Reconcile.ReconcileWarnings | sql_import.py:121-127 | for a frame and the fetched metadata: the dropping warning exactly when the frame has extra columns, the adding warning exactly when it lacks some, dropping first, none when neither |
| Reconcile.Reconciled | sql_import.py:107-140 | the result keeps the row count and has the metadata's names after the first, in order |
| Reconcile.AdjustToTable | sql_import.py:107-140 | the method returns the frame `Reconciled` and the warnings `ReconcileWarnings` |
| Reconcile.ReconciledColumnsInSchemaOrder | sql_import.py:138 | column j of the result is named after metadata row j+1, whatever the file's column order |
| Reconcile.ReconciledKeepsRows | sql_import.py:129-138 | no row is added or removed: each output column has one cell per input row |
| Reconcile.BoundedColumnTruncated | sql_import.py:134-136 | each cell of a bounded column is `str(original)[:len]`, and so no longer than `len` when `len` is not negative |
| Reconcile.UnboundedColumnUnchanged | sql_import.py:129-138 | a file column with no bound comes out with its cells untouched |
| Reconcile.MissingColumnFilled | sql_import.py:131-136 | a column the file lacks is listed as missing and is filled: all None when unbounded, and `"None"[:len]` in every row when bounded |
| Reconcile.SurrogateColumnDropped | sql_import.py:110-111 | the first metadata row's name is never an output column, unless it recurs; a file column of that name is reported as extra |
| Reconcile.ColumnsPartitioned | sql_import.py:121-129 | the kept names and the extra names together are, as a multiset, the file's names |
| Reconcile.ExtraAndMissing | sql_import.py:121-129 | the file's columns split into kept and extra; no extra column survives; the missing columns are exactly the table's names the file lacks |
| Reconcile.MissingBoundedScenario | sql_import.py:131-138 | header A,B,C with row 1,2,3 against [Id, B, D varchar(2)] gives columns B and D with cells 2 and "No" |
| Reconcile.NullInBoundedColumnScenario | sql_import.py:134-136 | in a varchar(3) column, "hello" becomes "hel" and None becomes "Non" |
| Batch.Groups | sql_import.py:146-167 | a failing import adds exactly one group to `invalid_imports`, and a succeeding one adds none |
| Batch.ImportOutcome | sql_import.py:143-167 | an import reports success exactly when it records no failure group, and a failure group holds one message |
| Batch.ImportBatch.constructor | sql_import.py:171-173 | the run starts with an empty failure list and an empty log |
| Batch.ImportBatch.ImportFileToSql | sql_import.py:143-167 | the method returns the flag of `ImportOutcome`, appends its log lines to the log, and appends its group, if any, to the failure list |
| Batch.ImportBatch.ProcessConfig | sql_import.py:176-185 | one loop iteration appends `ConfigOutcome`'s lines and group: a malformed configuration is logged and recorded, and a well-formed one logs its marker line and then imports |
| Batch.ProcessImports | sql_import.py:170-190 | returns the failure list of `BatchRun` and the log text of its log, every configuration taken in order |
| Batch.ImportSucceedsIff | sql_import.py:146-162 | success holds exactly when the file has data, the metadata is fetched, and the reconciled frame is appended without error |
| Batch.NoDataNeverTouchesDatabase | sql_import.py:146-149 | when the file has no data, the outcome does not depend on the database at all, and the group is "No data to import: path" |
| Batch.ImportFailureRecorded | sql_import.py:151-166 | when a file with data fails, its group is "Import failed for path in db.table: e", where e is the metadata fetch's error when the fetch failed, and otherwise the append's error |
| Batch.ImportLogged | sql_import.py:144-166 | an import logs at least one line: a read failure logs the loader's error and then the no-data line; a failed fetch logs only the error line naming file, database and table and the error; otherwise the reconciliation's warnings come first, then the success line or the append's error line |
| Batch.InvalidConfigSkipped | sql_import.py:176-179 | a configuration without four fields touches nothing, and records one group with its f-string rendering |
| Batch.ProcessingLineFirst | sql_import.py:182-185 | an attempted import logs the marker line first, followed by at least one more line; a tab delimiter is shown as TAB |
| Batch.AccumulateConcat | sql_import.py:175-185 | folding two runs of outcomes is folding each and concatenating the logs and the failure lists |
| Batch.BatchConcat | sql_import.py:175-185 | failure isolation: the batch over `a + b` is the batch over `a` followed by the batch over `b` |
| Batch.ConfigContribution | sql_import.py:175-185 | the k-th configuration's lines and group sit, unchanged, between those of the configurations before and after it |
| Batch.OneGroupPerFailure | sql_import.py:175-185 | the failure list holds exactly one group per failed outcome, and so no more groups than configurations |
| Batch.BatchGroupCount | sql_import.py:171-185 | an empty batch leaves both lists empty, and the number of groups is the number of failed configurations |
| Batch.BatchFirst | sql_import.py:175-185 | the first configuration's lines start the log |
| Batch.LogTextConcat | sql_import.py:187 | the text of the log of two runs of lines is the concatenation of their texts |
| PyText.Find | sql_import.py:36 | the first index at which the separator occurs, or none when it does not occur |
| PyText.Split | sql_import.py:36 | at least one piece, and no piece contains the separator |
| PyText.SplitJoin | sql_import.py:36 | joining the pieces back with the separator gives the original text |
| PyText.JoinSplit | sql_import.py:51 | splitting pieces joined by a one-character separator they lack gives the pieces back |
| PyText.Strip | sql_import.py:40 | the result is the middle of the text; everything cut off is whitespace, and the result neither starts nor ends with whitespace |
| Report.Dashes | sql_import.py:41 | `'-' * n` has length n and holds only dashes |
| Report.ComposeReport | sql_import.py:32-55 | the text body is its header followed by the report content; the HTML body is its header, the same content and its footer |
| Report.LogSections | sql_import.py:35-44 | the loop over the log's sections builds `LogPart`: nothing for an empty log, otherwise one bordered block per non-empty section |
| Report.FailureSections | sql_import.py:46-53 | the loop over the failure groups builds `FailurePart`: nothing when there are none, otherwise the header and one block per non-empty group |
| Report.SectionsCoverLog | sql_import.py:36-40 | splitting the log into sections and putting the markers back loses and repeats nothing; no section holds a second marker |
| Report.NoMarkerOneSection | sql_import.py:35-44 | a non-empty log without a marker is reported as one bordered section of its stripped text |
| Report.LeadingMarkerSkipped | sql_import.py:37-39 | when the log starts with the marker, the empty text before it adds nothing |
| Report.LogTextHead | sql_import.py:187 | the log text starts with the first logged message |
| Report.BatchLogStartsWithMarker | sql_import.py:184-187 | when the first configuration is well formed, the run's log text starts with the marker |
| Report.GroupBlockLines | sql_import.py:49-53 | a non-empty group gives "File import log:" and, when no message holds a newline, exactly one bullet line per message (an error text spanning several lines spans several lines of the block) |

## Left out

- Sending the report is not modelled: the MIME message, the SMTP session (`sql_import.py:26-30`, `56-62`) and the send condition (`sql_import.py:25`). `ProcessImports` returns the log text and the failure list that `send_email` receives.
- `get_sqlalchemy_engine` (`sql_import.py:65-78`): driver selection from the environment and the connection URL are configuration, not logic. A failure to create the engine at line 152 raises inside the same `try` as the metadata query, so the model merges it into the `fetchSchema` failure.
- `Get_file_data_import` (`sql_import.py:81-88`) is the `readFile` parameter. CSV parsing and the `where(notnull, None)` normalisation are pandas internals. The loader's "Error reading file" log line is modelled.
- The metadata query (`sql_import.py:90-104`) and `to_sql` (`sql_import.py:154-160`) are the `fetchSchema` and `appendRows` parameters.
- The `Io` functions are deterministic functions of their arguments: a file read twice, or a table queried twice, gives the same answer.
- `get_periodic_import_files` and the script's entry point (`sql_import.py:193-215`) are file-system scanning and scheduling, outside the core.
- Logging setup and `traceback.print_exc` (`sql_import.py:14-21`, `165`). The log is the sequence of messages the core logs, each followed by a newline (format `%(message)s`). Records logged by third-party libraries into the same stream are not modelled. The traceback goes to standard error, not to the log.
- pandas' rendering of numbers, NaN and booleans by `astype(str)` is not modelled: a non-string cell carries its `str()` text as given.
- `PyText.StrRepr`: Python's `repr` of a string is modelled as the text between single quotes. The choice of double quotes and the escaping of quotes, backslashes and control characters are not modelled.
- `Report.ComposeReport`: the source appends each piece to both bodies. The model appends it once to a shared content, which the two bodies then wrap. Both bodies are stated in full.
- `Batch.ProcessImports` does not call `Report.ComposeReport`. The call to `send_email` at line 188 is left to the caller, who passes it the two results.
- `pd.DataFrame` column dtypes and the index are not modelled; a frame is its row count and its named columns.
- Frames.Get: a frame's column names are taken to be distinct, because `pd.read_csv` (`sql_import.py:83`) renames a repeated header such as `A` to `A.1`. `Get`, and `Select` through it, return the first column of a name, which matches pandas only for distinct names (`Retain` keeps every column whose name is listed, as pandas does); with a repeated name pandas' `df[name]` and `df[column_names]` (`sql_import.py:138`) would keep every column of that name.
