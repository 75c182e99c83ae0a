/** `import_file_to_sql` and `process_imports`: one file's load, reconcile
    and append, classified into a success flag and at most one failure group,
    and the batch loop over the import configurations, which owns the log
    and the list of failure groups. */
module Batch {
  import opened Frames
  import opened PyText
  import opened Reconcile

  /** The collaborators the importer calls but does not define, as functions
      of their arguments:
      - readFile(path, delimiter): the frame `Get_file_data_import` reads, or
        the text of the exception that made it return None;
      - fetchSchema(database, table): the INFORMATION_SCHEMA rows in ordinal
        order, or the text of the exception raised while connecting or querying;
      - appendRows(database, table, frame): `df.to_sql(..., if_exists='append')`,
        None when it succeeds, otherwise the text of its exception. */
  datatype Io = Io(
    readFile: (string, string) -> Result<Table, string>,
    fetchSchema: (string, string) -> Result<seq<SchemaRow>, string>,
    appendRows: (string, string, Table) -> Option<string>)

  /** What one import contributes: the returned flag, the lines it logs, and
      the failure group it appends to `invalid_imports`, if any. */
  datatype FileOutcome = FileOutcome(success: bool, logLines: seq<string>, failure: Option<seq<string>>)

  /** The groups a failure adds to `invalid_imports`: none or one. */
  function Groups(failure: Option<seq<string>>): (r: seq<seq<string>>)
    ensures |r| <= 1
    ensures |r| == 1 <==> failure.Some?
  {
    if failure.Some? then [failure.value] else []
  }

  function NoDataGroup(path: string): seq<string>
  {
    ["No data to import: " + path]
  }

  function ImportFailedGroup(path: string, database: string, table: string, error: string): seq<string>
  {
    ["Import failed for " + path + " in " + database + "." + table + ": " + error]
  }

  function ReadErrorLine(error: string): string
  {
    "Error reading file: " + error
  }

  function NoDataLine(path: string, database: string, table: string): string
  {
    "No data to import for " + path + " in " + database + "." + table
  }

  function ImportErrorLine(path: string, database: string, table: string, error: string): string
  {
    "Error during import to " + database + "." + table + " from " + path + ": " + error
  }

  function ImportedLine(path: string, database: string, table: string): string
  {
    "Data imported successfully into " + database + "." + table + " from " + path
  }

  /** The loaded frame has something to import: it loaded, and `df.empty` is false. */
  predicate HasData(loaded: Result<Table, string>)
  {
    loaded.Success? && !IsEmpty(loaded.value)
  }

  /** The outcome of `import_file_to_sql(path, database, table, ..., delimiter)`. */
  function ImportOutcome(io: Io, path: string, database: string, table: string, delimiter: string): (r: FileOutcome)
    ensures r.success <==> r.failure.None?
    ensures r.failure.Some? ==> |r.failure.value| == 1
  {
    var loaded := io.readFile(path, delimiter);
    var readLog := if loaded.Failure? then [ReadErrorLine(loaded.error)] else [];
    if !HasData(loaded) then
      FileOutcome(false, readLog + [NoDataLine(path, database, table)], Some(NoDataGroup(path)))
    else
      match io.fetchSchema(database, table)
      case Failure(e) =>
        FileOutcome(false, [ImportErrorLine(path, database, table, e)],
                    Some(ImportFailedGroup(path, database, table, e)))
      case Success(fetched) =>
        var warnings := ReconcileWarnings(loaded.value, fetched);
        match io.appendRows(database, table, Reconciled(loaded.value, fetched))
        case None =>
          FileOutcome(true, warnings + [ImportedLine(path, database, table)], None)
        case Some(e) =>
          FileOutcome(false, warnings + [ImportErrorLine(path, database, table, e)],
                      Some(ImportFailedGroup(path, database, table, e)))
  }

  /** `info_delimiter`: a tab is logged as TAB. */
  function DelimiterLabel(delimiter: string): string
  {
    if delimiter == "\t" then "TAB" else delimiter
  }

  const Marker := "Processing import for "

  function ProcessingLine(path: string, delimiter: string, database: string, table: string): string
  {
    Marker + path + " into " + database + "." + table + " using delimiter '" + DelimiterLabel(delimiter) + "'"
  }

  function InvalidConfigLine(config: seq<string>): string
  {
    "Invalid configuration format: " + ListRepr(config)
  }

  /** What one configuration contributes to the batch. */
  function ConfigOutcome(io: Io, config: seq<string>): FileOutcome
  {
    if |config| != 4 then
      FileOutcome(false, [InvalidConfigLine(config)], Some([InvalidConfigLine(config)]))
    else
      var o := ImportOutcome(io, config[0], config[2], config[3], config[1]);
      FileOutcome(o.success, [ProcessingLine(config[0], config[1], config[2], config[3])] + o.logLines, o.failure)
  }

  /** The log and the failure list once the configurations have been processed. */
  datatype BatchState = BatchState(log: seq<string>, invalid: seq<seq<string>>)

  /** The state after the outcomes, in order, starting from the empty log
      and the empty failure list. */
  function Accumulate(outcomes: seq<FileOutcome>): BatchState
    decreases |outcomes|
  {
    if |outcomes| == 0 then BatchState([], [])
    else Step(Accumulate(outcomes[..|outcomes| - 1]), outcomes[|outcomes| - 1])
  }

  /** One configuration's contribution appended to the state. */
  function Step(before: BatchState, o: FileOutcome): BatchState
  {
    BatchState(before.log + o.logLines, before.invalid + Groups(o.failure))
  }

  function Outcomes(io: Io, configs: seq<seq<string>>): (r: seq<FileOutcome>)
    ensures |r| == |configs|
    ensures forall k :: 0 <= k < |configs| ==> r[k] == ConfigOutcome(io, configs[k])
  {
    seq(|configs|, k requires 0 <= k < |configs| => ConfigOutcome(io, configs[k]))
  }

  function BatchRun(io: Io, configs: seq<seq<string>>): BatchState
  {
    Accumulate(Outcomes(io, configs))
  }

  /** `log_stream.getvalue()`: each logged message followed by a newline. */
  function LogText(lines: seq<string>): string
    decreases |lines|
  {
    if |lines| == 0 then "" else LogText(lines[..|lines| - 1]) + lines[|lines| - 1] + "\n"
  }

  /** The run's log and its list of failure groups, owned by one batch
      (the module-level log stream, reset at the start of each run). */
  class ImportBatch {
    var log: seq<string>
    var invalidImports: seq<seq<string>>

    /** `invalid_imports = []` and the reset of the log stream. */
    constructor ()
      ensures log == [] && invalidImports == []
    {
      log := [];
      invalidImports := [];
    }

    /** `import_file_to_sql(file_path, database, table_name, invalid_imports, delimiter)` */
    method ImportFileToSql(io: Io, path: string, database: string, table: string, delimiter: string)
      returns (success: bool)
      modifies this
      ensures success == ImportOutcome(io, path, database, table, delimiter).success
      ensures log == old(log) + ImportOutcome(io, path, database, table, delimiter).logLines
      ensures invalidImports
              == old(invalidImports) + Groups(ImportOutcome(io, path, database, table, delimiter).failure)
    {
      var loaded := io.readFile(path, delimiter);
      if loaded.Failure? {
        log := log + [ReadErrorLine(loaded.error)];
      }
      if loaded.Failure? || IsEmpty(loaded.value) {
        log := log + [NoDataLine(path, database, table)];
        invalidImports := invalidImports + [NoDataGroup(path)];
        return false;
      }
      var fetched := io.fetchSchema(database, table);
      if fetched.Failure? {
        log := log + [ImportErrorLine(path, database, table, fetched.error)];
        invalidImports := invalidImports + [ImportFailedGroup(path, database, table, fetched.error)];
        return false;
      }
      var adjusted, warnings := AdjustToTable(loaded.value, fetched.value);
      log := log + warnings;
      var appendError := io.appendRows(database, table, adjusted);
      if appendError.Some? {
        log := log + [ImportErrorLine(path, database, table, appendError.value)];
        invalidImports := invalidImports + [ImportFailedGroup(path, database, table, appendError.value)];
        return false;
      }
      log := log + [ImportedLine(path, database, table)];
      return true;
    }

    /** The body of `process_imports`' loop for one configuration. */
    method ProcessConfig(io: Io, config: seq<string>)
      modifies this
      ensures log == old(log) + ConfigOutcome(io, config).logLines
      ensures invalidImports == old(invalidImports) + Groups(ConfigOutcome(io, config).failure)
    {
      if |config| != 4 {
        log := log + [InvalidConfigLine(config)];
        invalidImports := invalidImports + [[InvalidConfigLine(config)]];
        return;
      }
      var path, delimiter, database, table := config[0], config[1], config[2], config[3];
      var line := ProcessingLine(path, delimiter, database, table);
      ghost var before := log;
      log := log + [line];
      var success := ImportFileToSql(io, path, database, table, delimiter);
      AttemptedOutcome(io, config, before);
    }
  }

  /** What an attempted configuration logs: its marker line, then what the import logs. */
  lemma AttemptedOutcome(io: Io, config: seq<string>, before: seq<string>)
    requires |config| == 4
    ensures var o := ImportOutcome(io, config[0], config[2], config[3], config[1]);
            && before + [ProcessingLine(config[0], config[1], config[2], config[3])] + o.logLines
               == before + ConfigOutcome(io, config).logLines
            && ConfigOutcome(io, config).failure == o.failure
  {
    var o := ImportOutcome(io, config[0], config[2], config[3], config[1]);
    var line := ProcessingLine(config[0], config[1], config[2], config[3]);
    assert ConfigOutcome(io, config).logLines == [line] + o.logLines;
  }

  /** `process_imports(import_configs)`: every configuration is tried, in
      order; returns the failure groups and the text of the run's log. */
  method ProcessImports(io: Io, configs: seq<seq<string>>)
    returns (invalidImports: seq<seq<string>>, logMessages: string)
    ensures invalidImports == BatchRun(io, configs).invalid
    ensures logMessages == LogText(BatchRun(io, configs).log)
  {
    var batch := new ImportBatch();
    for i := 0 to |configs|
      invariant batch.log == Accumulate(Outcomes(io, configs[..i])).log
      invariant batch.invalidImports == Accumulate(Outcomes(io, configs[..i])).invalid
    {
      assert Outcomes(io, configs[..i + 1])[..i] == Outcomes(io, configs[..i]);
      batch.ProcessConfig(io, configs[i]);
    }
    assert configs[..|configs|] == configs;
    invalidImports := batch.invalidImports;
    logMessages := LogText(batch.log);
  }

  /** An import succeeds exactly when the file has data, the metadata can be
      fetched, and the reconciled frame is appended without error. */
  lemma ImportSucceedsIff(io: Io, path: string, database: string, table: string, delimiter: string)
    ensures ImportOutcome(io, path, database, table, delimiter).success <==>
      && HasData(io.readFile(path, delimiter))
      && io.fetchSchema(database, table).Success?
      && io.appendRows(database, table,
           Reconciled(io.readFile(path, delimiter).value, io.fetchSchema(database, table).value)) == None
  {
  }

  /** A file with no data is recorded as such and the database is never asked:
      the outcome is the same whatever the metadata and append would do. */
  lemma NoDataNeverTouchesDatabase(io: Io, other: Io, path: string, database: string, table: string, delimiter: string)
    requires !HasData(io.readFile(path, delimiter))
    requires other.readFile == io.readFile
    ensures ImportOutcome(io, path, database, table, delimiter)
            == ImportOutcome(other, path, database, table, delimiter)
    ensures ImportOutcome(io, path, database, table, delimiter).failure == Some(NoDataGroup(path))
  {
  }

  /** Once the file has data, a failure to fetch the metadata or to append is
      recorded with that exception's text: the fetch error when the fetch
      failed, otherwise the append error. */
  lemma ImportFailureRecorded(io: Io, path: string, database: string, table: string, delimiter: string)
    requires HasData(io.readFile(path, delimiter))
    requires !ImportOutcome(io, path, database, table, delimiter).success
    ensures io.fetchSchema(database, table).Failure? ==>
              ImportOutcome(io, path, database, table, delimiter).failure
              == Some(ImportFailedGroup(path, database, table, io.fetchSchema(database, table).error))
    ensures io.fetchSchema(database, table).Success? ==>
              var adjusted := Reconciled(io.readFile(path, delimiter).value, io.fetchSchema(database, table).value);
              && io.appendRows(database, table, adjusted).Some?
              && ImportOutcome(io, path, database, table, delimiter).failure
                 == Some(ImportFailedGroup(path, database, table, io.appendRows(database, table, adjusted).value))
  {
  }

  /** What an import logs: on a read failure the loader's error, then for a
      file without data the no-data line; for a failed fetch only the error
      line; otherwise the reconciliation's warnings, then the success line or
      the append's error line. */
  lemma ImportLogged(io: Io, path: string, database: string, table: string, delimiter: string)
    ensures var o := ImportOutcome(io, path, database, table, delimiter);
            var loaded := io.readFile(path, delimiter);
            && |o.logLines| > 0
            && (!HasData(loaded) ==>
                  o.logLines == (if loaded.Failure? then [ReadErrorLine(loaded.error)] else [])
                                + [NoDataLine(path, database, table)])
            && (HasData(loaded) && io.fetchSchema(database, table).Failure? ==>
                  o.logLines == [ImportErrorLine(path, database, table, io.fetchSchema(database, table).error)])
            && (HasData(loaded) && io.fetchSchema(database, table).Success? ==>
                  var fetched := io.fetchSchema(database, table).value;
                  var appended := io.appendRows(database, table, Reconciled(loaded.value, fetched));
                  o.logLines == ReconcileWarnings(loaded.value, fetched)
                                + [if appended.None? then ImportedLine(path, database, table)
                                   else ImportErrorLine(path, database, table, appended.value)])
  {
  }

  /** A configuration without exactly four fields is recorded once and
      skipped: nothing is read, fetched or appended for it. */
  lemma InvalidConfigSkipped(io: Io, other: Io, config: seq<string>)
    requires |config| != 4
    ensures ConfigOutcome(io, config) == ConfigOutcome(other, config)
    ensures Groups(ConfigOutcome(io, config).failure)
            == [["Invalid configuration format: " + ListRepr(config)]]
  {
  }

  /** Each attempted import logs its marker line first, with a tab
      delimiter shown as TAB. */
  lemma ProcessingLineFirst(io: Io, config: seq<string>)
    requires |config| == 4
    ensures |ConfigOutcome(io, config).logLines| >= 2
    ensures ConfigOutcome(io, config).logLines[0]
            == ProcessingLine(config[0], config[1], config[2], config[3])
    ensures ConfigOutcome(io, config).logLines[0][..|Marker|] == Marker
    ensures config[1] == "\t" ==>
      ConfigOutcome(io, config).logLines[0]
      == "Processing import for " + config[0] + " into " + config[2] + "." + config[3] + " using delimiter 'TAB'"
  {
  }

  /** Accumulating two runs of outcomes is accumulating the first and then
      the second, from nothing. */
  lemma {:induction false} AccumulateConcat(a: seq<FileOutcome>, b: seq<FileOutcome>)
    ensures Accumulate(a + b).log == Accumulate(a).log + Accumulate(b).log
    ensures Accumulate(a + b).invalid == Accumulate(a).invalid + Accumulate(b).invalid
    decreases |b|
  {
    if |b| > 0 {
      var init, last := b[..|b| - 1], b[|b| - 1];
      AccumulateConcat(a, init);
      var ab := a + b;
      assert ab[..|ab| - 1] == a + init && ab[|ab| - 1] == last;
      var x, y := Accumulate(a), Accumulate(init);
      assert Accumulate(ab) == Step(Accumulate(a + init), last);
      assert Accumulate(b) == Step(y, last);
      assert x.log + y.log + last.logLines == x.log + (y.log + last.logLines);
      assert x.invalid + y.invalid + Groups(last.failure) == x.invalid + (y.invalid + Groups(last.failure));
    } else {
      assert a + b == a;
    }
  }

  /** Failure isolation: the batch over `a + b` is the batch over `a`
      followed by the batch over `b`. What a configuration contributes does
      not depend on the ones before it because `Io` is a function of its
      arguments alone; a real append changes the table later imports see. */
  lemma BatchConcat(io: Io, a: seq<seq<string>>, b: seq<seq<string>>)
    ensures BatchRun(io, a + b).log == BatchRun(io, a).log + BatchRun(io, b).log
    ensures BatchRun(io, a + b).invalid == BatchRun(io, a).invalid + BatchRun(io, b).invalid
  {
    assert Outcomes(io, a + b) == Outcomes(io, a) + Outcomes(io, b);
    AccumulateConcat(Outcomes(io, a), Outcomes(io, b));
  }

  /** The number of outcomes that failed. */
  function FailedCount(outcomes: seq<FileOutcome>): nat
    decreases |outcomes|
  {
    if |outcomes| == 0 then 0
    else FailedCount(outcomes[..|outcomes| - 1]) + (if outcomes[|outcomes| - 1].failure.Some? then 1 else 0)
  }

  /** The failure list starts empty and grows by at most one group per
      configuration: it holds one group for each configuration that failed. */
  lemma {:induction false} OneGroupPerFailure(outcomes: seq<FileOutcome>)
    ensures |Accumulate(outcomes).invalid| == FailedCount(outcomes) <= |outcomes|
    decreases |outcomes|
  {
    if |outcomes| > 0 {
      OneGroupPerFailure(outcomes[..|outcomes| - 1]);
    }
  }

  lemma BatchGroupCount(io: Io, configs: seq<seq<string>>)
    ensures BatchRun(io, []) == BatchState([], [])
    ensures |BatchRun(io, configs).invalid| == FailedCount(Outcomes(io, configs)) <= |configs|
  {
    OneGroupPerFailure(Outcomes(io, configs));
  }

  /** The k-th configuration's contribution sits, unchanged, between that of
      the configurations before it and that of those after it. */
  lemma ConfigContribution(io: Io, configs: seq<seq<string>>, k: nat)
    requires k < |configs|
    ensures BatchRun(io, configs).invalid
            == BatchRun(io, configs[..k]).invalid
               + Groups(ConfigOutcome(io, configs[k]).failure)
               + BatchRun(io, configs[k + 1..]).invalid
    ensures BatchRun(io, configs).log
            == BatchRun(io, configs[..k]).log
               + ConfigOutcome(io, configs[k]).logLines
               + BatchRun(io, configs[k + 1..]).log
  {
    var pre, mid, post := configs[..k], [configs[k]], configs[k + 1..];
    assert configs == pre + mid + post;
    BatchConcat(io, pre + mid, post);
    BatchConcat(io, pre, mid);
    var o := ConfigOutcome(io, configs[k]);
    assert Outcomes(io, mid) == [o];
    assert [o][..0] == [];
    assert Accumulate([o]) == BatchState(o.logLines, Groups(o.failure));
  }

  /** The first outcome's contribution comes first. */
  lemma AccumulateFirst(outcomes: seq<FileOutcome>)
    requires |outcomes| > 0
    ensures Accumulate(outcomes).log == outcomes[0].logLines + Accumulate(outcomes[1..]).log
  {
    var o, rest := outcomes[0], outcomes[1..];
    assert outcomes == [o] + rest;
    AccumulateConcat([o], rest);
    AccumulateOne(o);
  }

  lemma AccumulateOne(o: FileOutcome)
    ensures Accumulate([o]).log == o.logLines
  {
    assert [o][..0] == [];
    assert [] + o.logLines == o.logLines;
  }

  lemma BatchFirst(io: Io, configs: seq<seq<string>>)
    requires |configs| > 0
    ensures BatchRun(io, configs).log == ConfigOutcome(io, configs[0]).logLines + BatchRun(io, configs[1..]).log
  {
    AccumulateFirst(Outcomes(io, configs));
    assert Outcomes(io, configs)[1..] == Outcomes(io, configs[1..]);
  }

  lemma LogTextOne(line: string)
    ensures LogText([line]) == line + "\n"
  {
    assert [line][..0] == [];
  }

  /** The log text of two runs of lines is the text of the first followed by
      that of the second. */
  lemma {:induction false} LogTextConcat(a: seq<string>, b: seq<string>)
    ensures LogText(a + b) == LogText(a) + LogText(b)
    decreases |b|
  {
    if |b| > 0 {
      LogTextConcat(a, b[..|b| - 1]);
      assert (a + b)[..|a + b| - 1] == a + b[..|b| - 1];
    } else {
      assert a + b == a;
    }
  }
}
