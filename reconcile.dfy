/** `adjust_dataframe_to_table`: fits a loaded frame to the target table's
    column metadata. The metadata rows are a parameter (the query that
    fetches them is I/O); the frame is a value held in a local variable,
    which is exact here because the first projection already builds a new
    frame and the caller's frame is never changed. */
module Reconcile {
  import opened Frames
  import opened PyText

  /** `columns[1:]`: the fetched metadata without its first row. */
  function SchemaTail(fetched: seq<SchemaRow>): (r: seq<SchemaRow>)
    ensures |fetched| > 0 ==> r == fetched[1..]
    ensures |fetched| == 0 ==> r == []
  {
    if |fetched| == 0 then [] else fetched[1..]
  }

  /** `[col[0] for col in columns]` */
  function ColumnNames(cols: seq<SchemaRow>): (r: seq<string>)
    ensures |r| == |cols|
    ensures forall j :: 0 <= j < |cols| ==> r[j] == cols[j].name
  {
    seq(|cols|, j requires 0 <= j < |cols| => cols[j].name)
  }

  /** The `column_lengths` dictionary: the bounded columns' names mapped to
      their length, a later row of the same name overwriting an earlier one. */
  function Lengths(cols: seq<SchemaRow>): map<string, int>
    decreases |cols|
  {
    if |cols| == 0 then map[]
    else
      var m := Lengths(cols[..|cols| - 1]);
      var c := cols[|cols| - 1];
      if IsBounded(c) then m[c.name := c.maxLength.value] else m
  }

  /** `[x for x in xs if x not in ys]` */
  function Without(xs: seq<string>, ys: seq<string>): (r: seq<string>)
    ensures |r| <= |xs|
    ensures forall x :: x in r <==> x in xs && x !in ys
    decreases |xs|
  {
    if |xs| == 0 then []
    else if xs[0] in ys then Without(xs[1..], ys)
    else [xs[0]] + Without(xs[1..], ys)
  }

  /** `[x for x in xs if x in ys]` */
  function Within(xs: seq<string>, ys: seq<string>): (r: seq<string>)
    ensures |r| <= |xs|
    ensures forall x :: x in r <==> x in xs && x in ys
    decreases |xs|
  {
    if |xs| == 0 then []
    else if xs[0] in ys then [xs[0]] + Within(xs[1..], ys)
    else Within(xs[1..], ys)
  }

  /** `df[[col for col in df.columns if col in column_names]]` */
  function Retain(cols: seq<Column>, names: seq<string>): (r: seq<Column>)
    ensures Names(r) == Within(Names(cols), names)
    ensures forall n :: Get(r, n) == if n in names then Get(cols, n) else None
    decreases |cols|
  {
    if |cols| == 0 then []
    else
      var c, tail := cols[0], cols[1..];
      assert cols == [c] + tail;
      Cons(c, tail);
      var rest := Retain(tail, names);
      if c.name in names then
        Cons(c, rest);
        [c] + rest
      else rest
  }

  /** A column of `rows` Nones, as `df[col] = None` makes it. */
  function Nulls(rows: nat): (r: seq<Cell>)
    ensures |r| == rows && forall k :: 0 <= k < rows ==> r[k] == Null
  {
    seq(rows, k => Null)
  }

  /** `column.astype(str).str[:n]` */
  function Truncated(cells: seq<Cell>, n: int): (r: seq<Cell>)
    ensures |r| == |cells|
    ensures forall k :: 0 <= k < |cells| ==> r[k] == Str(PyPrefix(ToStr(cells[k]), n))
  {
    seq(|cells|, k requires 0 <= k < |cells| => Str(PyPrefix(ToStr(cells[k]), n)))
  }

  /** The cells a schema column starts from: the file's column of that name
      if there is one, otherwise Nones. */
  function Source(t: Table, name: string): seq<Cell>
  {
    match Get(t.columns, name)
    case Some(cells) => cells
    case None => Nulls(t.rows)
  }

  /** What `adjust_dataframe_to_table` leaves in the column `name`. */
  function Final(t: Table, lengths: map<string, int>, name: string): seq<Cell>
  {
    if name in lengths then Truncated(Source(t, name), lengths[name]) else Source(t, name)
  }

  /** The reconciled frame, column by column: one column per metadata row
      after the first, in the metadata's order, each filled by Final. */
  function Reconciled(t: Table, fetched: seq<SchemaRow>): (r: Table)
    ensures r.rows == t.rows
    ensures Names(r.columns) == ColumnNames(SchemaTail(fetched))
  {
    var names := ColumnNames(SchemaTail(fetched));
    Table(t.rows, FinalColumns(t, Lengths(SchemaTail(fetched)), names))
  }

  function FinalColumns(t: Table, lengths: map<string, int>, names: seq<string>): (r: seq<Column>)
    ensures Names(r) == names
  {
    seq(|names|, j requires 0 <= j < |names| => Column(names[j], Final(t, lengths, names[j])))
  }

  /** `df[names]` for names the frame has. */
  function Select(cols: seq<Column>, names: seq<string>): (r: seq<Column>)
    requires forall n :: n in names ==> Get(cols, n).Some?
    ensures |r| == |names|
  {
    seq(|names|, j requires 0 <= j < |names| => Column(names[j], Get(cols, names[j]).value))
  }

  /** Selecting columns that already hold their final cells gives the
      reconciled columns. */
  lemma SelectFinal(t: Table, lengths: map<string, int>, names: seq<string>, cut: seq<Column>)
    requires forall n :: n in names ==> Get(cut, n) == Some(Final(t, lengths, n))
    ensures Select(cut, names) == FinalColumns(t, lengths, names)
  {
    forall j | 0 <= j < |names|
      ensures Select(cut, names)[j] == FinalColumns(t, lengths, names)[j]
    {
      assert names[j] in names;
    }
  }

  /** `extra_columns`: the file's columns the table does not have. */
  function ExtraColumns(t: Table, fetched: seq<SchemaRow>): seq<string>
  {
    Without(Names(t.columns), ColumnNames(SchemaTail(fetched)))
  }

  /** `missing_columns`: the table's columns the file does not have. */
  function MissingColumns(t: Table, fetched: seq<SchemaRow>): seq<string>
  {
    Without(ColumnNames(SchemaTail(fetched)), Names(t.columns))
  }

  /** The two warnings the reconciliation may log. */
  function ReconcileWarnings(t: Table, fetched: seq<SchemaRow>): (r: seq<string>)
    ensures |r| <= 2
    ensures DroppingWarning(ExtraColumns(t, fetched)) in r <==> |ExtraColumns(t, fetched)| > 0
    ensures AddingWarning(MissingColumns(t, fetched)) in r <==> |MissingColumns(t, fetched)| > 0
    ensures |ExtraColumns(t, fetched)| > 0 ==> r[0] == DroppingWarning(ExtraColumns(t, fetched))
    ensures |MissingColumns(t, fetched)| > 0 ==> r[|r| - 1] == AddingWarning(MissingColumns(t, fetched))
    ensures |r| == 0 <==> |ExtraColumns(t, fetched)| == 0 && |MissingColumns(t, fetched)| == 0
  {
    Warnings(ExtraColumns(t, fetched), MissingColumns(t, fetched))
  }

  /** The warnings for the given extra and missing columns: the dropping
      warning exactly when some column is extra, the adding warning exactly
      when some column is missing, in that order. */
  function Warnings(extra: seq<string>, missing: seq<string>): (r: seq<string>)
    ensures |r| <= 2
    ensures DroppingWarning(extra) in r <==> |extra| > 0
    ensures AddingWarning(missing) in r <==> |missing| > 0
    ensures |extra| > 0 ==> r[0] == DroppingWarning(extra)
    ensures |missing| > 0 ==> r[|r| - 1] == AddingWarning(missing)
    ensures |r| == 0 <==> |extra| == 0 && |missing| == 0
  {
    DistinctWarnings(extra, missing);
    (if |extra| > 0 then [DroppingWarning(extra)] else [])
    + (if |missing| > 0 then [AddingWarning(missing)] else [])
  }

  /** The two warnings never coincide: they differ in their first letter. */
  lemma DistinctWarnings(extra: seq<string>, missing: seq<string>)
    ensures DroppingWarning(extra) != AddingWarning(missing)
  {
    var dropping := "Dropping columns not in table schema: ";
    var adding := "Adding missing columns (filled with None): ";
    assert DroppingWarning(extra) == dropping + ListRepr(extra);
    assert AddingWarning(missing) == adding + ListRepr(missing);
    assert (dropping + ListRepr(extra))[0] == dropping[0] == 'D';
    assert (adding + ListRepr(missing))[0] == adding[0] == 'A';
  }

  function DroppingWarning(extra: seq<string>): string
  {
    "Dropping columns not in table schema: " + ListRepr(extra)
  }

  function AddingWarning(missing: seq<string>): string
  {
    "Adding missing columns (filled with None): " + ListRepr(missing)
  }

  /** `adjust_dataframe_to_table(df, database, table_name)` with the metadata
      rows already fetched: returns the reconciled frame and the warnings
      logged on the way. */
  method AdjustToTable(t: Table, fetched: seq<SchemaRow>) returns (r: Table, warnings: seq<string>)
    ensures r == Reconciled(t, fetched)
    ensures warnings == ReconcileWarnings(t, fetched)
  {
    var columns := if |fetched| > 0 then fetched[1..] else [];
    assert columns == SchemaTail(fetched);
    var names := ColumnNames(columns);
    var lengths := BuildLengths(columns);

    var dfNames := Names(t.columns);
    var extra := Without(dfNames, names);
    var missing := Without(names, dfNames);
    warnings := WarnAbout(extra, missing);

    var kept := Retain(t.columns, names);
    var filled := FillMissing(kept, missing, t.rows);
    FilledFromSource(t, names, kept, missing, filled);
    var cut := TruncateBounded(filled, lengths);

    // df[column_names]
    r := Table(t.rows, Select(cut, names));
    SelectFinal(t, lengths, names, cut);
  }

  /** The two `logger.warning` calls, each made only for a non-empty list. */
  method WarnAbout(extra: seq<string>, missing: seq<string>) returns (warnings: seq<string>)
    ensures warnings == Warnings(extra, missing)
  {
    warnings := [];
    if |extra| > 0 {
      warnings := warnings + [DroppingWarning(extra)];
    }
    if |missing| > 0 {
      warnings := warnings + [AddingWarning(missing)];
    }
  }

  /** After projection and the None fill, each column name holds the cells
      it starts from. */
  lemma FilledFromSource(t: Table, names: seq<string>, kept: seq<Column>, missing: seq<string>, filled: seq<Column>)
    requires forall n :: Get(kept, n) == if n in names then Get(t.columns, n) else None
    requires missing == Without(names, Names(t.columns))
    requires forall n :: Get(filled, n) == if n in missing then Some(Nulls(t.rows)) else Get(kept, n)
    ensures forall n :: n in names ==> Get(filled, n) == Some(Source(t, n))
  {
    forall n | n in names
      ensures Get(filled, n) == Some(Source(t, n))
    {
      if n !in Names(t.columns) {
        assert n in missing;
      }
    }
  }

  /** The loop that fills `column_lengths`, one metadata row at a time. */
  method BuildLengths(columns: seq<SchemaRow>) returns (lengths: map<string, int>)
    ensures lengths == Lengths(columns)
  {
    lengths := map[];
    var i := 0;
    while i < |columns|
      invariant 0 <= i <= |columns|
      invariant lengths == Lengths(columns[..i])
    {
      var c := columns[i];
      assert columns[..i + 1][..i] == columns[..i];
      if IsBounded(c) {
        lengths := lengths[c.name := c.maxLength.value];
      }
      i := i + 1;
    }
    assert columns[..i] == columns;
  }

  /** `for col in missing_columns: df[col] = None` */
  method FillMissing(cols: seq<Column>, missing: seq<string>, rows: nat) returns (out: seq<Column>)
    ensures forall n :: Get(out, n) == if n in missing then Some(Nulls(rows)) else Get(cols, n)
  {
    out := cols;
    var k := 0;
    while k < |missing|
      invariant 0 <= k <= |missing|
      invariant forall n :: Get(out, n) == if n in missing[..k] then Some(Nulls(rows)) else Get(cols, n)
    {
      assert missing[..k + 1] == missing[..k] + [missing[k]];
      out := WithColumn(out, missing[k], Nulls(rows));
      k := k + 1;
    }
    assert missing[..k] == missing;
  }

  /** `for col, max_len in column_lengths.items(): if col in df.columns:
      df[col] = df[col].astype(str).str[:max_len]`. The dictionary's order
      does not change the outcome, so the keys are taken in any order. */
  method TruncateBounded(cols: seq<Column>, lengths: map<string, int>) returns (out: seq<Column>)
    ensures forall n :: Get(out, n) ==
                        (if n in lengths && Get(cols, n).Some?
                         then Some(Truncated(Get(cols, n).value, lengths[n])) else Get(cols, n))
  {
    out := cols;
    var pending := lengths.Keys;
    while pending != {}
      invariant pending <= lengths.Keys
      invariant forall n :: Get(out, n) == CutTo(cols, lengths, pending, n)
      decreases pending
    {
      var col :| col in pending;
      assert Get(out, col) == Get(cols, col);
      if col in Names(out) {
        var next := WithColumn(out, col, Truncated(Get(out, col).value, lengths[col]));
        forall n ensures Get(next, n) == CutTo(cols, lengths, pending - {col}, n) {
          if n != col { assert Get(next, n) == Get(out, n); }
        }
        out := next;
      }
      pending := pending - {col};
    }
  }

  /** A column's cells while the bounded columns are being cut: the columns
      whose names are still `pending` are not cut yet. */
  function CutTo(cols: seq<Column>, lengths: map<string, int>, pending: set<string>, n: string): Option<seq<Cell>>
  {
    if n in lengths && n !in pending && Get(cols, n).Some?
    then Some(Truncated(Get(cols, n).value, lengths[n]))
    else Get(cols, n)
  }

  /** Row i of the metadata is a bounded column named `name`. */
  predicate BoundAt(cols: seq<SchemaRow>, i: int, name: string)
  {
    0 <= i < |cols| && cols[i].name == name && IsBounded(cols[i])
  }

  /** Row i is the last bounded row named `name`. */
  predicate LastBoundAt(cols: seq<SchemaRow>, i: int, name: string)
  {
    BoundAt(cols, i, name) && forall k :: i < k < |cols| ==> !BoundAt(cols, k, name)
  }

  /** Which names `column_lengths` holds, and the value it keeps: that of the
      last bounded row of the name. */
  lemma {:induction false} LengthsOfBounded(cols: seq<SchemaRow>, name: string)
    ensures name in Lengths(cols) <==> exists i :: BoundAt(cols, i, name)
    ensures name in Lengths(cols) ==>
      exists i :: LastBoundAt(cols, i, name) && cols[i].maxLength == Some(Lengths(cols)[name])
    decreases |cols|
  {
    if |cols| > 0 {
      var last := |cols| - 1;
      var init := cols[..last];
      LengthsOfBounded(init, name);
      assert forall i :: 0 <= i < last ==> init[i] == cols[i];
      assert forall i :: BoundAt(init, i, name) <==> BoundAt(cols, i, name) && i < last;
      if BoundAt(cols, last, name) {
        assert Lengths(cols) == Lengths(init)[name := cols[last].maxLength.value];
        assert LastBoundAt(cols, last, name);
      } else {
        assert name in Lengths(cols) <==> name in Lengths(init);
        if name in Lengths(init) {
          assert Lengths(cols)[name] == Lengths(init)[name];
          var i :| LastBoundAt(init, i, name) && init[i].maxLength == Some(Lengths(init)[name]);
          assert LastBoundAt(cols, i, name);
        }
      }
    }
  }

  /** With distinct names in the metadata, each bounded column's entry in
      `column_lengths` is its own maximum length. */
  lemma LengthOfDistinct(cols: seq<SchemaRow>, i: nat)
    requires i < |cols| && IsBounded(cols[i])
    requires forall a, b :: 0 <= a < b < |cols| ==> cols[a].name != cols[b].name
    ensures cols[i].name in Lengths(cols) && Lengths(cols)[cols[i].name] == cols[i].maxLength.value
  {
    LengthsOfBounded(cols, cols[i].name);
    assert BoundAt(cols, i, cols[i].name);
    var w :| LastBoundAt(cols, w, cols[i].name) && cols[w].maxLength == Some(Lengths(cols)[cols[i].name]);
    assert w == i;
  }

  /** The reconciled frame has exactly the metadata's names after the first,
      in the metadata's order, whatever the file's columns and their order. */
  lemma ReconciledColumnsInSchemaOrder(t: Table, fetched: seq<SchemaRow>)
    requires |fetched| > 0
    ensures |Reconciled(t, fetched).columns| == |fetched| - 1
    ensures forall j :: 0 <= j < |fetched| - 1 ==>
      Reconciled(t, fetched).columns[j].name == fetched[j + 1].name
  {
    assert Names(Reconciled(t, fetched).columns) == ColumnNames(fetched[1..]);
  }

  /** No row is added or removed: every column of the result has one cell
      per row of the input. */
  lemma ReconciledKeepsRows(t: Table, fetched: seq<SchemaRow>)
    requires Rectangular(t)
    ensures Reconciled(t, fetched).rows == t.rows
    ensures Rectangular(Reconciled(t, fetched))
  {
    var r := Reconciled(t, fetched);
    forall j | 0 <= j < |r.columns|
      ensures |r.columns[j].cells| == t.rows
    {
      var n := r.columns[j].name;
      match Get(t.columns, n)
      case Some(cells) =>
        var w :| 0 <= w < |t.columns| && t.columns[w] == Column(n, cells);
      case None =>
    }
  }

  /** A bounded column holds strings, each the str() of the original cell
      (or of None for a column the file lacks) cut to the column's length,
      and so no longer than that length when it is not negative. */
  lemma BoundedColumnTruncated(t: Table, fetched: seq<SchemaRow>, j: nat, k: nat)
    requires j < |Reconciled(t, fetched).columns|
    requires Reconciled(t, fetched).columns[j].name in Lengths(SchemaTail(fetched))
    requires k < |Reconciled(t, fetched).columns[j].cells|
    ensures var n := Reconciled(t, fetched).columns[j].name;
            var len := Lengths(SchemaTail(fetched))[n];
            var cell := Reconciled(t, fetched).columns[j].cells[k];
            && k < |Source(t, n)|
            && cell == Str(PyPrefix(ToStr(Source(t, n)[k]), len))
            && (len >= 0 ==> |cell.text| <= len)
  {
  }

  /** A column with no length bound keeps the file's cells untouched. */
  lemma UnboundedColumnUnchanged(t: Table, fetched: seq<SchemaRow>, j: nat)
    requires j < |Reconciled(t, fetched).columns|
    requires Reconciled(t, fetched).columns[j].name !in Lengths(SchemaTail(fetched))
    requires Reconciled(t, fetched).columns[j].name in Names(t.columns)
    ensures Get(t.columns, Reconciled(t, fetched).columns[j].name)
            == Some(Reconciled(t, fetched).columns[j].cells)
  {
  }

  /** A column the file lacks is present; unbounded it holds only Nones,
      bounded it holds str(None) cut to the length, never None itself. */
  lemma MissingColumnFilled(t: Table, fetched: seq<SchemaRow>, j: nat)
    requires j < |Reconciled(t, fetched).columns|
    requires Reconciled(t, fetched).columns[j].name !in Names(t.columns)
    ensures var c := Reconciled(t, fetched).columns[j];
            var lengths := Lengths(SchemaTail(fetched));
            && c.name in MissingColumns(t, fetched)
            && |c.cells| == t.rows
            && (c.name !in lengths ==> forall k :: 0 <= k < t.rows ==> c.cells[k] == Null)
            && (c.name in lengths ==>
                  forall k :: 0 <= k < t.rows ==> c.cells[k] == Str(PyPrefix("None", lengths[c.name])))
  {
    var names := ColumnNames(SchemaTail(fetched));
    assert Reconciled(t, fetched).columns[j].name == names[j];
  }

  /** The first metadata row never names an output column, unless the same
      name comes again later; a file column of that name is dropped as extra. */
  lemma SurrogateColumnDropped(t: Table, fetched: seq<SchemaRow>)
    requires |fetched| > 0
    requires fetched[0].name !in ColumnNames(fetched[1..])
    ensures fetched[0].name !in Names(Reconciled(t, fetched).columns)
    ensures fetched[0].name in Names(t.columns) ==> fetched[0].name in ExtraColumns(t, fetched)
  {
  }

  /** Every file column is either kept (its name is a column name) or listed
      as extra, never both; no extra column survives; the missing columns are
      exactly the table's names the file lacks. */
  lemma {:induction false} ColumnsPartitioned(xs: seq<string>, ys: seq<string>)
    ensures multiset(Within(xs, ys)) + multiset(Without(xs, ys)) == multiset(xs)
    decreases |xs|
  {
    if |xs| > 0 {
      ColumnsPartitioned(xs[1..], ys);
      assert xs == [xs[0]] + xs[1..];
    }
  }

  lemma ExtraAndMissing(t: Table, fetched: seq<SchemaRow>)
    ensures var names := ColumnNames(SchemaTail(fetched));
            && multiset(Within(Names(t.columns), names)) + multiset(ExtraColumns(t, fetched))
               == multiset(Names(t.columns))
            && (forall n :: n in ExtraColumns(t, fetched) ==> n !in Names(Reconciled(t, fetched).columns))
            && (forall n :: n in MissingColumns(t, fetched) <==> n in names && n !in Names(t.columns))
  {
    ColumnsPartitioned(Names(t.columns), ColumnNames(SchemaTail(fetched)));
  }

  /** A file with header A,B,C and one row 1,2,3 against the columns
      [Id, B, D], D being varchar(2): the result has columns B and D; B keeps
      its cell, and D, missing and bounded, holds "None" cut to "No". */
  lemma MissingBoundedScenario()
    ensures var t := Table(1, [Column("A", [Scalar("1")]), Column("B", [Scalar("2")]), Column("C", [Scalar("3")])]);
            var fetched := [SchemaRow("Id", "int", None), SchemaRow("B", "int", None),
                            SchemaRow("D", "varchar", Some(2))];
            Reconciled(t, fetched) == Table(1, [Column("B", [Scalar("2")]), Column("D", [Str("No")])])
  {
    var t := Table(1, [Column("A", [Scalar("1")]), Column("B", [Scalar("2")]), Column("C", [Scalar("3")])]);
    var fetched := [SchemaRow("Id", "int", None), SchemaRow("B", "int", None),
                    SchemaRow("D", "varchar", Some(2))];
    var tail := SchemaTail(fetched);
    assert tail == [SchemaRow("B", "int", None), SchemaRow("D", "varchar", Some(2))];
    assert tail[..1] == [SchemaRow("B", "int", None)];
    assert Lengths(tail[..1]) == map[];
    assert Lengths(tail) == map["D" := 2];
    assert Get(t.columns, "B") == Some([Scalar("2")]);
    assert Get(t.columns, "D") == None;
    assert Source(t, "D") == [Null];
    assert PyPrefix("None", 2) == "No";
    assert Truncated([Null], 2) == [Str("No")];
    assert Final(t, Lengths(tail), "D") == [Str("No")];
  }

  /** A varchar(3) column holding "hello" and None becomes "hel" and "Non":
      the None is turned into the text "None" before it is cut. */
  lemma NullInBoundedColumnScenario()
    ensures var t := Table(2, [Column("V", [Str("hello"), Null])]);
            var fetched := [SchemaRow("Id", "int", None), SchemaRow("V", "varchar", Some(3))];
            Reconciled(t, fetched) == Table(2, [Column("V", [Str("hel"), Str("Non")])])
  {
    var t := Table(2, [Column("V", [Str("hello"), Null])]);
    var fetched := [SchemaRow("Id", "int", None), SchemaRow("V", "varchar", Some(3))];
    var tail := SchemaTail(fetched);
    assert tail == [SchemaRow("V", "varchar", Some(3))];
    assert tail[..0] == [];
    assert Lengths(tail) == map["V" := 3];
    assert Get(t.columns, "V") == Some([Str("hello"), Null]);
    assert PyPrefix("hello", 3) == "hel";
    assert PyPrefix("None", 3) == "Non";
    assert Truncated([Str("hello"), Null], 3) == [Str("hel"), Str("Non")];
    assert Final(t, Lengths(tail), "V") == [Str("hel"), Str("Non")];
  }
}
