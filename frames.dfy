/** The values the importer moves around: the cells and columns of a loaded
    data frame, the rows of the table's column metadata, and the two pieces of
    Python behaviour the reconciliation relies on (str() of a cell and the
    prefix slice s[:n]). */
module Frames {

  datatype Option<+T> = None | Some(value: T)

  datatype Result<+T, +E> = Success(value: T) | Failure(error: E)

  function Min(a: int, b: int): int { if a <= b then a else b }

  function Max(a: int, b: int): int { if a <= b then b else a }

  /** One cell of a loaded frame: Python's None, a string, or any other scalar
      the loader produced (a number, a boolean), carried with the text that
      str() gives for it. */
  datatype Cell = Null | Str(text: string) | Scalar(rendering: string)

  /** str(cell), as `astype(str)` computes it; str(None) is "None". */
  function ToStr(c: Cell): string
  {
    match c
    case Null => "None"
    case Str(s) => s
    case Scalar(r) => r
  }

  datatype Column = Column(name: string, cells: seq<Cell>)

  /** A data frame: the number of rows of its index and its columns in order.
      A frame keeps its row count even when it has no column left. */
  datatype Table = Table(rows: nat, columns: seq<Column>)

  /** Every column has one cell per row. */
  predicate Rectangular(t: Table)
  {
    forall j :: 0 <= j < |t.columns| ==> |t.columns[j].cells| == t.rows
  }

  /** `df.empty`: true when either axis has length zero. */
  predicate IsEmpty(t: Table)
  {
    t.rows == 0 || |t.columns| == 0
  }

  /** `df.columns.tolist()` */
  function Names(cols: seq<Column>): (r: seq<string>)
    ensures |r| == |cols|
    ensures forall j :: 0 <= j < |cols| ==> r[j] == cols[j].name
  {
    seq(|cols|, j requires 0 <= j < |cols| => cols[j].name)
  }

  /** `df[name]`: the cells of the first column with that name, if any. */
  function Get(cols: seq<Column>, name: string): (r: Option<seq<Cell>>)
    ensures r.Some? <==> name in Names(cols)
    ensures r.Some? ==> Column(name, r.value) in cols
  {
    if |cols| == 0 then None
    else if cols[0].name == name then Some(cols[0].cells)
    else
      NamesTail(cols);
      Get(cols[1..], name)
  }

  lemma NamesTail(cols: seq<Column>)
    requires |cols| > 0
    ensures Names(cols[1..]) == Names(cols)[1..]
  {
  }

  /** Putting a column in front: its name comes first, and it shadows any
      later column of the same name. */
  lemma Cons(c: Column, rest: seq<Column>)
    ensures Names([c] + rest) == [c.name] + Names(rest)
    ensures forall n :: Get([c] + rest, n) == if n == c.name then Some(c.cells) else Get(rest, n)
  {
    assert ([c] + rest)[1..] == rest;
  }

  /** `df[name] = cells`: replaces the column in place when the frame has
      one of that name, and otherwise appends a new last column. */
  function WithColumn(cols: seq<Column>, name: string, cells: seq<Cell>): (r: seq<Column>)
    ensures forall n :: Get(r, n) == if n == name then Some(cells) else Get(cols, n)
    ensures Names(r) == if name in Names(cols) then Names(cols) else Names(cols) + [name]
    decreases |cols|
  {
    if |cols| == 0 then [Column(name, cells)]
    else
      var c, tail := cols[0], cols[1..];
      assert cols == [c] + tail;
      Cons(c, tail);
      if c.name == name then
        Cons(Column(name, cells), tail);
        [Column(name, cells)] + tail
      else
        var rest := WithColumn(tail, name, cells);
        Cons(c, rest);
        [c] + rest
  }

  /** One row of the INFORMATION_SCHEMA.COLUMNS query:
      COLUMN_NAME, DATA_TYPE, CHARACTER_MAXIMUM_LENGTH (NULL for non-character types). */
  datatype SchemaRow = SchemaRow(name: string, dataType: string, maxLength: Option<int>)

  /** A `varchar`/`nvarchar` column whose length is neither NULL nor -1 (MAX). */
  predicate IsBounded(c: SchemaRow)
  {
    (c.dataType == "varchar" || c.dataType == "nvarchar")
    && c.maxLength.Some? && c.maxLength.value != -1
  }

  /** Python's `s[:n]`, including its meaning for a negative `n`
      (all but the last -n characters). */
  function PyPrefix(s: string, n: int): (r: string)
    ensures |r| <= |s| && r == s[..|r|]
    ensures n >= 0 ==> |r| == Min(n, |s|)
    ensures n < 0 ==> |r| == Max(0, |s| + n)
  {
    if n >= 0 then s[..Min(n, |s|)] else s[..Max(0, |s| + n)]
  }
}
