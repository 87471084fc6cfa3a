/** What the result grid means: a table of cells that batches append rows to, and the text each cell
    is shown as. Nothing here knows about searching, windows or eviction. */
module GridSpec {
  import opened Wrappers

  const INT_MAX: nat := 0x7FFF_FFFF
  const OFFSET_BYTES: nat := 8

  /** Formatting happens in windows of this many rows. */
  const WINDOW_ROWS: nat := 1024

  function WindowOf(row: nat): nat { row / 1024 }

  function FirstOf(window: nat): nat { window * 1024 }

  datatype Options = Options(nullText: string, timestampStyle: int)

  /** One column of a batch: its cells, None for NULL, and whether they are text as they stand. */
  datatype Column = Column(direct: bool, cells: seq<Option<string>>)

  /** `Raw` needs the formatter; `Missing` is a cell the batch does not have. */
  datatype Cell = Null | Text(text: string) | Raw(raw: string) | Missing

  datatype Batch = Batch(first: nat, rows: nat, views: seq<Column>)

  /** The formatter behind the boundary, as the table of everything it may be asked: what it makes
      of a value, and which windows of which column it refuses to format. */
  datatype Formatter = Formatter(texts: map<(string, Options), string>, refused: set<(Column, nat, nat, Options)>)

  function Format(f: Formatter, s: string, o: Options): string {
    if (s, o) in f.texts then f.texts[(s, o)] else ""
  }

  const NO_COLUMN := Column(false, [])

  function CellOf(c: Column, r: nat): Cell {
    if r >= |c.cells| then Missing
    else if c.cells[r].None? then Null
    else if c.direct then Text(c.cells[r].value)
    else Raw(c.cells[r].value)
  }

  function RowOf(b: Batch, r: nat): seq<Cell> {
    seq(|b.views|, c requires 0 <= c < |b.views| => CellOf(b.views[c], r))
  }

  /** The columns a batch gives a result of `columns` columns. */
  function Views(batch: seq<Column>, columns: nat): (views: seq<Column>)
    ensures |views| == columns
  {
    seq(columns, c requires 0 <= c < columns => if c < |batch| then batch[c] else NO_COLUMN)
  }

  /** The first `rows` rows of a batch. */
  function RowsOf(b: Batch, rows: nat): seq<seq<Cell>> {
    seq(rows, r requires 0 <= r < rows => RowOf(b, r))
  }

  /** The rows of a batch come after what was there, cell by cell: column `c` of the result is column `c`
      of the batch, and nothing where the batch has no such column. */
  predicate AppendsRows(before: seq<seq<Cell>>, after: seq<seq<Cell>>, batch: seq<Column>, columns: nat, rows: nat) {
    && |after| == |before| + rows && after[..|before|] == before
    && (forall r | |before| <= r < |after| :: |after[r]| == columns)
    && (forall r, c | |before| <= r < |after| && 0 <= c < columns ::
          after[r][c] == if c < |batch| then CellOf(batch[c], r - |before|) else Missing)
  }

  lemma BatchIsAppended(before: seq<seq<Cell>>, batch: seq<Column>, columns: nat, first: nat, rows: nat)
    ensures AppendsRows(before, before + RowsOf(Batch(first, rows, Views(batch, columns)), rows), batch, columns, rows)
  {
    var b := Batch(first, rows, Views(batch, columns));
    var after := before + RowsOf(b, rows);
    forall r | |before| <= r < |after| ensures after[r] == RowOf(b, r - |before|) {
    }
    assert after[..|before|] == before;
  }

  /** Everything appended so far, row by row. */
  function Table(batches: seq<Batch>): seq<seq<Cell>> {
    if batches == [] then []
    else Table(batches[..|batches| - 1]) + RowsOf(batches[|batches| - 1], batches[|batches| - 1].rows)
  }

  /** What a cell is shown as; a cell in a window the formatter refuses is shown as nothing. */
  function Shown(f: Formatter, c: Cell, refused: bool, o: Options): string {
    match c
    case Null => o.nullText
    case Text(s) => s
    case Raw(s) => if refused then "" else Format(f, s, o)
    case Missing => ""
  }

  /** What a value of a batch is shown as: NULL as the text for it, text as it stands, anything else as
      the formatter makes it, and nothing where there is no value or the formatter refuses. */
  lemma ValueIsShownAs(f: Formatter, c: Column, r: nat, refused: bool, o: Options)
    ensures var text := Shown(f, CellOf(c, r), refused, o);
            if r >= |c.cells| then text == ""
            else match c.cells[r]
              case None => text == o.nullText
              case Some(v) =>
                text == if c.direct then v else if refused || (v, o) !in f.texts then "" else f.texts[(v, o)]
  {
  }

  // ------------------------------------------------------------------ the batches partition the rows

  function EndOf(batches: seq<Batch>): nat {
    if batches == [] then 0 else batches[|batches| - 1].first + batches[|batches| - 1].rows
  }

  predicate Partition(batches: seq<Batch>) {
    && (forall i | 0 <= i < |batches| :: batches[i].rows > 0)
    && (batches != [] ==> batches[0].first == 0)
    && (forall i, j | 0 <= i < |batches| && j == i + 1 < |batches| ::
       batches[j].first == batches[i].first + batches[i].rows)
  }

  predicate Holds(b: Batch, row: int) { b.first <= row < b.first + b.rows }

  lemma {:induction false} Ordered(batches: seq<Batch>, i: nat, j: nat)
    requires Partition(batches) && i < j < |batches|
    ensures batches[i].first + batches[i].rows <= batches[j].first
  {
    if i < j - 1 {
      Ordered(batches, i, j - 1);
    }
  }

  /** Every row is in exactly one batch. */
  lemma OneBatchPerRow(batches: seq<Batch>, row: int, i: nat, j: nat)
    requires Partition(batches) && i < |batches| && j < |batches| && Holds(batches[i], row) && Holds(batches[j], row)
    ensures i == j
  {
    if i < j {
      Ordered(batches, i, j);
    } else if j < i {
      Ordered(batches, j, i);
    }
  }

  lemma {:induction false} TableLength(batches: seq<Batch>)
    requires Partition(batches)
    ensures |Table(batches)| == EndOf(batches)
  {
    if batches != [] {
      TableLength(batches[..|batches| - 1]);
    }
  }

  lemma LastRows(batches: seq<Batch>, row: nat)
    requires Partition(batches) && batches != [] && Holds(batches[|batches| - 1], row)
    ensures row < |Table(batches)|
    ensures Table(batches)[row] == RowOf(batches[|batches| - 1], row - batches[|batches| - 1].first)
  {
    var init, last := batches[..|batches| - 1], batches[|batches| - 1];
    TableLength(init);
    var rows := RowsOf(last, last.rows);
    assert Table(batches) == Table(init) + rows && |Table(init)| == last.first;
    assert Table(batches)[row] == rows[row - last.first];
  }

  /** A row of the table is that row of the batch that holds it. */
  lemma {:induction false} TableRow(batches: seq<Batch>, i: nat, row: nat)
    requires Partition(batches) && i < |batches| && Holds(batches[i], row)
    ensures row < |Table(batches)| && Table(batches)[row] == RowOf(batches[i], row - batches[i].first)
  {
    var n := |batches| - 1;
    if i == n {
      LastRows(batches, row);
    } else {
      var init := batches[..n];
      TableRow(init, i, row);
      assert Table(batches) == Table(init) + RowsOf(batches[n], batches[n].rows);
    }
  }

  lemma PartitionAppend(batches: seq<Batch>, b: Batch)
    requires Partition(batches) && b.first == EndOf(batches) && b.rows > 0
    ensures Partition(batches + [b]) && EndOf(batches + [b]) == b.first + b.rows
    ensures Table(batches + [b]) == Table(batches) + RowsOf(b, b.rows)
  {
    var more := batches + [b];
    assert more[..|batches|] == batches;
  }
}
