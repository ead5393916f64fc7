/** MetricsFormCreator: the empty grid of the metrics table, one row of ten
    stroked cells per day, drawn top-down from y = 575.8 at a pitch of
    17.6 points. Lengths are in hundredths of a point. */
module MetricsFormCreator {
  import opened Pdf

  const INITIAL_Y: int := 57580
  const ROW_HEIGHT: int := 1760

  /** (x, width) of the ten cells of a row, left to right. */
  const CELL_DIMENSIONS: seq<(int, int)> := [
    (4710, 3920), (8610, 3990), (12600, 4500), (17100, 4600), (21710, 3980),
    (25690, 4250), (29960, 4470), (34450, 4240), (38710, 4240), (42970, 13670)]

  /** The y of row i: each row sits one row height below the one before. */
  function GridRowY(row: int): int
  {
    INITIAL_Y - ROW_HEIGHT * row
  }

  /** The rectangle of one cell of a row at y. */
  function CellRect(cell: nat, y: int): DrawOp
    requires cell < 10
  {
    Rect(0, CELL_DIMENSIONS[cell].0, y, CELL_DIMENSIONS[cell].1, ROW_HEIGHT)
  }

  /** drawRow: the ten cells at y, in the order of CELL_DIMENSIONS. */
  function RowRects(y: int): seq<DrawOp>
  {
    seq(10, c requires 0 <= c < 10 => CellRect(c, y))
  }

  /** The rows drawRows draws: row 0 first. */
  function GridRects(rows: nat): seq<DrawOp>
  {
    if rows == 0 then [] else GridRects(rows - 1) + RowRects(GridRowY(rows - 1))
  }

  /** A negative row count draws nothing, as the for loop does not run. */
  function RowCount(numberOfRows: int): nat
  {
    if numberOfRows < 0 then 0 else numberOfRows
  }

  /** The value drawRows returns: the y below the last row. */
  function GridBottom(numberOfRows: int): int
  {
    INITIAL_Y - ROW_HEIGHT * RowCount(numberOfRows)
  }

  /** Rectangle k of the grid is cell k % 10 of row k / 10: ten per row, on
      page 0, with the row's y and the cell's x and width. */
  lemma {:induction false} GridRectsAt(rows: nat)
    ensures |GridRects(rows)| == 10 * rows
    ensures forall k :: 0 <= k < 10 * rows ==> GridRects(rows)[k] == CellRect(k % 10, GridRowY(k / 10))
  {
    if rows > 0 {
      GridRectsAt(rows - 1);
      var prev, last := GridRects(rows - 1), RowRects(GridRowY(rows - 1));
      forall k | 10 * (rows - 1) <= k < 10 * rows
        ensures GridRects(rows)[k] == CellRect(k % 10, GridRowY(k / 10))
      {
        var c := k - 10 * (rows - 1);
        assert k / 10 == rows - 1 && k % 10 == c;
        assert GridRects(rows)[k] == last[c];
      }
    }
  }

  /** Rows are drawn top-down and touch: row i + 1's top edge is row i's
      bottom edge, every row lies strictly below the rows before it, and
      the returned y is one row height below the lowest rectangle. */
  lemma RowsStackDownward(rows: nat, i: nat, j: nat)
    requires i < j
    ensures GridRowY(i + 1) + ROW_HEIGHT == GridRowY(i)
    ensures GridRowY(j) + ROW_HEIGHT * (j - i) == GridRowY(i)
    ensures rows > 0 ==> GridBottom(rows) + ROW_HEIGHT == GridRowY(rows - 1)
  {
  }

  /** The cells of a row run left to right; neighbours meet within 0.2
      points (the first two overlap by 0.2, others leave gaps of up to 0.2). */
  lemma CellsLeftToRight()
    ensures forall c :: 0 <= c < 9 ==> CELL_DIMENSIONS[c].0 < CELL_DIMENSIONS[c + 1].0
    ensures forall c :: 0 <= c < 9 ==>
              -20 <= CELL_DIMENSIONS[c + 1].0 - (CELL_DIMENSIONS[c].0 + CELL_DIMENSIONS[c].1) <= 20
    ensures CELL_DIMENSIONS[9].0 + CELL_DIMENSIONS[9].1 == 56640
  {
  }

  /** drawRow: ten cells at y, each on page 0. */
  method DrawRow(document: Document, y: int)
    modifies document
    ensures document.log == old(document.log) + RowRects(y)
    ensures document.pages == WithFirstPage(old(document.pages))
    ensures document.closed == old(document.closed)
  {
    for c := 0 to 10
      invariant document.log == old(document.log) + RowRects(y)[..c]
      invariant document.pages == (if c == 0 then old(document.pages) else WithFirstPage(old(document.pages)))
      invariant document.closed == old(document.closed)
    {
      document.DrawRect(CELL_DIMENSIONS[c].0, y, CELL_DIMENSIONS[c].1, ROW_HEIGHT);
      assert RowRects(y)[..c + 1] == RowRects(y)[..c] + [CellRect(c, y)];
    }
    assert RowRects(y)[..10] == RowRects(y);
  }

  /** drawRows: numberOfRows rows from INITIAL_Y down, returning the y
      below the last; no rows draws nothing and adds no page. */
  method DrawRows(document: Document, numberOfRows: int) returns (currentY: int)
    modifies document
    ensures currentY == GridBottom(numberOfRows)
    ensures document.log == old(document.log) + GridRects(RowCount(numberOfRows))
    ensures document.pages == (if numberOfRows > 0 then WithFirstPage(old(document.pages)) else old(document.pages))
    ensures document.closed == old(document.closed)
  {
    currentY := INITIAL_Y;
    var i := 0;
    while i < numberOfRows
      invariant 0 <= i <= RowCount(numberOfRows)
      invariant currentY == GridRowY(i)
      invariant document.log == old(document.log) + GridRects(i)
      invariant document.pages == (if i == 0 then old(document.pages) else WithFirstPage(old(document.pages)))
      invariant document.closed == old(document.closed)
    {
      DrawRow(document, currentY);
      currentY := currentY - ROW_HEIGHT;
      i := i + 1;
    }
  }

  /** create: the grid for numberOfRows days; returns where it ends. */
  method Create(document: Document, numberOfRows: int) returns (bottom: int)
    modifies document
    ensures bottom == GridBottom(numberOfRows)
    ensures document.log == old(document.log) + GridRects(RowCount(numberOfRows))
    ensures document.pages == (if numberOfRows > 0 then WithFirstPage(old(document.pages)) else old(document.pages))
    ensures document.closed == old(document.closed)
  {
    bottom := DrawRows(document, numberOfRows);
  }
}
