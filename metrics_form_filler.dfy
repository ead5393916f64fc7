/** MetricsFormFiller: writes the values into the metrics grid. The first
    column holds the day of the month, columns 1-6 the mean of each
    four-hour period, and the last three the maximum, the minimum and the
    standard deviation of the day. Row i is drawn at y = 580 - d(i) points,
    where d grows by 17 points plus an incrementer that gains 0.11 points
    after every even-numbered row. Lengths are in hundredths of a point. */
module MetricsFormFiller {
  import opened Common
  import opened Calendar
  import opened Domain
  import opened Pdf
  import opened Analytics
  import MetricsFormCreator

  const TITLE_X: int := 22500
  const TITLE_Y: int := 63300
  const CELL_ZERO_X: int := 6100
  const CELL_Y: int := 58000
  const CELL_X_POSITIONS: seq<int> := [9300, 13600, 18200, 22500, 26600, 30900, 35300, 39600, 48600]
  const FONT_SIZE: nat := 10
  /** The -1 getXPositionForPeriod answers for a label it does not know. */
  const NO_COLUMN: int := -100

  /* ---------- row positions ---------- */

  /** calculateDecrement: 17 points plus the incrementer. */
  function CalculateDecrement(incrementer: int, iteration: int): int
  {
    1700 + incrementer
  }

  /** updateIncrementer: 0.11 points more after an even iteration. */
  function UpdateIncrementer(incrementer: int, iteration: int): int
  {
    if iteration % 2 == 0 then incrementer + 11 else incrementer
  }

  /** The incrementer after i iterations of a fill loop. */
  function IncrementerAt(i: nat): int
  {
    if i == 0 then 0 else UpdateIncrementer(IncrementerAt(i - 1), i - 1)
  }

  /** The decrementer after i iterations of a fill loop. */
  function DecrementerAt(i: nat): int
  {
    if i == 0 then 0 else DecrementerAt(i - 1) + CalculateDecrement(IncrementerAt(i - 1), i - 1)
  }

  /** The y of the text of row i. */
  function RowY(i: nat): int
  {
    CELL_Y - DecrementerAt(i)
  }

  /** The incrementer has gained 0.11 points once per even iteration so far. */
  lemma {:induction false} IncrementerClosedForm(i: nat)
    ensures IncrementerAt(i) == 11 * ((i + 1) / 2)
  {
    if i > 0 {
      IncrementerClosedForm(i - 1);
    }
  }

  /** Row 2m lies 34.00m + 0.11m² points below the first, row 2m + 1 a
      further 17 + 0.11m points lower. */
  lemma {:induction false} DecrementerClosedForm(m: nat)
    ensures DecrementerAt(2 * m) == 3400 * m + 11 * (m * m)
    ensures DecrementerAt(2 * m + 1) == 3400 * m + 11 * (m * m) + 1700 + 11 * m
  {
    IncrementerClosedForm(2 * m);
    assert (2 * m + 1) / 2 == m;
    if m > 0 {
      DecrementerClosedForm(m - 1);
      IncrementerClosedForm(2 * m - 1);
      assert (2 * m - 1 + 1) / 2 == m;
      assert (m - 1) * (m - 1) == m * m - 2 * m + 1;
      assert DecrementerAt(2 * m) == DecrementerAt(2 * (m - 1) + 1) + 1700 + 11 * m;
    }
  }

  /** Rows step down by 17 points plus the incrementer, so the rows of the
      table are strictly ordered top to bottom. */
  lemma {:induction false} RowsDescend(i: nat, j: nat)
    requires i < j
    ensures RowY(i) - RowY(i + 1) == 1700 + 11 * ((i + 1) / 2)
    ensures RowY(j) <= RowY(i) - 1700 * (j - i)
    decreases j - i
  {
    IncrementerClosedForm(i);
    if j > i + 1 {
      RowsDescend(i + 1, j);
    }
  }

  /** Bounds on m² that keep the row arithmetic linear. */
  lemma SquareBounds(m: int)
    requires 0 <= m <= 14
    ensures m * m >= 10 * m - 25
    ensures m * m <= 14 * m
    ensures m <= 13 ==> m * m <= 13 * m
  {
    assert (m - 5) * (m - 5) == m * m - 10 * m + 25;
    assert (m - 5) * (m - 5) >= 0;
    assert m * m <= 14 * m by {
      assert m * (14 - m) >= 0;
    }
    if m <= 13 {
      assert m * (13 - m) >= 0;
    }
  }

  /** Row i's text lies within grid row i of the form (between its bottom
      edge and its top edge) for the first 28 rows; by row 28 the drift of
      the incrementer has carried it below the grid row. */
  lemma TextInsideGridRow(i: nat)
    requires i <= 28
    ensures i <= 27 ==>
              MetricsFormCreator.GridRowY(i) <= RowY(i) < MetricsFormCreator.GridRowY(i) + MetricsFormCreator.ROW_HEIGHT
    ensures i == 28 ==> RowY(i) < MetricsFormCreator.GridRowY(i)
  {
    var m := i / 2;
    assert i == 2 * m || i == 2 * m + 1;
    DecrementerClosedForm(m);
    SquareBounds(m);
    var sq := m * m;
    if i == 2 * m {
      assert DecrementerAt(i) == 3400 * m + 11 * sq;
    } else {
      assert DecrementerAt(i) == 3400 * m + 11 * sq + 1700 + 11 * m;
    }
  }

  /* ---------- columns ---------- */

  /** getXPositionForPeriod: the column of a period label. */
  function PeriodX(period: string): int
  {
    if period == "0-4h" then CELL_X_POSITIONS[0]
    else if period == "4-8h" then CELL_X_POSITIONS[1]
    else if period == "8-12h" then CELL_X_POSITIONS[2]
    else if period == "12-16h" then CELL_X_POSITIONS[3]
    else if period == "16-20h" then CELL_X_POSITIONS[4]
    else if period == "20-0h" then CELL_X_POSITIONS[5]
    else NO_COLUMN
  }

  /** The six period labels go to the six period columns in order; every
      other string gets the off-page column. */
  lemma PeriodColumns(period: string)
    ensures forall k :: 0 <= k < 6 ==> PeriodX(PERIOD_LABELS[k]) == CELL_X_POSITIONS[k]
    ensures PeriodX(period) != NO_COLUMN <==> period in PERIOD_LABELS
    ensures period in PERIOD_LABELS ==> PeriodX(period) in CELL_X_POSITIONS[..6]
  {
  }

  /** Every mean getMeans produces is keyed by one of the six labels. */
  lemma MeansArePeriodLabels(rs: seq<Reading>, day: int, period: string)
    requires day in MeansByDay(rs) && period in MeansByDay(rs)[day]
    ensures period in PERIOD_LABELS
  {
    MeansKeys(rs);
    var r :| r in rs && DayOf(r.timestamp) == day && PeriodOf(r.timestamp) == period;
    PeriodAndDayOfInstant(r.timestamp);
  }

  /* ---------- what the fill draws ---------- */

  /** addTitle: the reading type's name, in bold, above the table. */
  function Title(t: ReadingType): string
  {
    match t
    case Temperature => "TEMPERATURA (°C)"
    case Humidity => "UMIDADE (%)"
  }

  function TitleOp(t: ReadingType): DrawOp
  {
    Text(0, TITLE_X, TITLE_Y, Title(t), FONT_SIZE, true)
  }

  /** insertInCell with a regular font, in row i. */
  function CellText(x: int, i: nat, value: string): DrawOp
  {
    Text(0, x, RowY(i), value, FONT_SIZE, false)
  }

  /** addDayData: the numbers firstDay, firstDay + 1, ... in the first
      column, one per row; they count on past the end of the month. */
  function DayLabels(firstDay: int, rows: nat): (labels: seq<DrawOp>)
    ensures |labels| == rows
  {
    if rows == 0 then []
    else DayLabels(firstDay, rows - 1) + [CellText(CELL_ZERO_X, rows - 1, IntStr(firstDay + rows - 1))]
  }

  lemma DayLabelsStep(firstDay: int, i: nat)
    ensures DayLabels(firstDay, i + 1) == DayLabels(firstDay, i) + [CellText(CELL_ZERO_X, i, IntStr(firstDay + i))]
  {
  }

  /** Label i is firstDay + i, in the first column of row i. */
  lemma {:induction false} DayLabelsAt(firstDay: int, rows: nat)
    ensures |DayLabels(firstDay, rows)| == rows
    ensures forall i :: 0 <= i < rows ==> DayLabels(firstDay, rows)[i] == CellText(CELL_ZERO_X, i, IntStr(firstDay + i))
  {
    if rows > 0 {
      DayLabelsAt(firstDay, rows - 1);
    }
  }

  /** addMetricData: in column x, the formatted value of each day of the
      table that has one; a row whose day has none stays empty. */
  function MetricCells(metrics: map<int, real>, firstDay: int, rows: nat, x: int, fmt: real -> string): seq<DrawOp>
  {
    if rows == 0 then []
    else
      var day := firstDay + rows - 1;
      MetricCells(metrics, firstDay, rows - 1, x, fmt)
        + (if day in metrics then [CellText(x, rows - 1, fmt(metrics[day]))] else [])
  }

  /** A metric cell is drawn in the row of a day of the table exactly when
      the day has a value, and it shows that value. */
  lemma {:induction false} MetricCellsContent(metrics: map<int, real>, firstDay: int, rows: nat, x: int, fmt: real -> string)
    ensures forall day :: firstDay <= day < firstDay + rows && day in metrics ==>
              CellText(x, day - firstDay, fmt(metrics[day])) in MetricCells(metrics, firstDay, rows, x, fmt)
    ensures forall op :: op in MetricCells(metrics, firstDay, rows, x, fmt) ==>
              exists day :: firstDay <= day < firstDay + rows && day in metrics && op == CellText(x, day - firstDay, fmt(metrics[day]))
  {
    if rows > 0 {
      MetricCellsContent(metrics, firstDay, rows - 1, x, fmt);
    }
  }

  /** Each row holds at most one cell of a metric column. */
  lemma {:induction false} MetricCellsCount(metrics: map<int, real>, firstDay: int, rows: nat, x: int, fmt: real -> string)
    ensures |MetricCells(metrics, firstDay, rows, x, fmt)| <= rows
    ensures (forall day :: firstDay <= day < firstDay + rows ==> day in metrics) ==> |MetricCells(metrics, firstDay, rows, x, fmt)| == rows
  {
    if rows > 0 {
      MetricCellsCount(metrics, firstDay, rows - 1, x, fmt);
    }
  }

  /** The order in which the entries of one day's inner map are visited:
      each period once, or nothing for a day without an entry. */
  predicate EnumeratesRow(nested: map<int, map<string, real>>, day: int, order: seq<string>)
  {
    if day in nested then
      (forall a, b :: 0 <= a < b < |order| ==> order[a] != order[b])
      && (forall p :: p in order ==> p in nested[day])
      && (forall p :: p in nested[day] ==> p in order)
    else order == []
  }

  /** orders[i] is a visiting order of the row of day firstDay + i. */
  predicate EnumeratesRows(nested: map<int, map<string, real>>, firstDay: int, orders: seq<seq<string>>)
  {
    forall i :: 0 <= i < |orders| ==> EnumeratesRow(nested, firstDay + i, orders[i])
  }

  /** The cells of one row of the means, in the visiting order. */
  function RowCells(periods: map<string, real>, i: nat, order: seq<string>, fmt: real -> string): seq<DrawOp>
  {
    if order == [] then []
    else
      var p := order[|order| - 1];
      RowCells(periods, i, order[..|order| - 1], fmt)
        + (if p in periods then [CellText(PeriodX(p), i, fmt(periods[p]))] else [])
  }

  /** The cells addNestedMetricData draws in row i for day: none when the
      day has no entry. */
  function DayRowCells(nested: map<int, map<string, real>>, day: int, i: nat, order: seq<string>, fmt: real -> string): seq<DrawOp>
  {
    if day in nested then RowCells(nested[day], i, order, fmt) else []
  }

  /** addNestedMetricData: row by row, each period mean of the day in its
      period's column. orders[i] is the visiting order of row i. */
  function NestedCells(nested: map<int, map<string, real>>, firstDay: int, orders: seq<seq<string>>, fmt: real -> string): seq<DrawOp>
  {
    if orders == [] then []
    else
      var i := |orders| - 1;
      var day := firstDay + i;
      NestedCells(nested, firstDay, orders[..i], fmt) + DayRowCells(nested, day, i, orders[i], fmt)
  }

  /** Cell k of a row is the k-th visited period, at its column. */
  lemma {:induction false} RowCellsContent(periods: map<string, real>, i: nat, order: seq<string>, fmt: real -> string)
    requires forall p :: p in order ==> p in periods
    ensures |RowCells(periods, i, order, fmt)| == |order|
    ensures forall k :: 0 <= k < |order| ==>
              RowCells(periods, i, order, fmt)[k] == CellText(PeriodX(order[k]), i, fmt(periods[order[k]]))
  {
    if order != [] {
      RowCellsContent(periods, i, order[..|order| - 1], fmt);
    }
  }

  /** The last row's cells come after the others'. */
  lemma NestedCellsLast(nested: map<int, map<string, real>>, firstDay: int, orders: seq<seq<string>>, fmt: real -> string)
    requires orders != []
    ensures NestedCells(nested, firstDay, orders, fmt)
            == NestedCells(nested, firstDay, orders[..|orders| - 1], fmt)
               + DayRowCells(nested, firstDay + |orders| - 1, |orders| - 1, orders[|orders| - 1], fmt)
  {
  }

  /** A visited period's mean is among the row's cells, at its column. */
  lemma RowCellOfPeriod(periods: map<string, real>, i: nat, order: seq<string>, p: string, fmt: real -> string)
    requires forall q :: q in order ==> q in periods
    requires p in order
    ensures p in periods && CellText(PeriodX(p), i, fmt(periods[p])) in RowCells(periods, i, order, fmt)
  {
    var k :| 0 <= k < |order| && order[k] == p;
    RowCellsContent(periods, i, order, fmt);
    assert RowCells(periods, i, order, fmt)[k] == CellText(PeriodX(p), i, fmt(periods[p]));
  }

  /** Appending a row appends its cells. */
  lemma NestedCellsAppend(nested: map<int, map<string, real>>, firstDay: int, orders: seq<seq<string>>,
                          order: seq<string>, fmt: real -> string)
    requires EnumeratesRows(nested, firstDay, orders)
    requires EnumeratesRow(nested, firstDay + |orders|, order)
    ensures EnumeratesRows(nested, firstDay, orders + [order])
    ensures NestedCells(nested, firstDay, orders + [order], fmt)
            == NestedCells(nested, firstDay, orders, fmt) + DayRowCells(nested, firstDay + |orders|, |orders|, order, fmt)
  {
    var longer := orders + [order];
    assert longer[..|orders|] == orders;
    assert forall i :: 0 <= i < |orders| ==> longer[i] == orders[i];
  }

  /** A prefix of visiting orders is a visiting order of the first rows. */
  lemma EnumeratesRowsPrefix(nested: map<int, map<string, real>>, firstDay: int, orders: seq<seq<string>>, n: nat)
    requires EnumeratesRows(nested, firstDay, orders) && n <= |orders|
    ensures EnumeratesRows(nested, firstDay, orders[..n])
  {
    assert forall k :: 0 <= k < n ==> orders[..n][k] == orders[k];
  }

  /** The period mean of one day of the table is drawn in that day's row
      and its period's column. */
  lemma {:induction false} NestedCellDrawn(nested: map<int, map<string, real>>, firstDay: int, orders: seq<seq<string>>,
                                           day: int, p: string, fmt: real -> string)
    requires EnumeratesRows(nested, firstDay, orders)
    requires firstDay <= day < firstDay + |orders| && day in nested && p in nested[day]
    ensures CellText(PeriodX(p), day - firstDay, fmt(nested[day][p])) in NestedCells(nested, firstDay, orders, fmt)
  {
    var i := |orders| - 1;
    if day == firstDay + i {
      var order := orders[i];
      assert (forall q :: q in order ==> q in nested[day]) && p in order by {
        assert EnumeratesRow(nested, firstDay + i, orders[i]);
      }
      RowCellOfPeriod(nested[day], i, order, p, fmt);
      assert DayRowCells(nested, firstDay + i, i, order, fmt) == RowCells(nested[day], i, order, fmt);
    } else {
      EnumeratesRowsPrefix(nested, firstDay, orders, i);
      NestedCellDrawn(nested, firstDay, orders[..i], day, p, fmt);
    }
    NestedCellsLast(nested, firstDay, orders, fmt);
  }

  /** Every period mean of every day of the table is drawn in that day's
      row and its period's column. */
  lemma {:induction false} NestedCellsComplete(nested: map<int, map<string, real>>, firstDay: int, orders: seq<seq<string>>, fmt: real -> string)
    requires EnumeratesRows(nested, firstDay, orders)
    ensures forall day, p :: firstDay <= day < firstDay + |orders| && day in nested && p in nested[day] ==>
              CellText(PeriodX(p), day - firstDay, fmt(nested[day][p])) in NestedCells(nested, firstDay, orders, fmt)
  {
    forall day, p | firstDay <= day < firstDay + |orders| && day in nested && p in nested[day] {
      NestedCellDrawn(nested, firstDay, orders, day, p, fmt);
    }
  }

  /** A drawn cell is the period mean of a day of the table, in that day's
      row and its period's column. */
  lemma {:induction false} NestedCellSource(nested: map<int, map<string, real>>, firstDay: int, orders: seq<seq<string>>,
                                            op: DrawOp, fmt: real -> string)
    requires EnumeratesRows(nested, firstDay, orders)
    requires op in NestedCells(nested, firstDay, orders, fmt)
    ensures exists day, p :: firstDay <= day < firstDay + |orders| && day in nested && p in nested[day]
                             && op == CellText(PeriodX(p), day - firstDay, fmt(nested[day][p]))
  {
    var i := |orders| - 1;
    var last := firstDay + i;
    var front := NestedCells(nested, firstDay, orders[..i], fmt);
    var row := DayRowCells(nested, last, i, orders[i], fmt);
    NestedCellsLast(nested, firstDay, orders, fmt);
    if op in front {
      EnumeratesRowsPrefix(nested, firstDay, orders, i);
      NestedCellSource(nested, firstDay, orders[..i], op, fmt);
    } else {
      assert last in nested;
      assert EnumeratesRow(nested, last, orders[i]);
      RowCellsContent(nested[last], i, orders[i], fmt);
      var k :| 0 <= k < |row| && row[k] == op;
      var p := orders[i][k];
      assert p in nested[last];
      assert op == CellText(PeriodX(p), last - firstDay, fmt(nested[last][p]));
    }
  }

  /** A cell at a period label's column is a regular text in one of the
      six period columns. */
  lemma LabelCell(nested: map<int, map<string, real>>, day: int, p: string, op: DrawOp, i: nat, value: string)
    requires forall d, q :: d in nested && q in nested[d] ==> q in PERIOD_LABELS
    requires day in nested && p in nested[day] && op == CellText(PeriodX(p), i, value)
    ensures op.Text? && op.x in CELL_X_POSITIONS[..6] && op.x != NO_COLUMN
    ensures op.size == FONT_SIZE && !op.bold && op.page == 0
  {
    assert p in PERIOD_LABELS;
    PeriodColumns(p);
  }

  /** When every inner key is a period label, every cell of the period
      means is a regular text in one of the six period columns, never at
      the -1 column. */
  lemma NestedCellsInPeriodColumns(nested: map<int, map<string, real>>, firstDay: int, orders: seq<seq<string>>,
                                   op: DrawOp, fmt: real -> string)
    requires EnumeratesRows(nested, firstDay, orders)
    requires forall day, p :: day in nested && p in nested[day] ==> p in PERIOD_LABELS
    requires op in NestedCells(nested, firstDay, orders, fmt)
    ensures op.Text? && op.x in CELL_X_POSITIONS[..6] && op.x != NO_COLUMN
    ensures op.size == FONT_SIZE && !op.bold && op.page == 0
  {
    NestedCellSource(nested, firstDay, orders, op, fmt);
    var day, p :| firstDay <= day < firstDay + |orders| && day in nested && p in nested[day]
                  && op == CellText(PeriodX(p), day - firstDay, fmt(nested[day][p]));
    LabelCell(nested, day, p, op, day - firstDay, fmt(nested[day][p]));
  }

  /** The means of a reading list fill only the period columns. */
  lemma MeanCellsInPeriodColumns(rs: seq<Reading>, firstDay: int, orders: seq<seq<string>>, op: DrawOp, fmt: real -> string)
    requires EnumeratesRows(MeansByDay(rs), firstDay, orders)
    requires op in NestedCells(MeansByDay(rs), firstDay, orders, fmt)
    ensures op.Text? && op.x in CELL_X_POSITIONS[..6]
  {
    forall day, p | day in MeansByDay(rs) && p in MeansByDay(rs)[day]
      ensures p in PERIOD_LABELS
    {
      MeansArePeriodLabels(rs, day, p);
    }
    NestedCellsInPeriodColumns(MeansByDay(rs), firstDay, orders, op, fmt);
  }

  /** A day's value is drawn on the row that carries the day's label. */
  lemma DayValueBesideLabel(metrics: map<int, real>, firstDay: int, rows: nat, x: int, fmt: real -> string, day: int)
    requires firstDay <= day < firstDay + rows && day in metrics
    ensures var i := day - firstDay;
            DayLabels(firstDay, rows)[i] == CellText(CELL_ZERO_X, i, IntStr(day))
            && CellText(x, i, fmt(metrics[day])) in MetricCells(metrics, firstDay, rows, x, fmt)
  {
    DayLabelsAt(firstDay, rows);
    MetricCellsContent(metrics, firstDay, rows, x, fmt);
  }

  /** The whole content fill adds after the title, in drawing order. */
  function FillCells(rs: seq<Reading>, firstDay: int, rows: nat, orders: seq<seq<string>>,
                     fmt: real -> string, sqrt: real -> real): seq<DrawOp>
  {
    DayLabels(firstDay, rows)
      + NestedCells(MeansByDay(rs), firstDay, orders, fmt)
      + MetricCells(ByDay(rs, Deviation(sqrt)), firstDay, rows, CELL_X_POSITIONS[8], fmt)
      + MetricCells(ByDay(rs, Minimum), firstDay, rows, CELL_X_POSITIONS[7], fmt)
      + MetricCells(ByDay(rs, Maximum), firstDay, rows, CELL_X_POSITIONS[6], fmt)
  }

  /** A row whose day is past the 31st gets its label but no value: the
      statistics are keyed by day of the month, which never exceeds 31. */
  lemma NoValuesPastDay31(rs: seq<Reading>, stat: DayStatistic, day: int)
    requires day > 31 || day < 1
    ensures day !in ByDay(rs, stat) && day !in MeansByDay(rs)
  {
    ByDayKeys(rs, stat);
    MeansKeys(rs);
    if r :| r in rs && DayOf(r.timestamp) == day {
      PeriodAndDayOfInstant(r.timestamp);
    }
  }

  /* ---------- the drawing methods ---------- */

  method AddTitle(document: Document, t: ReadingType)
    modifies document
    ensures document.log == old(document.log) + [TitleOp(t)]
    ensures document.pages == WithFirstPage(old(document.pages)) && document.closed == old(document.closed)
  {
    document.DrawText(TITLE_X, TITLE_Y, Title(t), FONT_SIZE, true);
  }

  /** addDayData: the days of the table, firstDay being the start date's
      day of the month. */
  method AddDayData(document: Document, firstDay: int, numberOfDays: int)
    modifies document
    ensures document.log == old(document.log) + DayLabels(firstDay, MetricsFormCreator.RowCount(numberOfDays))
    ensures document.pages == (if numberOfDays > 0 then WithFirstPage(old(document.pages)) else old(document.pages))
    ensures document.closed == old(document.closed)
  {
    var decrementer, incrementer := 0, 0;
    ghost var rows := MetricsFormCreator.RowCount(numberOfDays);
    ghost var labels: seq<DrawOp> := [];
    var i := 0;
    while i < numberOfDays
      invariant 0 <= i <= rows
      invariant decrementer == DecrementerAt(i) && incrementer == IncrementerAt(i)
      invariant labels == DayLabels(firstDay, i)
      invariant document.log == old(document.log) + labels
      invariant document.pages == (if i == 0 then old(document.pages) else WithFirstPage(old(document.pages)))
      invariant document.closed == old(document.closed)
    {
      ghost var dayLabel := CellText(CELL_ZERO_X, i, IntStr(firstDay + i));
      DayLabelsStep(firstDay, i);
      document.DrawText(CELL_ZERO_X, CELL_Y - decrementer, IntStr(firstDay + i), FONT_SIZE, false);
      assert document.log == old(document.log) + labels + [dayLabel];
      AppendAssociates(old(document.log), labels, [dayLabel]);
      labels := labels + [dayLabel];
      decrementer := decrementer + CalculateDecrement(incrementer, i);
      incrementer := UpdateIncrementer(incrementer, i);
      i := i + 1;
    }
    assert i == rows;
  }

  /** addMetricData with a column that does not depend on the day;
      firstDay is the start date's day of the month. */
  method AddMetricData(document: Document, metrics: map<int, real>, firstDay: int, numberOfDays: int,
                       x: int, fmt: real -> string)
    modifies document
    ensures document.log == old(document.log) + MetricCells(metrics, firstDay, MetricsFormCreator.RowCount(numberOfDays), x, fmt)
    ensures document.pages == old(document.pages) || document.pages == WithFirstPage(old(document.pages))
    ensures document.closed == old(document.closed)
  {
    var decrementer, incrementer := 0, 0;
    var day := firstDay;
    ghost var cells: seq<DrawOp> := [];
    var i := 0;
    while i < numberOfDays
      invariant 0 <= i <= MetricsFormCreator.RowCount(numberOfDays)
      invariant day == firstDay + i
      invariant decrementer == DecrementerAt(i) && incrementer == IncrementerAt(i)
      invariant cells == MetricCells(metrics, firstDay, i, x, fmt)
      invariant document.log == old(document.log) + cells
      invariant document.pages == old(document.pages) || document.pages == WithFirstPage(old(document.pages))
      invariant document.closed == old(document.closed)
    {
      ghost var cell := if day in metrics then [CellText(x, i, fmt(metrics[day]))] else [];
      if day in metrics {
        document.DrawText(x, CELL_Y - decrementer, fmt(metrics[day]), FONT_SIZE, false);
      }
      AppendAssociates(old(document.log), cells, cell);
      cells := cells + cell;
      decrementer := decrementer + CalculateDecrement(incrementer, i);
      incrementer := UpdateIncrementer(incrementer, i);
      day := day + 1;
      i := i + 1;
    }
  }

  /** addNestedMetricData, firstDay being the start date's day of the
      month. A HashMap's entry order is not specified, so the method
      returns the order in which it visited each row's periods. */
  method AddNestedMetricData(document: Document, nested: map<int, map<string, real>>, firstDay: int,
                             numberOfDays: int, fmt: real -> string) returns (orders: seq<seq<string>>)
    modifies document
    ensures |orders| == MetricsFormCreator.RowCount(numberOfDays)
    ensures EnumeratesRows(nested, firstDay, orders)
    ensures document.log == old(document.log) + NestedCells(nested, firstDay, orders, fmt)
    ensures document.pages == old(document.pages) || document.pages == WithFirstPage(old(document.pages))
    ensures document.closed == old(document.closed)
  {
    var decrementer, incrementer := 0, 0;
    var day := firstDay;
    orders := [];
    ghost var cells: seq<DrawOp> := [];
    var i := 0;
    while i < numberOfDays
      invariant 0 <= i <= MetricsFormCreator.RowCount(numberOfDays)
      invariant day == firstDay + |orders| && |orders| == i
      invariant decrementer == DecrementerAt(i) && incrementer == IncrementerAt(i)
      invariant EnumeratesRows(nested, firstDay, orders)
      invariant cells == NestedCells(nested, firstDay, orders, fmt)
      invariant document.log == old(document.log) + cells
      invariant document.pages == old(document.pages) || document.pages == WithFirstPage(old(document.pages))
      invariant document.closed == old(document.closed)
    {
      var order := AddDayRow(document, nested, day, |orders|, CELL_Y - decrementer, fmt);
      ghost var row := DayRowCells(nested, day, |orders|, order, fmt);
      NestedCellsAppend(nested, firstDay, orders, order, fmt);
      AppendAssociates(old(document.log), cells, row);
      orders := orders + [order];
      cells := cells + row;
      decrementer := decrementer + CalculateDecrement(incrementer, i);
      incrementer := UpdateIncrementer(incrementer, i);
      day := day + 1;
      i := i + 1;
    }
  }

  /** One iteration of addNestedMetricData: the day's entries, if it has any. */
  method AddDayRow(document: Document, nested: map<int, map<string, real>>, day: int, i: nat, y: int,
                   fmt: real -> string) returns (order: seq<string>)
    requires y == RowY(i)
    modifies document
    ensures EnumeratesRow(nested, day, order)
    ensures document.log == old(document.log) + DayRowCells(nested, day, i, order, fmt)
    ensures document.pages == old(document.pages) || document.pages == WithFirstPage(old(document.pages))
    ensures document.closed == old(document.closed)
  {
    order := [];
    if day in nested {
      order := AddRow(document, nested[day], i, y, fmt);
    }
  }

  /** The inner loop of addNestedMetricData over one day's entries. */
  method AddRow(document: Document, periods: map<string, real>, i: nat, y: int, fmt: real -> string)
    returns (order: seq<string>)
    requires y == RowY(i)
    modifies document
    ensures (forall a, b :: 0 <= a < b < |order| ==> order[a] != order[b])
    ensures forall p :: p in order <==> p in periods
    ensures document.log == old(document.log) + RowCells(periods, i, order, fmt)
    ensures document.pages == old(document.pages) || document.pages == WithFirstPage(old(document.pages))
    ensures document.closed == old(document.closed)
  {
    var remaining := periods.Keys;
    order := [];
    ghost var cells: seq<DrawOp> := [];
    while remaining != {}
      invariant remaining <= periods.Keys
      invariant forall p :: p in order <==> p in periods && p !in remaining
      invariant forall a, b :: 0 <= a < b < |order| ==> order[a] != order[b]
      invariant cells == RowCells(periods, i, order, fmt)
      invariant document.log == old(document.log) + cells
      invariant document.pages == old(document.pages) || document.pages == WithFirstPage(old(document.pages))
      invariant document.closed == old(document.closed)
      decreases remaining
    {
      var p :| p in remaining;
      document.DrawText(PeriodX(p), y, fmt(periods[p]), FONT_SIZE, false);
      ghost var cell := [CellText(PeriodX(p), i, fmt(periods[p]))];
      AppendAssociates(old(document.log), cells, cell);
      assert (order + [p])[..|order|] == order;
      order := order + [p];
      cells := cells + cell;
      remaining := remaining - {p};
    }
  }

  /** fill: the title, then the statistics of the readings (each call sorts
      the caller's list by time), then the day column, the period means and
      the standard deviation, minimum and maximum columns. endDate is not
      used. */
  method Fill(document: Document, startDate: Date, endDate: Date, numberOfDays: int, t: ReadingType,
              readings: ReadingList, fmt: real -> string, sqrt: real -> real)
    returns (orders: seq<seq<string>>)
    modifies document, readings
    ensures readings.items == SortByTime(old(readings.items))
    ensures |orders| == MetricsFormCreator.RowCount(numberOfDays)
    ensures EnumeratesRows(MeansByDay(readings.items), Civil(startDate).day, orders)
    ensures document.log == old(document.log) + [TitleOp(t)]
              + FillCells(readings.items, Civil(startDate).day, MetricsFormCreator.RowCount(numberOfDays), orders, fmt, sqrt)
    ensures document.pages == WithFirstPage(old(document.pages)) && document.closed == old(document.closed)
  {
    AddTitle(document, t);
    var means := GetMeans(readings);
    ghost var sorted := readings.items;
    SortSortedIsIdentity(sorted);
    var standardDeviations := GetStandardDeviation(readings, sqrt);
    var minMeasures := GetMin(readings);
    var maxMeasures := GetMax(readings);
    assert readings.items == sorted;
    var firstDay := Civil(startDate).day;
    ghost var rows := MetricsFormCreator.RowCount(numberOfDays);
    ghost var log1 := document.log;
    AddDayData(document, firstDay, numberOfDays);
    orders := AddNestedMetricData(document, means, firstDay, numberOfDays, fmt);
    AddMetricData(document, standardDeviations, firstDay, numberOfDays, CELL_X_POSITIONS[8], fmt);
    AddMetricData(document, minMeasures, firstDay, numberOfDays, CELL_X_POSITIONS[7], fmt);
    AddMetricData(document, maxMeasures, firstDay, numberOfDays, CELL_X_POSITIONS[6], fmt);
    ghost var a := DayLabels(firstDay, rows);
    ghost var b := NestedCells(MeansByDay(sorted), firstDay, orders, fmt);
    ghost var c := MetricCells(ByDay(sorted, Deviation(sqrt)), firstDay, rows, CELL_X_POSITIONS[8], fmt);
    ghost var d := MetricCells(ByDay(sorted, Minimum), firstDay, rows, CELL_X_POSITIONS[7], fmt);
    ghost var e := MetricCells(ByDay(sorted, Maximum), firstDay, rows, CELL_X_POSITIONS[6], fmt);
    AppendAssociates(log1, a, b);
    AppendAssociates(log1, a + b, c);
    AppendAssociates(log1, a + b + c, d);
    AppendAssociates(log1, a + b + c + d, e);
  }
}
