/** ReportService: checks the requested period, asks for each device's
    readings in the period's window, and builds one report per device that
    has readings: the template filled in order (grid, header, grid cells,
    charts and signature, paragraph), saved, Base64-encoded behind a PDF
    data-URI prefix, and named after the reading type, the dates and the
    device. */
module ReportService {
  import opened Common
  import opened Calendar
  import opened Domain
  import opened Base64
  import opened Pdf
  import opened Analytics
  import Template
  import Signature
  import MetricsFormCreator
  import MetricsFormFiller
  import Header
  import Paragraph

  /* ---------- the period ---------- */

  const TOO_LONG_MESSAGE: string := "O período compreendido no relatório não deve ultrapassar 15 dias"
  const TOO_SHORT_MESSAGE: string := "O período compreendido no relatório não deve ser menor do que 1 dia"

  /** The longest accepted distance between the start and the end date. */
  const MAX_DAYS_BETWEEN: int := 14

  datatype PeriodError = InvalidTimePeriod(message: string)

  /** The two checks at the top of getAllReports, in their order: more than
      14 days between the dates, then an end before the start. On success,
      the number of days between the dates. */
  function ValidatePeriod(start: Date, end: Date): (r: Result<int, PeriodError>)
    ensures r.Ok? <==> start <= end && end - start <= MAX_DAYS_BETWEEN
    ensures r.Ok? ==> 1 <= InclusiveDayCount(start, end) == r.value + 1 <= MAX_DAYS_BETWEEN + 1
    ensures r.Err? ==> r.error.message == if start <= end then TOO_LONG_MESSAGE else TOO_SHORT_MESSAGE
  {
    var daysBetween := end - start;
    if daysBetween > 14 then Err(InvalidTimePeriod(TOO_LONG_MESSAGE))
    else if daysBetween < 0 then Err(InvalidTimePeriod(TOO_SHORT_MESSAGE))
    else Ok(daysBetween)
  }

  /** An accepted period has at most 15 grid rows, so the charts clear the
      signature and the paragraph begins on the first page, above the
      bottom margin, at its own y. */
  lemma AcceptedPeriodFitsFirstPage(start: Date, end: Date)
    requires ValidatePeriod(start, end).Ok?
    ensures var n := InclusiveDayCount(start, end);
            var charts := Template.ChartsY(MetricsFormCreator.GridBottom(n));
            Template.SIGNATURE_Y + Template.SIGNATURE_HEIGHT < charts
            && Paragraph.BOTTOM_MARGIN < Template.ParagraphY(charts)
            && Paragraph.LineY(Template.ParagraphY(charts)) == Template.ParagraphY(charts)
  {
    Template.ParagraphStartsOnFirstPage(InclusiveDayCount(start, end));
  }

  /* ---------- the query window ---------- */

  const THREE_MINUTES: int := 180

  /** The instants asked for: from the start of the start date in Sao Paulo
      to three minutes before the end of the end date. */
  function QueryWindow(start: Date, end: Date): (w: (Instant, Instant))
    ensures w.1 == GetMoment(end + 1) - THREE_MINUTES
  {
    (GetMoment(start), GetMoment(end) + SECONDS_PER_DAY - THREE_MINUTES)
  }

  /** Seconds since local midnight in Sao Paulo. */
  function SecondOfDay(t: Instant): (s: int)
    ensures 0 <= s < SECONDS_PER_DAY
  {
    (t + SAO_PAULO_OFFSET) % SECONDS_PER_DAY
  }

  /** An instant is in the window exactly when its local date lies in the
      period and, on the end date, it is no later than 23:57:00. */
  lemma QueryWindowMeans(start: Date, end: Date, t: Instant)
    ensures var w := QueryWindow(start, end);
            var day := LocalDateOf(t, SAO_PAULO_OFFSET);
            (w.0 <= t <= w.1)
            <==> (start <= day <= end && (day < end || SecondOfDay(t) <= SECONDS_PER_DAY - THREE_MINUTES))
  {
    var u := t + SAO_PAULO_OFFSET;
    var day, second := u / SECONDS_PER_DAY, u % SECONDS_PER_DAY;
    assert u == SECONDS_PER_DAY * day + second;
    assert LocalDateOf(t, SAO_PAULO_OFFSET) == day && SecondOfDay(t) == second;
  }

  /* ---------- the file name ---------- */

  const FILE_NAME_PREFIX: string := "Relatório de "

  /** generateFileName, with both dates as "dd.MM". */
  function GenerateFileName(device: Device, start: Date, end: Date, t: ReadingType): string
  {
    FILE_NAME_PREFIX + ReadingTypeCode(t) + " " + DayMonth(start, '.') + " a " + DayMonth(end, '.')
    + " " + device.sector + " " + device.typeOfEquipment
  }

  /** A name put together as generateFileName puts it together reads back
      field by field, whatever the fields hold, as long as both dates take
      five characters. */
  lemma NameFields(prefix: string, code: string, first: string, last: string, sector: string, equipment: string)
    requires |first| == 5 && |last| == 5
    ensures var name := prefix + code + " " + first + " a " + last + " " + sector + " " + equipment;
            var k := |prefix| + |code|;
            var s := k + 15;
            var e := s + |sector|;
            |name| == e + 1 + |equipment|
            && name[..|prefix|] == prefix && name[|prefix|..k] == code
            && name[k + 1..k + 6] == first && name[k + 6..k + 9] == " a "
            && name[k + 9..k + 14] == last
            && name[k] == name[k + 14] == name[e] == ' '
            && name[s..e] == sector && name[e + 1..] == equipment
  {
  }

  /** The name reads back field by field: the type code after the prefix,
      then the two dates, the sector and the equipment type. */
  lemma FileNameFields(device: Device, start: Date, end: Date, t: ReadingType)
    ensures var name, code := GenerateFileName(device, start, end, t), ReadingTypeCode(t);
            var k := |FILE_NAME_PREFIX| + |code|;
            var s := k + 15;
            var e := s + |device.sector|;
            |name| == e + 1 + |device.typeOfEquipment|
            && name[..|FILE_NAME_PREFIX|] == FILE_NAME_PREFIX && name[|FILE_NAME_PREFIX|..k] == code
            && name[k + 1..k + 6] == DayMonth(start, '.') && name[k + 6..k + 9] == " a "
            && name[k + 9..k + 14] == DayMonth(end, '.')
            && name[k] == name[k + 14] == name[e] == ' '
            && name[s..e] == device.sector && name[e + 1..] == device.typeOfEquipment
  {
    assert |DayMonth(start, '.')| == 5 by { DayMonthFields(start, '.'); }
    assert |DayMonth(end, '.')| == 5 by { DayMonthFields(end, '.'); }
    NameFields(FILE_NAME_PREFIX, ReadingTypeCode(t), DayMonth(start, '.'), DayMonth(end, '.'),
               device.sector, device.typeOfEquipment);
  }

  /** The character after the prefix tells the reading type apart. */
  lemma TypeInitialInName(device: Device, start: Date, end: Date, t: ReadingType)
    ensures GenerateFileName(device, start, end, t)[|FILE_NAME_PREFIX|] == if t == Temperature then 't' else 'h'
  {
    var code := ReadingTypeCode(t);
    assert code[0] == if t == Temperature then 't' else 'h';
    FileNameFields(device, start, end, t);
    assert GenerateFileName(device, start, end, t)[|FILE_NAME_PREFIX|..|FILE_NAME_PREFIX| + |code|] == code;
  }

  /** Two equal names have the same reading type and the same day and month
      for both dates; for a one-day period the date appears twice. */
  lemma FileNameDeterminesTypeAndDates(d1: Device, s1: Date, e1: Date, t1: ReadingType,
                                       d2: Device, s2: Date, e2: Date, t2: ReadingType)
    requires GenerateFileName(d1, s1, e1, t1) == GenerateFileName(d2, s2, e2, t2)
    ensures t1 == t2
    ensures Civil(s1).day == Civil(s2).day && Civil(s1).month == Civil(s2).month
    ensures Civil(e1).day == Civil(e2).day && Civil(e1).month == Civil(e2).month
  {
    var name := GenerateFileName(d1, s1, e1, t1);
    var p := |FILE_NAME_PREFIX|;
    TypeInitialInName(d1, s1, e1, t1);
    TypeInitialInName(d2, s2, e2, t2);
    var k := p + |ReadingTypeCode(t1)|;
    assert DayMonth(s1, '.') == DayMonth(s2, '.') && DayMonth(e1, '.') == DayMonth(e2, '.') by {
      FileNameFields(d1, s1, e1, t1);
      FileNameFields(d2, s2, e2, t2);
      assert DayMonth(s1, '.') == name[k + 1..k + 6] == DayMonth(s2, '.');
      assert DayMonth(e1, '.') == name[k + 9..k + 14] == DayMonth(e2, '.');
    }
    DayMonthDetermines(s1, s2, '.');
    DayMonthDetermines(e1, e2, '.');
  }

  /** When start == end the date token appears twice. */
  lemma OneDayFileName(device: Device, day: Date, t: ReadingType)
    ensures var name, k := GenerateFileName(device, day, day, t), |FILE_NAME_PREFIX| + |ReadingTypeCode(t)|;
            name[k + 1..k + 6] == name[k + 9..k + 14] == DayMonth(day, '.')
  {
    FileNameFields(device, day, day, t);
  }

  /* ---------- the encoded file ---------- */

  const PDF_URI_PREFIX: string := "data:application/pdf;base64,"

  /** The encoded file: the prefix, then the Base64 of the saved bytes. */
  function EncodedFile(pdfBytes: seq<byte>): string
  {
    PDF_URI_PREFIX + Encode(pdfBytes)
  }

  /** The encoded file carries the prefix, whose last character is its only
      comma, and the text after that comma decodes to the saved bytes. */
  lemma EncodedFileRoundTrip(pdfBytes: seq<byte>)
    ensures var s := EncodedFile(pdfBytes);
            var p := |PDF_URI_PREFIX|;
            StartsWith(s, PDF_URI_PREFIX) && IndexOf(s, ',') == p - 1
            && Decode(s[p..]) == Some(pdfBytes)
  {
    var s := EncodedFile(pdfBytes);
    var p := |PDF_URI_PREFIX|;
    EncodeShape(pdfBytes);
    DecodeEncode(pdfBytes);
    assert s[..p] == PDF_URI_PREFIX && s[p..] == Encode(pdfBytes);
    assert s == PDF_URI_PREFIX[..p - 1] + [','] + Encode(pdfBytes);
    IndexOfFirst(PDF_URI_PREFIX[..p - 1], ',', Encode(pdfBytes));
  }

  /** The first occurrence of c is right after a prefix without it. */
  lemma {:induction false} IndexOfFirst(p: string, c: char, t: string)
    requires c !in p
    ensures IndexOf(p + [c] + t, c) == |p|
    decreases |p|
  {
    if p != [] {
      IndexOfFirst(p[1..], c, t);
      assert (p + [c] + t)[1..] == p[1..] + [c] + t;
    }
  }

  /* ---------- generateReport ---------- */

  datatype Report = Report(fileName: string, encodedFile: string)

  /** Why one report fails: its signature image cannot be made, or saving
      the document fails (then it is still closed). */
  datatype ReportError = SignatureFailure(reason: Template.SignatureError) | EncodingFailure

  /** What the first steps draw: the grid, the header, then the title and
      the cells. */
  function FormLog(start: Date, end: Date, t: ReadingType, branch: Branch, device: Device,
                   sorted: seq<Reading>, orders: seq<seq<string>>,
                   fmt: real -> string, sqrt: real -> real): seq<DrawOp>
  {
    var n := InclusiveDayCount(start, end);
    MetricsFormCreator.GridRects(n)
    + Header.HeaderOps(FormatPeriod(start, end), branch, device, t)
    + ([MetricsFormFiller.TitleOp(t)] + MetricsFormFiller.FillCells(sorted, Civil(start).day, n, orders, fmt, sqrt))
  }

  /** The y of the chart row for the period's grid. */
  function ChartRowY(start: Date, end: Date): int
  {
    Template.ChartsY(MetricsFormCreator.GridBottom(InclusiveDayCount(start, end)))
  }

  /** Everything the report draws, in order: the form, the charts and, with
      a usable signature, the signature and the paragraph. */
  function ReportLog(form: seq<DrawOp>, start: Date, end: Date, encodedSignature: string, pagesBefore: nat,
                     lines: seq<string>, frequencyChart: seq<byte>, trendChart: seq<byte>): seq<DrawOp>
  {
    form + Template.ChartOps(ChartRowY(start, end), frequencyChart, trendChart)
    + (if Template.SignatureFile(encodedSignature).Ok?
       then [Template.SignatureOp(Template.SignatureFile(encodedSignature).value)]
            + Paragraph.ParagraphOps(Template.PARAGRAPH_X, Template.ParagraphY(ChartRowY(start, end)), pagesBefore, lines)
       else [])
  }

  /** Lines 89-93 of generateReport: the grid for getNumberOfDays rows, the
      header, the cells for the same number of days, and the charts and the
      signature below the grid. */
  method DrawForm(template: Template.ReportTemplate, start: Date, end: Date, t: ReadingType, branch: Branch,
                  device: Device, encodedSignature: string, readings: ReadingList,
                  frequencyChart: (seq<Reading>, ReadingType) -> seq<byte>,
                  trendChart: (seq<Reading>, ReadingType) -> seq<byte>,
                  fmt: real -> string, sqrt: real -> real)
    returns (charted: Result<int, Template.SignatureError>, ghost orders: seq<seq<string>>)
    modifies template.document, readings
    ensures readings.items == SortByTime(old(readings.items))
    ensures |orders| == InclusiveDayCount(start, end)
    ensures MetricsFormFiller.EnumeratesRows(MeansByDay(readings.items), Civil(start).day, orders)
    ensures charted.Ok? <==> Template.SignatureFile(encodedSignature).Ok?
    ensures charted.Ok? ==> charted.value == ChartRowY(start, end)
    ensures charted.Err? ==> charted.error == Template.SignatureFile(encodedSignature).error
    ensures var signature := Template.SignatureFile(encodedSignature);
            template.document.log == old(template.document.log)
              + FormLog(start, end, t, branch, device, readings.items, orders, fmt, sqrt)
              + Template.ChartOps(ChartRowY(start, end), frequencyChart(readings.items, t), trendChart(readings.items, t))
              + (if signature.Ok? then [Template.SignatureOp(signature.value)] else [])
    ensures template.document.pages == WithFirstPage(old(template.document.pages))
    ensures template.document.closed == old(template.document.closed)
  {
    ghost var before := template.document.log;
    var numberOfDays := GetNumberOfDays(start, end);
    ghost var n := InclusiveDayCount(start, end);
    assert MetricsFormCreator.RowCount(numberOfDays) == n;
    var currentYPosition := template.CreateMetricsForm(numberOfDays);
    ghost var grid := MetricsFormCreator.GridRects(n);
    template.FillHeader(branch, start, end, device, t);
    ghost var header := Header.HeaderOps(FormatPeriod(start, end), branch, device, t);
    numberOfDays := GetNumberOfDays(start, end);
    orders := template.FillMetricsForm(start, end, numberOfDays, readings, t, fmt, sqrt);
    ghost var cells := MetricsFormFiller.FillCells(readings.items, Civil(start).day, n, orders, fmt, sqrt);
    AppendAssociates(before + grid + header, [MetricsFormFiller.TitleOp(t)], cells);
    AppendAssociates(before, grid, header);
    AppendAssociates(before, grid + header, [MetricsFormFiller.TitleOp(t)] + cells);
    assert template.document.log == before + FormLog(start, end, t, branch, device, readings.items, orders, fmt, sqrt);
    charted := template.InsertChartsAndSignature(currentYPosition, encodedSignature,
                                                 frequencyChart(readings.items, t), trendChart(readings.items, t));
  }

  /** The try/finally of generateReport: the saved document encoded and
      named, and the document closed whether or not saving succeeded. */
  method EncodeAndClose(document: Document, fileName: string, save: (nat, seq<DrawOp>) -> Option<seq<byte>>)
    returns (r: Result<Report, ReportError>)
    modifies document
    ensures document.closed && document.pages == old(document.pages) && document.log == old(document.log)
    ensures save(document.pages, document.log).None? ==> r == Err(EncodingFailure)
    ensures save(document.pages, document.log).Some? ==>
              r == Ok(Report(fileName, EncodedFile(save(document.pages, document.log).value)))
  {
    var saved := save(document.pages, document.log);
    if saved.None? {
      r := Err(EncodingFailure);
    } else {
      var encodedFile := EncodedFile(saved.value);
      r := Ok(Report(fileName, encodedFile));
    }
    document.Close();
  }

  /** Lines 89-94 of generateReport: the form, the charts and the signature,
      and, when the signature could be drawn, the paragraph below the charts
      over the readings as the grid has sorted them. */
  method DrawReport(template: Template.ReportTemplate, start: Date, end: Date, t: ReadingType, branch: Branch,
                    device: Device, encodedSignature: string, readings: ReadingList,
                    frequencyChart: (seq<Reading>, ReadingType) -> seq<byte>,
                    trendChart: (seq<Reading>, ReadingType) -> seq<byte>,
                    fmt: real -> string, sqrt: real -> real, widthOf: string -> nat)
    returns (ghost orders: seq<seq<string>>, ghost lines: seq<string>, ghost text: string)
    modifies template.document, readings
    ensures readings.items == SortByTime(old(readings.items))
    ensures |orders| == InclusiveDayCount(start, end)
    ensures MetricsFormFiller.EnumeratesRows(MeansByDay(readings.items), Civil(start).day, orders)
    ensures Template.SignatureFile(encodedSignature).Ok? ==>
              lines == Paragraph.WrapLines(Paragraph.SplitOnWhitespace(text), widthOf, widthOf(" "), Template.PARAGRAPH_MAX_WIDTH)
              && Paragraph.TextShape(text, device, t, readings.items)
    ensures template.document.log == old(template.document.log)
              + ReportLog(FormLog(start, end, t, branch, device, readings.items, orders, fmt, sqrt),
                          start, end, encodedSignature, WithFirstPage(old(template.document.pages)), lines,
                          frequencyChart(readings.items, t), trendChart(readings.items, t))
    ensures template.document.pages == WithFirstPage(old(template.document.pages))
              + (if Template.SignatureFile(encodedSignature).Ok?
                 then Paragraph.Resets(Template.ParagraphY(ChartRowY(start, end)), |lines|) else 0)
    ensures template.document.closed == old(template.document.closed)
  {
    ghost var before := template.document.log;
    var charted;
    charted, orders := DrawForm(template, start, end, t, branch, device, encodedSignature, readings,
                                frequencyChart, trendChart, fmt, sqrt);
    ghost var form := FormLog(start, end, t, branch, device, readings.items, orders, fmt, sqrt);
    ghost var charts := Template.ChartOps(ChartRowY(start, end), frequencyChart(readings.items, t), trendChart(readings.items, t));
    AppendAssociates(before, form, charts);
    if charted.Err? {
      lines, text := [], "";
      AppendAssociates(before, form + charts, []);
      return;
    }
    ghost var signature := [Template.SignatureOp(Template.SignatureFile(encodedSignature).value)];
    lines, text := template.InsertInfoParagraph(device, start, end, t, charted.value, readings.items, fmt, widthOf);
    ghost var paragraph := Paragraph.ParagraphOps(Template.PARAGRAPH_X, Template.ParagraphY(charted.value),
                                                  WithFirstPage(old(template.document.pages)), lines);
    AppendAssociates(before + (form + charts), signature, paragraph);
    AppendAssociates(before, form + charts, signature + paragraph);
  }

  /** generateReport for one device. The charts are the images the chart
      functions make from the readings once the grid has sorted them; save
      stands for writing the document out, which may fail. The document is
      closed whenever the code reaches its try block, that is unless the
      signature fails. */
  method GenerateReport(templatePages: nat, start: Date, end: Date, t: ReadingType, branch: Branch, device: Device,
                        encodedSignature: string, readings: ReadingList,
                        frequencyChart: (seq<Reading>, ReadingType) -> seq<byte>,
                        trendChart: (seq<Reading>, ReadingType) -> seq<byte>,
                        save: (nat, seq<DrawOp>) -> Option<seq<byte>>,
                        fmt: real -> string, sqrt: real -> real, widthOf: string -> nat)
    returns (r: Result<Report, ReportError>, document: Document,
             ghost orders: seq<seq<string>>, ghost lines: seq<string>, ghost text: string)
    modifies readings
    ensures fresh(document)
    ensures readings.items == SortByTime(old(readings.items))
    ensures |orders| == InclusiveDayCount(start, end)
    ensures MetricsFormFiller.EnumeratesRows(MeansByDay(readings.items), Civil(start).day, orders)
    ensures Template.SignatureFile(encodedSignature).Ok? ==>
              lines == Paragraph.WrapLines(Paragraph.SplitOnWhitespace(text), widthOf, widthOf(" "), Template.PARAGRAPH_MAX_WIDTH)
              && Paragraph.TextShape(text, device, t, readings.items)
    ensures document.log == ReportLog(FormLog(start, end, t, branch, device, readings.items, orders, fmt, sqrt),
                                      start, end, encodedSignature, WithFirstPage(templatePages), lines,
                                      frequencyChart(readings.items, t), trendChart(readings.items, t))
    ensures document.pages == WithFirstPage(templatePages)
              + (if Template.SignatureFile(encodedSignature).Ok?
                 then Paragraph.Resets(Template.ParagraphY(ChartRowY(start, end)), |lines|) else 0)
    ensures Template.SignatureFile(encodedSignature).Err? ==>
              r == Err(SignatureFailure(Template.SignatureFile(encodedSignature).error)) && !document.closed
    ensures Template.SignatureFile(encodedSignature).Ok? ==> document.closed
    ensures Template.SignatureFile(encodedSignature).Ok? && save(document.pages, document.log).None? ==>
              r == Err(EncodingFailure)
    ensures Template.SignatureFile(encodedSignature).Ok? && save(document.pages, document.log).Some? ==>
              r == Ok(Report(GenerateFileName(device, start, end, t), EncodedFile(save(document.pages, document.log).value)))
  {
    var template := new Template.ReportTemplate(templatePages);
    document := template.document;
    orders, lines, text := DrawReport(template, start, end, t, branch, device, encodedSignature, readings,
                                frequencyChart, trendChart, fmt, sqrt, widthOf);
    assert document.log == [] + ReportLog(FormLog(start, end, t, branch, device, readings.items, orders, fmt, sqrt),
                                          start, end, encodedSignature, WithFirstPage(templatePages), lines,
                                          frequencyChart(readings.items, t), trendChart(readings.items, t));
    var signature := Template.SignatureFile(encodedSignature);
    if signature.Err? {
      r := Err(SignatureFailure(signature.error));
      return;
    }
    var fileName := GenerateFileName(device, start, end, t);
    r := EncodeAndClose(document, fileName, save);
  }

  /* ---------- getAllReports ---------- */

  /** The devices that get a report: those whose readings in the window are
      not empty, in the order given. */
  function WithReadings(devices: seq<Device>, findReadings: (Device, Instant, Instant) -> seq<Reading>,
                        window: (Instant, Instant)): seq<Device>
  {
    if devices == [] then []
    else
      var last := devices[|devices| - 1];
      WithReadings(devices[..|devices| - 1], findReadings, window)
      + (if findReadings(last, window.0, window.1) != [] then [last] else [])
  }

  /** One report answers one device: it is named after the device and its
      file carries the PDF data-URI prefix. */
  predicate ReportOf(report: Report, device: Device, start: Date, end: Date, t: ReadingType)
  {
    report.fileName == GenerateFileName(device, start, end, t) && StartsWith(report.encodedFile, PDF_URI_PREFIX)
  }

  /** The reports answer the devices one by one, in order. */
  predicate ReportsFor(reports: seq<Report>, reported: seq<Device>, start: Date, end: Date, t: ReadingType)
  {
    |reports| == |reported| && forall k :: 0 <= k < |reports| ==> ReportOf(reports[k], reported[k], start, end, t)
  }

  lemma ReportsForAppend(reports: seq<Report>, reported: seq<Device>, report: Report, device: Device,
                         start: Date, end: Date, t: ReadingType)
    requires ReportsFor(reports, reported, start, end, t)
    requires ReportOf(report, device, start, end, t)
    ensures ReportsFor(reports + [report], reported + [device], start, end, t)
  {
    var longer, more := reports + [report], reported + [device];
    forall k | 0 <= k < |longer|
      ensures ReportOf(longer[k], more[k], start, end, t)
    {
      if k < |reports| {
        assert longer[k] == reports[k] && more[k] == reported[k];
      }
    }
  }

  /** The step getAllReports takes for one device: the readings in the
      period's window; none gives no report (an empty Mono), otherwise
      generateReport over them, the charts drawn from the sorted list. */
  method ReportOfDevice(start: Date, end: Date, t: ReadingType, branch: Branch, encodedSignature: string,
                        device: Device, findReadings: (Device, Instant, Instant) -> seq<Reading>,
                        templatePages: nat,
                        frequencyChart: (seq<Reading>, ReadingType) -> seq<byte>,
                        trendChart: (seq<Reading>, ReadingType) -> seq<byte>,
                        save: (nat, seq<DrawOp>) -> Option<seq<byte>>,
                        fmt: real -> string, sqrt: real -> real, widthOf: string -> nat)
    returns (r: Option<Result<Report, ReportError>>)
    ensures var window := QueryWindow(start, end);
            r.None? <==> findReadings(device, window.0, window.1) == []
    ensures r.Some? && Template.SignatureFile(encodedSignature).Err? ==>
              r.value == Err(SignatureFailure(Template.SignatureFile(encodedSignature).error))
    ensures r.Some? && r.value.Ok? ==>
              Template.SignatureFile(encodedSignature).Ok?
              && r.value.value.fileName == GenerateFileName(device, start, end, t)
              && StartsWith(r.value.value.encodedFile, PDF_URI_PREFIX)
              && Decode(r.value.value.encodedFile[|PDF_URI_PREFIX|..]).Some?
  {
    var window := QueryWindow(start, end);
    var items := findReadings(device, window.0, window.1);
    if items == [] {
      return None;
    }
    var readings := new ReadingList(items);
    var report, document, orders, lines, text := GenerateReport(templatePages, start, end, t, branch, device,
                                                                 encodedSignature, readings, frequencyChart, trendChart,
                                                                 save, fmt, sqrt, widthOf);
    if report.Ok? {
      EncodedFileRoundTrip(save(document.pages, document.log).value);
    }
    return Some(report);
  }

  /** The devices reported are exactly those with readings in the window,
      and there are no more of them than devices. */
  lemma {:induction false} WithReadingsMeans(devices: seq<Device>, findReadings: (Device, Instant, Instant) -> seq<Reading>,
                                             window: (Instant, Instant))
    ensures |WithReadings(devices, findReadings, window)| <= |devices|
    ensures forall d :: d in WithReadings(devices, findReadings, window)
                        <==> d in devices && findReadings(d, window.0, window.1) != []
    decreases |devices|
  {
    if devices != [] {
      var n := |devices| - 1;
      WithReadingsMeans(devices[..n], findReadings, window);
      assert devices == devices[..n] + [devices[n]];
    }
  }

  /** Why getAllReports fails: the period, the signature lookup, or one
      report. */
  datatype ServiceError =
    | PeriodRejected(period: PeriodError)
    | SignatureLookupFailed(lookup: Signature.LookupError)
    | ReportFailed(failure: ReportError)

  /** The reports for the devices, in device order: one per device with
      readings in the period's window, and the first failure ends the
      collection. */
  method CollectReports(start: Date, end: Date, t: ReadingType, branch: Branch, encodedSignature: string,
                        devices: seq<Device>, findReadings: (Device, Instant, Instant) -> seq<Reading>,
                        templatePages: nat,
                        frequencyChart: (seq<Reading>, ReadingType) -> seq<byte>,
                        trendChart: (seq<Reading>, ReadingType) -> seq<byte>,
                        save: (nat, seq<DrawOp>) -> Option<seq<byte>>,
                        fmt: real -> string, sqrt: real -> real, widthOf: string -> nat)
    returns (r: Result<seq<Report>, ReportError>)
    ensures var reported := WithReadings(devices, findReadings, QueryWindow(start, end));
            (reported == [] ==> r == Ok([]))
            && (reported != [] && Template.SignatureFile(encodedSignature).Err? ==>
                  r == Err(SignatureFailure(Template.SignatureFile(encodedSignature).error)))
            && (r.Ok? ==> ReportsFor(r.value, reported, start, end, t))
    decreases |devices|
  {
    if devices == [] {
      return Ok([]);
    }
    var n := |devices| - 1;
    var window := QueryWindow(start, end);
    ghost var before := WithReadings(devices[..n], findReadings, window);
    r := CollectReports(start, end, t, branch, encodedSignature, devices[..n], findReadings, templatePages,
                        frequencyChart, trendChart, save, fmt, sqrt, widthOf);
    if r.Err? {
      assert before != [];
      return;
    }
    var report := ReportOfDevice(start, end, t, branch, encodedSignature, devices[n], findReadings, templatePages,
                                 frequencyChart, trendChart, save, fmt, sqrt, widthOf);
    if report.None? {
      assert before + [] == before;
      return;
    }
    if report.value.Err? {
      return Err(report.value.error);
    }
    ReportsForAppend(r.value, before, report.value.value, devices[n], start, end, t);
    r := Ok(r.value + [report.value.value]);
  }

  /** getAllReports over the user's devices: the period check comes first,
      then the signature lookup, whose result is given (the lookup's own
      failures fail the request whatever the devices), then the reports. */
  method GetAllReports(start: Date, end: Date, t: ReadingType, branch: Branch,
                       lookup: Result<string, Signature.LookupError>,
                       devices: seq<Device>, findReadings: (Device, Instant, Instant) -> seq<Reading>,
                       templatePages: nat,
                       frequencyChart: (seq<Reading>, ReadingType) -> seq<byte>,
                       trendChart: (seq<Reading>, ReadingType) -> seq<byte>,
                       save: (nat, seq<DrawOp>) -> Option<seq<byte>>,
                       fmt: real -> string, sqrt: real -> real, widthOf: string -> nat)
    returns (r: Result<seq<Report>, ServiceError>)
    ensures ValidatePeriod(start, end).Err? ==> r == Err(PeriodRejected(ValidatePeriod(start, end).error))
    ensures ValidatePeriod(start, end).Ok? && lookup.Err? ==> r == Err(SignatureLookupFailed(lookup.error))
    ensures var reported := WithReadings(devices, findReadings, QueryWindow(start, end));
            ValidatePeriod(start, end).Ok? && lookup.Ok? ==>
              (reported == [] ==> r == Ok([]))
              && (reported != [] && Template.SignatureFile(lookup.value).Err? ==>
                    r == Err(ReportFailed(SignatureFailure(Template.SignatureFile(lookup.value).error))))
              && (r.Ok? ==> ReportsFor(r.value, reported, start, end, t))
  {
    var period := ValidatePeriod(start, end);
    if period.Err? {
      return Err(PeriodRejected(period.error));
    }
    if lookup.Err? {
      return Err(SignatureLookupFailed(lookup.error));
    }
    var reports := CollectReports(start, end, t, branch, lookup.value, devices, findReadings, templatePages,
                                  frequencyChart, trendChart, save, fmt, sqrt, widthOf);
    if reports.Err? {
      return Err(ReportFailed(reports.error));
    }
    return Ok(reports.value);
  }

  /** A stored signature found and read draws its own bytes in every
      report, unless its file is empty: then the served URI has no second
      piece and every report with readings fails. */
  lemma LookedUpSignatureDraws(name: string, stored: Signature.StoredSignature)
    requires ',' !in stored.fileExtension
    ensures var lookup := Signature.LookupSignature(name, Some(stored), true);
            lookup.Ok?
            && Template.SignatureFile(lookup.value)
               == if stored.bytes == [] then Err(Template.NoPayload) else Ok(stored.bytes)
  {
    Template.SignatureFileOfServedUri(stored.fileExtension, stored.bytes);
  }
}
