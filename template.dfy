/** Template: the report document loaded from its template, and the steps
    that draw on it. Each step hands on the vertical cursor: the grid ends
    at its bottom, the charts sit 95 points below it, and the paragraph
    starts 25 points below the charts. */
module Template {
  import opened Common
  import opened Calendar
  import opened Domain
  import opened Base64
  import opened Pdf
  import opened Analytics
  import Signature
  import MetricsFormCreator
  import MetricsFormFiller
  import Header
  import Paragraph

  /** How far below the grid the charts go. */
  const CHART_DROP: int := 9500
  const FREQUENCY_CHART_X: int := 7000
  const TREND_CHART_X: int := 32500
  const CHART_WIDTH: int := 20000
  const CHART_HEIGHT: int := 10000
  /** The signature's fixed slot at the foot of the first page. */
  const SIGNATURE_X: int := 7000
  const SIGNATURE_Y: int := 8000
  const SIGNATURE_WIDTH: int := 20000
  const SIGNATURE_HEIGHT: int := 6500
  /** How far below the charts the paragraph starts, where and how wide. */
  const PARAGRAPH_DROP: int := 2500
  const PARAGRAPH_X: int := 2500
  const PARAGRAPH_MAX_WIDTH: int := 55000

  /* ---------- getSignatureFile ---------- */

  /** Why the signature image cannot be made: split(",") gives no second
      piece (an index error), or that piece is not Base64. */
  datatype SignatureError = NoPayload | NotBase64

  /** getSignatureFile: the bytes of the piece after the first comma and
      before a second one. The temporary file they are written to is not
      part of this model. */
  function SignatureFile(encodedSignature: string): (r: Result<seq<byte>, SignatureError>)
    ensures ',' !in encodedSignature ==> r == Err(NoPayload)
  {
    var pieces := JavaSplit(encodedSignature, ',');
    if |pieces| < 2 then Err(NoPayload)
    else
      match Decode(pieces[1])
      case None => Err(NotBase64)
      case Some(bytes) => Ok(bytes)
  }

  /** The data URI a stored signature is served as gives back the image's
      bytes, unless the image is empty: then the URI ends with its comma, the
      trailing empty piece is dropped and there is no second piece. */
  lemma SignatureFileOfServedUri(ext: string, bytes: seq<byte>)
    requires ',' !in ext
    ensures SignatureFile(Signature.DataUri(ext, bytes)) == if bytes == [] then Err(NoPayload) else Ok(bytes)
  {
    var head := Signature.IMAGE_PREFIX + ext + ";base64";
    var payload := Encode(bytes);
    assert Signature.DataUri(ext, bytes) == head + [','] + payload;
    assert ',' !in head by {
      assert ',' !in Signature.IMAGE_PREFIX && ',' !in ";base64";
    }
    EncodeShape(bytes);
    JavaSplitTwoPieces(head, ',', payload);
    DecodeEncode(bytes);
    assert payload == [] <==> bytes == [];
  }

  /* ---------- the cursor ---------- */

  /** insertChartsAndSignature moves the cursor down by the chart drop and
      insertInfoParagraph starts the paragraph a further drop below. */
  function ChartsY(currentYPosition: int): int
  {
    currentYPosition - CHART_DROP
  }

  function ParagraphY(currentYPosition: int): int
  {
    currentYPosition - PARAGRAPH_DROP
  }

  /** The two chart images at the chart row, then the signature in its
      fixed slot. */
  function ChartOps(y: int, frequencyChart: seq<byte>, trendChart: seq<byte>): seq<DrawOp>
  {
    [ Image(0, FREQUENCY_CHART_X, y, CHART_WIDTH, CHART_HEIGHT, frequencyChart),
      Image(0, TREND_CHART_X, y, CHART_WIDTH, CHART_HEIGHT, trendChart) ]
  }

  function SignatureOp(signature: seq<byte>): DrawOp
  {
    Image(0, SIGNATURE_X, SIGNATURE_Y, SIGNATURE_WIDTH, SIGNATURE_HEIGHT, signature)
  }

  /** For a grid of up to 15 rows the paragraph starts on the first page,
      above the bottom margin and above the charts' lower edge, and the
      charts clear the signature slot. */
  lemma ParagraphStartsOnFirstPage(numberOfDays: int)
    requires numberOfDays <= 15
    ensures var gridBottom := MetricsFormCreator.GridBottom(numberOfDays);
            var y := ParagraphY(ChartsY(gridBottom));
            Paragraph.BOTTOM_MARGIN < y < ChartsY(gridBottom)
            && SIGNATURE_Y + SIGNATURE_HEIGHT < ChartsY(gridBottom)
            && Paragraph.LineY(y) == y
  {
  }

  /* ---------- the document ---------- */

  class ReportTemplate {
    const document: Document

    /** new Template(path): the template's pages, nothing drawn yet. */
    constructor (templatePages: nat)
      ensures fresh(document)
      ensures document.pages == templatePages && document.log == [] && !document.closed
    {
      document := new Document.Load(templatePages);
    }

    /** createMetricsForm: the grid for the given number of days; returns its
        bottom. */
    method CreateMetricsForm(numberOfDays: int) returns (y: int)
      modifies document
      ensures y == MetricsFormCreator.GridBottom(numberOfDays)
      ensures document.log == old(document.log) + MetricsFormCreator.GridRects(MetricsFormCreator.RowCount(numberOfDays))
      ensures document.pages == (if numberOfDays > 0 then WithFirstPage(old(document.pages)) else old(document.pages))
      ensures document.closed == old(document.closed)
    {
      y := MetricsFormCreator.Create(document, numberOfDays);
    }

    /** fillHeader. */
    method FillHeader(branch: Branch, startDate: Date, endDate: Date, device: Device, t: ReadingType)
      modifies document
      ensures document.log == old(document.log) + Header.HeaderOps(FormatPeriod(startDate, endDate), branch, device, t)
      ensures document.pages == WithFirstPage(old(document.pages)) && document.closed == old(document.closed)
    {
      Header.Fill(document, branch, startDate, endDate, device, t);
    }

    /** fillMetricsForm: sorts the caller's readings and fills the grid. */
    method FillMetricsForm(startDate: Date, endDate: Date, numberOfDays: int, readings: ReadingList, t: ReadingType,
                           fmt: real -> string, sqrt: real -> real)
      returns (orders: seq<seq<string>>)
      modifies document, readings
      ensures readings.items == SortByTime(old(readings.items))
      ensures |orders| == MetricsFormCreator.RowCount(numberOfDays)
      ensures MetricsFormFiller.EnumeratesRows(MeansByDay(readings.items), Civil(startDate).day, orders)
      ensures document.log == old(document.log) + [MetricsFormFiller.TitleOp(t)]
                + MetricsFormFiller.FillCells(readings.items, Civil(startDate).day, MetricsFormCreator.RowCount(numberOfDays),
                                              orders, fmt, sqrt)
      ensures document.pages == WithFirstPage(old(document.pages)) && document.closed == old(document.closed)
    {
      orders := MetricsFormFiller.Fill(document, startDate, endDate, numberOfDays, t, readings, fmt, sqrt);
    }

    /** insertChartsAndSignature: the charts one drop below the cursor, then
        the signature in its slot; returns the charts' y. The chart images
        are the bytes the chart files hold. When the signature cannot be
        decoded the charts are already drawn and nothing more is. */
    method InsertChartsAndSignature(currentYPosition: int, encodedSignature: string,
                                    frequencyChart: seq<byte>, trendChart: seq<byte>)
      returns (r: Result<int, SignatureError>)
      modifies document
      ensures r.Ok? <==> SignatureFile(encodedSignature).Ok?
      ensures r.Ok? ==> r.value == ChartsY(currentYPosition)
      ensures r.Err? ==> r.error == SignatureFile(encodedSignature).error
      ensures document.log == old(document.log) + ChartOps(ChartsY(currentYPosition), frequencyChart, trendChart)
                + (if r.Ok? then [SignatureOp(SignatureFile(encodedSignature).value)] else [])
      ensures document.pages == WithFirstPage(old(document.pages)) && document.closed == old(document.closed)
    {
      var y := currentYPosition - CHART_DROP;
      document.DrawImage(FREQUENCY_CHART_X, y, CHART_WIDTH, CHART_HEIGHT, frequencyChart);
      document.DrawImage(TREND_CHART_X, y, CHART_WIDTH, CHART_HEIGHT, trendChart);
      var signature := SignatureFile(encodedSignature);
      if signature.Err? {
        return Err(signature.error);
      }
      document.DrawImage(SIGNATURE_X, SIGNATURE_Y, SIGNATURE_WIDTH, SIGNATURE_HEIGHT, signature.value);
      return Ok(y);
    }

    /** insertInfoParagraph: the paragraph one drop below the cursor, at the
        paragraph's x and width. The lines are the text's words wrapped to
        that width; text is the paragraph createParagraphText makes, whose
        full wording Paragraph.InsertParagraph states; here, its shape. */
    method InsertInfoParagraph(device: Device, startDate: Date, endDate: Date, t: ReadingType, currentYPosition: int,
                               readings: seq<Reading>, fmt: real -> string, widthOf: string -> nat)
      returns (lines: seq<string>, ghost text: string)
      modifies document
      ensures lines == Paragraph.WrapLines(Paragraph.SplitOnWhitespace(text), widthOf, widthOf(" "), PARAGRAPH_MAX_WIDTH)
      ensures Paragraph.TextShape(text, device, t, readings)
      ensures document.log == old(document.log) + Paragraph.ParagraphOps(PARAGRAPH_X, ParagraphY(currentYPosition), WithFirstPage(old(document.pages)), lines)
      ensures document.pages == WithFirstPage(old(document.pages)) + Paragraph.Resets(ParagraphY(currentYPosition), |lines|)
      ensures document.closed == old(document.closed)
    {
      text := Paragraph.CreateParagraphText(Paragraph.ParagraphInfoOf(device, t, readings, startDate, endDate, fmt));
      assert Paragraph.TextShape(text, device, t, readings) by {
        Paragraph.ParagraphOpeningAndEnd(device, t, readings, startDate, endDate, fmt);
      }
      var y := currentYPosition - PARAGRAPH_DROP;
      lines := Paragraph.InsertParagraph(document, startDate, endDate, PARAGRAPH_X, y, PARAGRAPH_MAX_WIDTH, device, t, readings, fmt, widthOf);
    }
  }
}
