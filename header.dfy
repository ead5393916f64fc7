/** HeaderFiller: the header of the report's first page — the period, the
    branch, the sector, the title for the reading type, and the device's
    function, equipment type and patrimony number, all at 11 points.
    Lengths are in hundredths of a point. */
module Header {
  import opened Common
  import opened Calendar
  import opened Domain
  import opened Pdf

  const TITLE_X: int := 7500
  const TITLE_Y: int := 70000
  const PERIOD_X: int := 41000
  const PERIOD_Y: int := 77000
  const BRANCH_Y: int := 75200
  const SECTOR_Y: int := 73400
  const FUNCTION_X: int := 9500
  const TYPE_X: int := 24500
  const PATRIMONY_X: int := 46000
  const DEVICE_Y: int := 66500
  const FONT_SIZE: nat := 11

  const TEMPERATURE_TITLE: string := "REGISTRO DE CONTROLE DIÁRIO DA TEMPERATURA DE CONSERVAÇÃO DE INSUMOS"
  const HUMIDITY_TITLE: string := "REGISTRO DE CONTROLE DIÁRIO DA UMIDADE DE CONSERVAÇÃO DE INSUMOS"

  /** insertTitle's choice of title. */
  function Title(t: ReadingType): string
  {
    if t == Temperature then TEMPERATURE_TITLE else HUMIDITY_TITLE
  }

  /** insertInCell at 11 points. */
  function HeaderText(x: int, y: int, value: string, bold: bool): DrawOp
  {
    Text(0, x, y, value, FONT_SIZE, bold)
  }

  /** insertPeriod, insertBranch, insertSector: the right-hand column. */
  function PlaceOps(period: string, branch: Branch, device: Device): seq<DrawOp>
  {
    [ HeaderText(PERIOD_X, PERIOD_Y, period, false),
      HeaderText(PERIOD_X, BRANCH_Y, BranchCode(branch), false),
      HeaderText(PERIOD_X, SECTOR_Y, device.sector, false) ]
  }

  /** insertDeviceDetails: function, type of equipment and patrimony on one line. */
  function DeviceOps(device: Device): seq<DrawOp>
  {
    [ HeaderText(FUNCTION_X, DEVICE_Y, FunctionCode(device.deviceFunction), false),
      HeaderText(TYPE_X, DEVICE_Y, device.typeOfEquipment, false),
      HeaderText(PATRIMONY_X, DEVICE_Y, IntStr(device.patrimony), false) ]
  }

  /** What fill draws, in order, given the period text: period, branch,
      sector, title, then the device's function, type of equipment and
      patrimony. */
  function HeaderOps(period: string, branch: Branch, device: Device, t: ReadingType): seq<DrawOp>
  {
    PlaceOps(period, branch, device) + [HeaderText(TITLE_X, TITLE_Y, Title(t), true)] + DeviceOps(device)
  }

  /** The two titles differ, so the header tells the reading type. */
  lemma TitleNamesType(a: ReadingType, b: ReadingType)
    ensures Title(a) == Title(b) <==> a == b
  {
    assert TEMPERATURE_TITLE[31] == 'T' && HUMIDITY_TITLE[31] == 'U';
  }

  /** The header is seven texts on page 0 at 11 points, only the title in
      bold; the period, branch and sector share a column and step down by
      18 points, and the device details share a line. */
  lemma HeaderLayout(period: string, branch: Branch, device: Device, t: ReadingType)
    ensures var ops := HeaderOps(period, branch, device, t);
            |ops| == 7
            && (forall k :: 0 <= k < 7 ==>
                  (ops[k].Text? && ops[k].page == 0 && ops[k].size == 11 && (ops[k].bold <==> k == 3)))
            && ops[0].x == ops[1].x == ops[2].x
            && ops[0].y - ops[1].y == 1800 && ops[1].y - ops[2].y == 1800
            && ops[4].y == ops[5].y == ops[6].y
            && ops[4].x < ops[5].x < ops[6].x
  {
  }

  /** The header reads back: the period text is the first, the branch and
      function codes name their values, and a non-negative patrimony prints
      as its digits. (Calendar.FormatPeriodFields reads the period back.) */
  lemma HeaderReadsBack(period: string, branch: Branch, device: Device, t: ReadingType)
    ensures var ops := HeaderOps(period, branch, device, t);
            |ops| == 7
            && ops[0].text == period
            && (forall b :: BranchCode(b) == ops[1].text ==> b == branch)
            && ops[2].text == device.sector
            && (forall f :: FunctionCode(f) == ops[4].text ==> f == device.deviceFunction)
            && ops[5].text == device.typeOfEquipment
            && (device.patrimony >= 0 ==> AllDigits(ops[6].text) && DigitsValue(ops[6].text) == device.patrimony)
  {
    if device.patrimony >= 0 {
      NatStrValue(device.patrimony);
    }
    BranchCodeInjective();
    FunctionCodeInjective();
  }

  /** insertPeriod, insertBranch and insertSector. */
  method InsertPlace(document: Document, branch: Branch, startDate: Date, endDate: Date, device: Device)
    modifies document
    ensures document.log == old(document.log) + PlaceOps(FormatPeriod(startDate, endDate), branch, device)
    ensures document.pages == WithFirstPage(old(document.pages)) && document.closed == old(document.closed)
  {
    var period := FormatPeriod(startDate, endDate);
    document.DrawText(PERIOD_X, PERIOD_Y, period, FONT_SIZE, false);
    document.DrawText(PERIOD_X, BRANCH_Y, BranchCode(branch), FONT_SIZE, false);
    document.DrawText(PERIOD_X, SECTOR_Y, device.sector, FONT_SIZE, false);
  }

  method InsertTitle(document: Document, t: ReadingType)
    modifies document
    ensures document.log == old(document.log) + [HeaderText(TITLE_X, TITLE_Y, Title(t), true)]
    ensures document.pages == WithFirstPage(old(document.pages)) && document.closed == old(document.closed)
  {
    document.DrawText(TITLE_X, TITLE_Y, Title(t), FONT_SIZE, true);
  }

  method InsertDeviceDetails(document: Document, device: Device)
    modifies document
    ensures document.log == old(document.log) + DeviceOps(device)
    ensures document.pages == WithFirstPage(old(document.pages)) && document.closed == old(document.closed)
  {
    var patrimony := IntStr(device.patrimony);
    document.DrawText(FUNCTION_X, DEVICE_Y, FunctionCode(device.deviceFunction), FONT_SIZE, false);
    document.DrawText(TYPE_X, DEVICE_Y, device.typeOfEquipment, FONT_SIZE, false);
    document.DrawText(PATRIMONY_X, DEVICE_Y, patrimony, FONT_SIZE, false);
  }

  /** fill: the seven header texts, on the first page (added if the
      document has none). */
  method Fill(document: Document, branch: Branch, startDate: Date, endDate: Date, device: Device, t: ReadingType)
    modifies document
    ensures document.log == old(document.log) + HeaderOps(FormatPeriod(startDate, endDate), branch, device, t)
    ensures document.pages == WithFirstPage(old(document.pages)) && document.closed == old(document.closed)
  {
    InsertPlace(document, branch, startDate, endDate, device);
    InsertTitle(document, t);
    InsertDeviceDetails(document, device);
    ghost var place := PlaceOps(FormatPeriod(startDate, endDate), branch, device);
    ghost var title := [HeaderText(TITLE_X, TITLE_Y, Title(t), true)];
    AppendAssociates(old(document.log), place, title);
    AppendAssociates(old(document.log), place + title, DeviceOps(device));
  }
}
