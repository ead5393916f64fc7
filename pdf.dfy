/** The PDF document as the report code uses it: a page count and a log of
    the drawing commands appended to it, in order. Coordinates, widths and
    heights are in hundredths of a point, origin at the bottom left of the
    page; font sizes are in points. */
module Pdf {
  import opened Base64

  datatype DrawOp =
    | Text(page: nat, x: int, y: int, text: string, size: nat, bold: bool)
    | Rect(page: nat, x: int, y: int, width: int, height: int)
    | Image(page: nat, x: int, y: int, width: int, height: int, picture: seq<byte>)

  /** Page count after getOrCreateFirstPage: a page is added only to an empty document. */
  function WithFirstPage(pages: nat): nat
  {
    if pages == 0 then 1 else pages
  }

  class Document {
    var pages: nat
    var log: seq<DrawOp>
    var closed: bool

    /** A document loaded from a template with the given number of pages. */
    constructor Load(templatePages: nat)
      ensures pages == templatePages && log == [] && !closed
    {
      pages := templatePages;
      log := [];
      closed := false;
    }

    /** getOrCreateFirstPage: page 0, created only when there are no pages. */
    method GetOrCreateFirstPage() returns (page: nat)
      modifies this
      ensures page == 0
      ensures pages == WithFirstPage(old(pages))
      ensures log == old(log) && closed == old(closed)
    {
      if pages == 0 {
        pages := 1;
      }
      page := 0;
    }

    /** One text run on page 0 (the insertInCell helpers). */
    method DrawText(x: int, y: int, text: string, size: nat, bold: bool)
      modifies this
      ensures pages == WithFirstPage(old(pages)) && closed == old(closed)
      ensures log == old(log) + [Text(0, x, y, text, size, bold)]
    {
      var page := GetOrCreateFirstPage();
      log := log + [Text(page, x, y, text, size, bold)];
    }

    /** One text run on the given page, through a content stream opened on
        that page. */
    method DrawTextOn(page: nat, x: int, y: int, text: string, size: nat, bold: bool)
      modifies this
      ensures pages == old(pages) && closed == old(closed)
      ensures log == old(log) + [Text(page, x, y, text, size, bold)]
    {
      log := log + [Text(page, x, y, text, size, bold)];
    }

    /** One stroked rectangle on page 0 (MetricsFormCreator.drawCell). */
    method DrawRect(x: int, y: int, width: int, height: int)
      modifies this
      ensures pages == WithFirstPage(old(pages)) && closed == old(closed)
      ensures log == old(log) + [Rect(0, x, y, width, height)]
    {
      var page := GetOrCreateFirstPage();
      log := log + [Rect(page, x, y, width, height)];
    }

    /** One image on page 0, given the bytes of its file
        (ImageInserter.insertImage). */
    method DrawImage(x: int, y: int, width: int, height: int, picture: seq<byte>)
      modifies this
      ensures pages == WithFirstPage(old(pages)) && closed == old(closed)
      ensures log == old(log) + [Image(0, x, y, width, height, picture)]
    {
      var page := GetOrCreateFirstPage();
      log := log + [Image(page, x, y, width, height, picture)];
    }

    /** document.addPage(new PDPage(PDRectangle.A4)). */
    method AddPage()
      modifies this
      ensures pages == old(pages) + 1 && log == old(log) && closed == old(closed)
    {
      pages := pages + 1;
    }

    method Close()
      modifies this
      ensures closed && pages == old(pages) && log == old(log)
    {
      closed := true;
    }
  }
}
