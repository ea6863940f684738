/** The drawing surface the renderers use (ReportLab): paragraph styles,
    text measurement and the canvas. Measurement is a parameter of the model
    (a function from a layout request to the laid-out block's dimensions);
    the canvas is a log of the calls made on it. */
module Drawing {

  /** Paragraph alignment, as the constants TA_LEFT, TA_CENTER, TA_RIGHT and
      TA_JUSTIFY of reportlab.lib.enums. */
  datatype Alignment = Left | Center | Right | Justify

  /** The attributes of a paragraph style that the renderers set or read. */
  datatype StyleValues = StyleValues(
    name: string,
    fontName: string,
    fontSize: real,
    leading: real,
    textColor: string,
    alignment: Alignment)

  /** A ReportLab ParagraphStyle: a mutable object. */
  class ParagraphStyle {
    var name: string
    var fontName: string
    var fontSize: real
    var leading: real
    var textColor: string
    var alignment: Alignment

    constructor (v: StyleValues)
      ensures Snapshot() == v
    {
      name := v.name;
      fontName := v.fontName;
      fontSize := v.fontSize;
      leading := v.leading;
      textColor := v.textColor;
      alignment := v.alignment;
    }

    /** The style's current attribute values. */
    function Snapshot(): (v: StyleValues)
      reads this
      ensures v.fontSize == fontSize && v.leading == leading && v.fontName == fontName
    {
      StyleValues(name, fontName, fontSize, leading, textColor, alignment)
    }
  }

  /** ReportLab's defaults for a ParagraphStyle built with only a name:
      Times-Roman, 10 point, leading 12, black, left aligned. */
  function DefaultStyle(name: string): (v: StyleValues)
    ensures v.fontSize == 10.0 && v.leading == 12.0 && v.alignment == Left
  {
    StyleValues(name, "Times-Roman", 10.0, 12.0, "#000000", Left)
  }

  /** Width and height of a laid-out paragraph. */
  datatype Dims = Dims(width: real, height: real)

  /** A request to lay out `text` in a font at a size and leading, wrapping
      within the available width and height (`Paragraph.wrapOn`). */
  datatype WrapRequest = WrapRequest(
    text: string,
    fontName: string,
    fontSize: real,
    leading: real,
    availWidth: real,
    availHeight: real)

  /** Text measurement, left uninterpreted. */
  type Measurer = WrapRequest -> Dims

  predicate FitsBox(d: Dims, maxWidth: real, maxHeight: real) {
    d.width <= maxWidth && d.height <= maxHeight
  }

  /** The one assumption made about measurement: a paragraph set at a
      non-positive font size and leading takes no room, so it fits any box of
      non-negative size. It is what makes the shrinking loop of the autoscaler
      terminate. */
  ghost predicate ShrinksToFit(measure: Measurer) {
    forall r: WrapRequest ::
      r.fontSize <= 0.0 && r.leading <= 0.0 && r.availWidth >= 0.0 && r.availHeight >= 0.0 ==>
        FitsBox(measure(r), r.availWidth, r.availHeight)
  }

  /** A call made on the canvas. */
  datatype CanvasCall =
    | SetLineWidth(lineWidth: real)
    | SetStrokeColor(strokeColor: string)
    | SetFillColor(fillColor: string)
    | Rect(x: real, y: real, width: real, height: real, stroke: bool, fill: bool)
    | Line(xStart: real, yStart: real, xEnd: real, yEnd: real)
    | DrawImage(file: string, imageX: real, imageY: real, imageWidth: real, imageHeight: real)
    | DrawParagraph(text: string, style: StyleValues, availWidth: real, availHeight: real, left: real, bottom: real)

  /** The canvas a certificate overlay is drawn on. */
  class Canvas {
    var calls: seq<CanvasCall>

    constructor ()
      ensures calls == []
    {
      calls := [];
    }

    method Record(c: CanvasCall)
      modifies this
      ensures calls == old(calls) + [c]
    {
      calls := calls + [c];
    }
  }
}
