/** The layout of the Stanford statement of accomplishment
    (`_generate_stanford_SOA` in gen_cert.py): five paragraphs drawn top to
    bottom on a landscape A4 overlay. Text widths come from a measuring
    function given as a parameter (ReportLab's `stringWidth`, in points). */
module Stanford {
  import opened Drawing
  import opened CertConfig
  import opened CertText

  /** One millimetre in points (reportlab.lib.units.mm = 72 / 25.4). */
  const Mm: real := 360.0 / 127.0

  /** Width and height of a landscape A4 page, in points. */
  const PageWidth: real := 297.0 * Mm
  const PageHeight: real := 210.0 * Mm

  /** Left margin of the body text and right margin of the date, in mm. */
  const LeftIndent: real := 55.0
  const DateIndent: real := 45.0

  /** Widest name, in mm, still set at the large size. */
  const NameWidthLimit: real := 153.0

  const StandardGray: string := "Color(0.302, 0.306, 0.318)"

  /** `stringWidth(text, fontName, fontSize)`: width in points. */
  type TextWidth = (string, string, real) -> real

  /** The renderer's paragraph styles as created: a face and leading 10,
      ReportLab's defaults otherwise. */
  function BaseStyle(name: string, fontName: string): (v: StyleValues)
    ensures v.fontName == fontName && v.leading == 10.0 && v.fontSize == 10.0
  {
    DefaultStyle(name).(leading := 10.0, fontName := fontName)
  }

  /** A style with the size, colour and alignment a paragraph sets. */
  function Styled(name: string, fontName: string, fontSize: real, alignment: Alignment): (v: StyleValues)
    ensures v.fontName == fontName && v.fontSize == fontSize && v.leading == 10.0
    ensures v.textColor == StandardGray && v.alignment == alignment
  {
    BaseStyle(name, fontName).(fontSize := fontSize, textColor := StandardGray, alignment := alignment)
  }

  // ---------------------------------------------------------------------
  // The date

  /** Left edge of the date as the source computes it:
      `(WIDTH - DATE_INDENT - width) * mm`, where WIDTH is already in points
      and the date's width in mm. */
  function DateXAsWritten(dateWidth: real): real {
    (PageWidth - DateIndent - dateWidth) * Mm
  }

  /** For any date narrower than 400 mm, the left edge computed as written
      lies beyond the right edge of the page: the date is not on the page. */
  lemma DateAsWrittenIsOffPage(dateWidth: real)
    requires 0.0 <= dateWidth <= 400.0
    ensures DateXAsWritten(dateWidth) > PageWidth
  {
  }

  /** Left edge of the date with the page width in mm, as the date's right
      margin of DATE_INDENT mm asks. */
  function DateX(dateWidth: real): (x: real)
    ensures x + dateWidth * Mm == PageWidth - DateIndent * Mm
  {
    (297.0 - DateIndent - dateWidth) * Mm
  }

  /** A date that is narrower than the page less its margin starts on the
      page. */
  lemma DateIsOnPage(dateWidth: real)
    requires 0.0 <= dateWidth <= 297.0 - DateIndent
    ensures 0.0 <= DateX(dateWidth) <= PageWidth
  {
  }

  /** Width of the date in mm: measured in the bold italic face at 12
      points. */
  function DateWidth(width: TextWidth, dateString: string): real {
    width(dateString, "SourceSansPro-SemiboldItalic", 12.0) / Mm
  }

  // ---------------------------------------------------------------------
  // The student's name

  /** The face the name is measured in: the Unicode face for a name with
      characters the bold face lacks. */
  function NameMeasureFont(unicode: bool): string {
    if unicode then "Arial Unicode" else "OpenSans-Bold"
  }

  /** The name's width in mm as the source measures it: at 34 points in the
      bold face, but at the Arial style's unset size of 10 points in the
      Unicode face. */
  function NameWidthAsWritten(width: TextWidth, studentName: string, unicode: bool): real {
    if unicode then width(studentName, "Arial Unicode", BaseStyle("arial", "Arial Unicode").fontSize) / Mm
    else width(studentName, "OpenSans-Bold", 34.0) / Mm
  }

  /** The name's width in mm at the size it is first tried at, 34 points:
      the corrected measure (see NameAsWrittenOverflows). */
  function NameWidth(width: TextWidth, studentName: string, unicode: bool): real {
    width(studentName, NameMeasureFont(unicode), 34.0) / Mm
  }

  /** How the name is set. */
  datatype NameLayout = NameLayout(text: string, style: StyleValues, bottom: real)

  /** A name wider than the limit is set at 18 points at 121.5 mm, any other
      at 34 points at 124.5 mm; the Unicode face has no bold. */
  function NameLayoutFor(studentName: string, unicode: bool, nameWidth: real): NameLayout {
    var small := nameWidth > NameWidthLimit;
    var size := if small then 18.0 else 34.0;
    var style := if unicode then Styled("arial", "Arial Unicode", size, Left)
                 else Styled("opensans-light", "OpenSans-Light", size, Left);
    NameLayout(if unicode then studentName else "<b>" + studentName + "</b>", style,
               if small then 121.5 else 124.5)
  }

  /** With the name measured at the size it is set at, a name set at 34
      points is at most NameWidthLimit mm wide; a wider name is set at 18
      points, lower down. The name is in bold exactly when the bold face can
      show it. */
  lemma NameFitsWhenLarge(width: TextWidth, studentName: string, unicode: bool)
    ensures var layout := NameLayoutFor(studentName, unicode, NameWidth(width, studentName, unicode));
      (layout.style.fontSize == 34.0 <==>
        width(studentName, NameMeasureFont(unicode), 34.0) / Mm <= NameWidthLimit) &&
      (layout.style.fontSize == 34.0 ==> layout.bottom == 124.5) &&
      (layout.style.fontSize != 34.0 ==> layout.style.fontSize == 18.0 && layout.bottom == 121.5) &&
      (layout.text == studentName <==> unicode) &&
      (!unicode ==> layout.text == "<b>" + studentName + "</b>")
  {
    var layout := NameLayoutFor(studentName, unicode, NameWidth(width, studentName, unicode));
    if !unicode {
      assert |layout.text| > |studentName|;
    }
  }

  /** A measuring function under which every character is half an em wide. */
  function HalfEm(): TextWidth {
    (s: string, font: string, size: real) => |s| as real * size / 2.0
  }

  /** Thirty CJK ideographs. */
  function WideName(): (s: string)
    ensures |s| == 30 && HasCharacterAbove(s, 0x500)
  {
    var s := seq(30, i => '\U{4E00}');
    assert s[0] as int >= 0x500;
    s
  }

  /** As written, a Unicode name measured at 10 points looks 52.9 mm wide
      and is set at 34 points, where it is 179.9 mm wide: beyond the limit
      that was meant to shrink it. */
  lemma NameAsWrittenOverflows()
    ensures var w := HalfEm();
      NameLayoutFor(WideName(), true, NameWidthAsWritten(w, WideName(), true)).style.fontSize == 34.0 &&
      w(WideName(), "Arial Unicode", 34.0) / Mm > NameWidthLimit
  {
    var w := HalfEm();
    assert w(WideName(), "Arial Unicode", 10.0) == 150.0;
    assert w(WideName(), "Arial Unicode", 34.0) == 510.0;
  }

  // ---------------------------------------------------------------------
  // The overlay

  /** The date in the top right corner. Like every paragraph but the name,
      it wraps within the page size taken as millimetres, as the source
      does. */
  function DateCall(width: TextWidth, dateString: string): CanvasCall {
    DrawParagraph("<i><b>" + dateString + "</b></i>", Styled("sourcesans-light", "SourceSansPro-Light", 12.0, Left),
                  PageWidth * Mm, PageHeight * Mm, DateX(DateWidth(width, dateString)), 159.0 * Mm)
  }

  /** The regular style of the body text. */
  function Regular(): StyleValues {
    Styled("sourcesans-regular", "SourceSansPro-Regular", 14.0, Left)
  }

  function CertifyCall(): CanvasCall {
    DrawParagraph("This is to certify that,", Regular(), PageWidth * Mm, PageHeight * Mm, LeftIndent * Mm, 135.0 * Mm)
  }

  function NameCall(width: TextWidth, studentName: string, unicode: bool): CanvasCall {
    var name := NameLayoutFor(studentName, unicode, NameWidth(width, studentName, unicode));
    DrawParagraph(name.text, name.style, 200.0 * Mm, 214.0 * Mm, LeftIndent * Mm, name.bottom * Mm)
  }

  function CompletedCall(grade: string, interstitial: map<string, string>): CanvasCall {
    DrawParagraph(StanfordCompleted(grade, interstitial), Regular(), PageWidth * Mm, PageHeight * Mm,
                  LeftIndent * Mm, 104.5 * Mm)
  }

  function AuthenticityCall(certLabel: string, s: Settings, verifyUuid: string): CanvasCall {
    DrawParagraph(AuthenticityText(certLabel, s, verifyUuid), Regular().(fontSize := 9.0, alignment := Center),
                  PageWidth * Mm, PageHeight * Mm, -275.0 * Mm, 31.0 * Mm)
  }

  /** The paragraphs of the overlay, top to bottom: the date,
      "This is to certify that,", the name, the completion line, and, when
      the certificate can be verified, the authenticity line. */
  function Overlay(width: TextWidth, s: Settings, dateString: string, studentName: string, grade: string,
                   interstitial: map<string, string>, verify: bool, verifyUuid: string, certLabel: string)
    : seq<CanvasCall>
  {
    [DateCall(width, dateString), CertifyCall(), NameCall(width, studentName, HasCharacterAbove(studentName, 0x500)),
     CompletedCall(grade, interstitial)] +
    (if verify then [AuthenticityCall(certLabel, s, verifyUuid)] else [])
  }

  /** The overlay has the authenticity line exactly when the certificate
      can be verified, its paragraphs go down the page, and the body text
      shares one left margin. */
  lemma OverlayTopToBottom(width: TextWidth, s: Settings, dateString: string, studentName: string, grade: string,
                           interstitial: map<string, string>, verify: bool, verifyUuid: string, certLabel: string)
    ensures var calls := Overlay(width, s, dateString, studentName, grade, interstitial, verify, verifyUuid, certLabel);
      (|calls| == 5 <==> verify) && (|calls| == 4 <==> !verify) &&
      (forall c :: c in calls ==> c.DrawParagraph?) &&
      (forall i, j :: 0 <= i < j < |calls| ==> calls[i].bottom > calls[j].bottom) &&
      (forall i :: 1 <= i < 4 ==> calls[i].left == LeftIndent * Mm)
  {
    var calls := Overlay(width, s, dateString, studentName, grade, interstitial, verify, verifyUuid, certLabel);
    var unicode := HasCharacterAbove(studentName, 0x500);
    var body := [DateCall(width, dateString), CertifyCall(), NameCall(width, studentName, unicode),
                 CompletedCall(grade, interstitial)];
    assert calls[..4] == body;
    var name := NameLayoutFor(studentName, unicode, NameWidth(width, studentName, unicode));
    assert body[2].bottom == name.bottom * Mm && 121.5 <= name.bottom <= 124.5;
    assert body[0].bottom == 159.0 * Mm && body[1].bottom == 135.0 * Mm && body[3].bottom == 104.5 * Mm;
    if verify {
      assert calls[4].bottom == 31.0 * Mm;
    }
  }

  /** The completion line holds the grade's interstitial text, and the last
      line is the authenticity sentence, centre-aligned on a box as wide as
      the page taken as millimetres, moved 275 mm left, so that it is
      centred on the page to within 3 mm. */
  lemma OverlayLines(width: TextWidth, s: Settings, dateString: string, studentName: string, grade: string,
                     interstitial: map<string, string>, verify: bool, verifyUuid: string, certLabel: string)
    ensures var calls := Overlay(width, s, dateString, studentName, grade, interstitial, verify, verifyUuid, certLabel);
      |calls| >= 4 &&
      calls[3].text == StanfordCompleted(grade, interstitial) &&
      (verify ==> |calls| == 5 && calls[4].text == AuthenticityText(certLabel, s, verifyUuid)) &&
      (verify ==> |calls| == 5 && calls[4].style.alignment == Center) &&
      (verify ==> |calls| == 5 && -3.0 * Mm <= calls[4].left + calls[4].availWidth / 2.0 - PageWidth / 2.0 <= 3.0 * Mm)
  {
    var calls := Overlay(width, s, dateString, studentName, grade, interstitial, verify, verifyUuid, certLabel);
    assert calls[3] == CompletedCall(grade, interstitial);
    if verify {
      assert calls[4] == AuthenticityCall(certLabel, s, verifyUuid);
      AuthenticityLine(certLabel, s, verifyUuid);
    }
  }

  /** The authenticity line sits at the foot of the page, centre-aligned
      on a box whose centre is within 3 mm of the page's. */
  lemma AuthenticityLine(certLabel: string, s: Settings, verifyUuid: string)
    ensures var c := AuthenticityCall(certLabel, s, verifyUuid);
      c.DrawParagraph? && c.text == AuthenticityText(certLabel, s, verifyUuid) && c.style.alignment == Center &&
      c.bottom == 31.0 * Mm && -3.0 * Mm <= c.left + c.availWidth / 2.0 - PageWidth / 2.0 <= 3.0 * Mm
  {
  }

  // ---------------------------------------------------------------------
  // Drawing, with the renderer's mutable styles

  method DrawDate(page: Canvas, style: ParagraphStyle, width: TextWidth, dateString: string)
    requires style.Snapshot() == BaseStyle("sourcesans-light", "SourceSansPro-Light")
    modifies page, style
    ensures page.calls == old(page.calls) + [DateCall(width, dateString)]
  {
    style.fontSize := 12.0;
    style.textColor := StandardGray;
    style.alignment := Left;
    var dateWidth := width(dateString, "SourceSansPro-SemiboldItalic", style.fontSize) / Mm;
    page.Record(DrawParagraph("<i><b>" + dateString + "</b></i>", style.Snapshot(),
                              PageWidth * Mm, PageHeight * Mm, DateX(dateWidth), 159.0 * Mm));
  }

  method DrawCertify(page: Canvas, style: ParagraphStyle)
    requires style.Snapshot() == BaseStyle("sourcesans-regular", "SourceSansPro-Regular")
    modifies page, style
    ensures page.calls == old(page.calls) + [CertifyCall()]
    ensures style.Snapshot() == Regular()
  {
    style.fontSize := 14.0;
    style.textColor := StandardGray;
    style.alignment := Left;
    page.Record(DrawParagraph("This is to certify that,", style.Snapshot(),
                              PageWidth * Mm, PageHeight * Mm, LeftIndent * Mm, 135.0 * Mm));
  }

  /** The name in the bold face, or in the Unicode face without bold,
      measured at the size it is tried at. */
  method DrawName(page: Canvas, openSansLight: ParagraphStyle, arial: ParagraphStyle, width: TextWidth,
                  studentName: string, unicode: bool)
    requires openSansLight.Snapshot() == BaseStyle("opensans-light", "OpenSans-Light")
    requires arial.Snapshot() == BaseStyle("arial", "Arial Unicode")
    modifies page, openSansLight, arial
    ensures page.calls == old(page.calls) + [NameCall(width, studentName, unicode)]
  {
    var style := openSansLight;
    style.fontSize := 34.0;
    var text := "<b>" + studentName + "</b>";
    if unicode {
      style := arial;
      text := studentName;
    }
    var nameWidth := width(studentName, NameMeasureFont(unicode), 34.0) / Mm;
    var nameY;
    if nameWidth > NameWidthLimit {
      style.fontSize := 18.0;
      nameY := 121.5;
    } else {
      style.fontSize := 34.0;
      nameY := 124.5;
    }
    style.textColor := StandardGray;
    style.alignment := Left;
    page.Record(DrawParagraph(text, style.Snapshot(), 200.0 * Mm, 214.0 * Mm, LeftIndent * Mm, nameY * Mm));
  }

  method DrawCompleted(page: Canvas, style: ParagraphStyle, grade: string, interstitial: map<string, string>)
    requires style.Snapshot() == Regular()
    modifies page
    ensures page.calls == old(page.calls) + [CompletedCall(grade, interstitial)]
  {
    page.Record(DrawParagraph(StanfordCompleted(grade, interstitial), style.Snapshot(),
                              PageWidth * Mm, PageHeight * Mm, LeftIndent * Mm, 104.5 * Mm));
  }

  method DrawAuthenticity(page: Canvas, style: ParagraphStyle, certLabel: string, s: Settings, verifyUuid: string)
    requires style.Snapshot() == Regular()
    modifies page, style
    ensures page.calls == old(page.calls) + [AuthenticityCall(certLabel, s, verifyUuid)]
  {
    style.fontSize := 9.0;
    style.alignment := Center;
    page.Record(DrawParagraph(AuthenticityText(certLabel, s, verifyUuid), style.Snapshot(),
                              PageWidth * Mm, PageHeight * Mm, -275.0 * Mm, 31.0 * Mm));
  }

  /** The four body paragraphs, drawn with the four styles the renderer
      creates; the body-text style is handed back, still regular, for the
      authenticity line. */
  method DrawBody(page: Canvas, width: TextWidth, dateString: string, studentName: string, grade: string,
                  interstitial: map<string, string>, unicode: bool)
    returns (regular: ParagraphStyle)
    modifies page
    ensures page.calls == old(page.calls) + [DateCall(width, dateString), CertifyCall(),
                                             NameCall(width, studentName, unicode), CompletedCall(grade, interstitial)]
    ensures fresh(regular) && regular.Snapshot() == Regular()
  {
    var arial := new ParagraphStyle(BaseStyle("arial", "Arial Unicode"));
    var openSansLight := new ParagraphStyle(BaseStyle("opensans-light", "OpenSans-Light"));
    var sourceSans := new ParagraphStyle(BaseStyle("sourcesans-regular", "SourceSansPro-Regular"));
    var sourceSansLight := new ParagraphStyle(BaseStyle("sourcesans-light", "SourceSansPro-Light"));
    DrawDate(page, sourceSansLight, width, dateString);
    DrawCertify(page, sourceSans);
    DrawName(page, openSansLight, arial, width, studentName, unicode);
    DrawCompleted(page, sourceSans, grade, interstitial);
    regular := sourceSans;
  }

  /** The overlay: the body, then, when the certificate can be verified, the
      authenticity line in the body-text style; `unicode` is whether the
      name needs the Unicode face. */
  method DrawOverlay(page: Canvas, width: TextWidth, s: Settings, dateString: string, studentName: string,
                     grade: string, interstitial: map<string, string>, verify: bool, verifyUuid: string,
                     certLabel: string, unicode: bool)
    requires unicode == HasCharacterAbove(studentName, 0x500)
    modifies page
    ensures page.calls == old(page.calls) + Overlay(width, s, dateString, studentName, grade, interstitial, verify,
                                                    verifyUuid, certLabel)
  {
    var sourceSans := DrawBody(page, width, dateString, studentName, grade, interstitial, unicode);
    if verify {
      DrawAuthenticity(page, sourceSans, certLabel, s, verifyUuid);
    }
  }
}
