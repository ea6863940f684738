/** The CME certificate renderer (openedx_certificates/renderers/cme.py):
    five methods, each drawing one paragraph on the page at a fixed place.

    Each paragraph is specified by a function giving the canvas call it
    makes, or the exception raised before drawing (no font of the list
    covers the text). Measurement and the font tables are fields of the
    renderer, standing for ReportLab and the table built at start-up. */
module Cme {
  import opened Values
  import opened Drawing
  import opened FontUtil

  /** `landscape(letter)`: 11 by 8.5 inches, in points. */
  const PageWidth: real := 792.0
  const PageHeight: real := 612.0

  /** Gap between the top margin and the date box. */
  const DateTopMarginOffset: real := 13.0

  /** The calls a paragraph step leaves on the page. */
  function CallsOf(r: Result<CanvasCall>): seq<CanvasCall> {
    if r.Ok? then [r.value] else []
  }

  /** How a paragraph step ends. */
  function OutcomeOf<T>(r: Result<T>): (outcome: Outcome)
    ensures outcome.Done? <==> r.Ok?
    ensures r.Err? ==> outcome == Failed(r.error)
  {
    if r.Ok? then Done else Failed(r.error)
  }

  /** `u"<b>{0}</b>".format(s)`. */
  function Bold(s: string): string {
    "<b>" + s + "</b>"
  }

  /** The tag for the kind of certificate: physicians (MD/DO) or allied
      health professionals. */
  function TagString(getsMdCert: bool): (tag: string)
    ensures tag == "MD/DO" <==> getsMdCert
    ensures tag == "AHP" <==> !getsMdCert
  {
    if getsMdCert then "MD/DO" else "AHP"
  }

  /** The credits sentence: nothing when CREDITS is unset, empty or
      otherwise false; the MD wording or the activity wording otherwise. A
      value that is not text cannot be decoded. */
  function CreditsString(certData: Dict, getsMdCert: bool): (r: Result<Option<string>>)
    ensures !Truthy(Get(certData, "CREDITS")) <==> r == Ok(None)
    ensures Truthy(Get(certData, "CREDITS")) && certData["CREDITS"].VStr? ==>
      r == Ok(Some((if getsMdCert then "and is awarded " else "The activity was designated for ") + certData["CREDITS"].s))
    ensures Truthy(Get(certData, "CREDITS")) && !certData["CREDITS"].VStr? ==> r == Err(AttributeError("decode"))
  {
    var creditInfo := Get(certData, "CREDITS");
    if !Truthy(creditInfo) then Ok(None)
    else if !creditInfo.VStr? then Err(AttributeError("decode"))
    else if getsMdCert then Ok(Some("and is awarded " + creditInfo.s))
    else Ok(Some("The activity was designated for " + creditInfo.s))
  }

  /** The styles each method starts from, before a font is chosen. */
  function DateStyle(color: string): StyleValues {
    DefaultStyle("date-text").(fontSize := 18.0, leading := 24.0, textColor := color, alignment := Right)
  }

  function NameStyle(color: string): StyleValues {
    DefaultStyle("big-name-text").(textColor := color, alignment := Left)
  }

  function CourseStyle(color: string): StyleValues {
    DefaultStyle("big-course-text").(textColor := color, alignment := Left)
  }

  function CreditsStyle(color: string): StyleValues {
    DefaultStyle("credits-text").(fontSize := 18.0, leading := 24.0, textColor := color, alignment := Left)
  }

  function TagStyle(color: string): StyleValues {
    DefaultStyle("tag-text").(fontSize := 10.0, leading := 12.0, textColor := color, alignment := Right)
  }

  /** The block a drawn paragraph occupies, as measured for its wrap box. */
  function BlockOf(measure: Measurer, c: CanvasCall): Dims
    requires c.DrawParagraph?
  {
    measure(WrapRequest(c.text, c.style.fontName, c.style.fontSize, c.style.leading, c.availWidth, c.availHeight))
  }

  /** The renderer: the certificate configuration, the page being drawn,
      the text colour, the font preference list and the text column (its
      width and the left margin). */
  class CmeRenderer {
    const certData: Dict
    const page: Canvas
    const color: string
    const fontList: seq<FontTuple<()>>
    const widthText: real
    const margin: real
    const tables: CharTables
    const measure: Measurer

    constructor (certData: Dict, page: Canvas, color: string, fontList: seq<FontTuple<()>>,
                 widthText: real, margin: real, tables: CharTables, measure: Measurer)
      ensures this.certData == certData && this.page == page && this.color == color
      ensures this.fontList == fontList && this.widthText == widthText && this.margin == margin
      ensures this.tables == tables && this.measure == measure
    {
      this.certData := certData;
      this.page := page;
      this.color := color;
      this.fontList := fontList;
      this.widthText := widthText;
      this.margin := margin;
      this.tables := tables;
      this.measure := measure;
    }

    // -------------------------------------------------------------------
    // What each method draws

    /** `draw_date_on_page`: a 200-point box, one font size high. */
    function DateParagraph(dateString: string): Result<CanvasCall> {
      var style :- StyleFor(tables, fontList, DateStyle(color), dateString);
      var maxWidth := 200.0;
      var maxHeight := style.fontSize;
      Ok(DrawParagraph(dateString, style, maxWidth, maxHeight,
        PageWidth - margin - maxWidth, PageHeight - margin - maxHeight - DateTopMarginOffset))
    }

    /** The autoscaling run of the student name. */
    function NameJob(text: string, fontName: string): ScaleJob {
      ScaleJob(text, fontName, 36.0, 36.0 * 1.5, widthText, 36.0 * 1.5)
    }

    /** `draw_student_name_on_page`: the bold name autoscaled from 36
        points in a box 54 points high, centred on it from 370 up. */
    function NameParagraph(studentName: string): Result<CanvasCall>
      requires ShrinksToFit(measure) && widthText >= 0.0
    {
      var text := Bold(studentName);
      var base :- StyleFor(tables, fontList, NameStyle(color), text);
      var job := NameJob(text, base.fontName);
      var k := FittedStep(measure, job);
      var block := measure(job.Request(k));
      var style := base.(fontSize := job.maxFontSize - k as real, leading := job.maxLeading - k as real);
      Ok(DrawParagraph(text, style, widthText, job.maxHeight, margin, 370.0 + (job.maxHeight - block.height) / 2.0))
    }

    /** The autoscaling run of the course title. */
    function CourseJob(text: string, fontName: string): ScaleJob {
      ScaleJob(text, fontName, 32.0, 32.0 * 1.3, widthText, 32.0 * 3.3)
    }

    /** `draw_course_on_page`: the bold title autoscaled from 32 points,
        centred on a box from 210 up raised by a fifth of the final size. */
    function CourseParagraph(courseName: string): Result<CanvasCall>
      requires ShrinksToFit(measure) && widthText >= 0.0
    {
      var text := Bold(courseName);
      var base :- StyleFor(tables, fontList, CourseStyle(color), text);
      var job := CourseJob(text, base.fontName);
      var k := FittedStep(measure, job);
      var block := measure(job.Request(k));
      var style := base.(fontSize := job.maxFontSize - k as real, leading := job.maxLeading - k as real);
      Ok(DrawParagraph(text, style, widthText, job.maxHeight, margin,
        210.0 + (job.maxHeight - block.height) / 2.0 + style.fontSize / 5.0))
    }

    /** `draw_credits_on_page`: the credits sentence at 175 points from the
        bottom, or nothing. */
    function CreditsParagraph(getsMdCert: bool): Result<Option<CanvasCall>> {
      var credits :- CreditsString(certData, getsMdCert);
      match credits
      case None => Ok(None)
      case Some(text) =>
        var style :- StyleFor(tables, fontList, CreditsStyle(color), text);
        Ok(Some(DrawParagraph(text, style, widthText, style.fontSize, margin, 175.0)))
    }

    /** `draw_tag_on_page`: the tag in a 50-point box ending at the right
        edge of the text column, 53 points from the bottom. */
    function TagParagraph(getsMdCert: bool): Result<CanvasCall> {
      var tag := TagString(getsMdCert);
      var style :- StyleFor(tables, fontList, TagStyle(color), tag);
      var maxWidth := 50.0;
      Ok(DrawParagraph(tag, style, maxWidth, style.fontSize, widthText + margin - maxWidth, 53.0))
    }

    // -------------------------------------------------------------------
    // What the paragraphs mean

    /** The date sits in the top right corner of the page: its box ends at
        the right margin and its top is 13 points below the top margin; it
        is 18-point text, right aligned, in the renderer's colour. */
    lemma DatePlacement(dateString: string)
      ensures DateParagraph(dateString).Ok? <==> FontChoice(tables, fontList, dateString).Ok?
      ensures DateParagraph(dateString).Err? ==> DateParagraph(dateString).error.ValueError?
      ensures DateParagraph(dateString).Ok? ==>
        var c := DateParagraph(dateString).value;
        c.DrawParagraph? && c.text == dateString &&
        c.left + c.availWidth == PageWidth - margin &&
        c.bottom + c.availHeight == PageHeight - margin - DateTopMarginOffset &&
        c.availWidth == 200.0 && c.availHeight == c.style.fontSize == 18.0 && c.style.leading == 24.0 &&
        c.style.alignment == Right && c.style.textColor == color &&
        c.style.fontName == FontChoice(tables, fontList, dateString).value.name
    {
    }

    /** The name is bold, no larger than 36 points with leading 18 points
        more, fits the text column 54 points high, and has equal space above
        and below it in the band from 370 to 424. */
    lemma NamePlacement(studentName: string)
      requires ShrinksToFit(measure) && widthText >= 0.0
      ensures NameParagraph(studentName).Err? ==> NameParagraph(studentName).error.ValueError?
      ensures NameParagraph(studentName).Ok? ==>
        var c := NameParagraph(studentName).value;
        var block := BlockOf(measure, c);
        c.DrawParagraph? && c.text == Bold(studentName) && c.left == margin &&
        c.availWidth == widthText && c.availHeight == 54.0 &&
        c.style.fontSize <= 36.0 && c.style.leading - c.style.fontSize == 18.0 &&
        FitsBox(block, widthText, 54.0) &&
        370.0 <= c.bottom && c.bottom + block.height <= 424.0 &&
        c.bottom - 370.0 == 424.0 - (c.bottom + block.height)
    {
      var text := Bold(studentName);
      if StyleFor(tables, fontList, NameStyle(color), text).Ok? {
        var base := StyleFor(tables, fontList, NameStyle(color), text).value;
        FittedStepIsLargestFit(measure, NameJob(text, base.fontName), 0);
      }
    }

    /** The name keeps 36 points exactly when it fits at 36 points. */
    lemma NameKeepsSizeWhenItFits(studentName: string)
      requires ShrinksToFit(measure) && widthText >= 0.0
      ensures NameParagraph(studentName).Ok? ==>
        var c := NameParagraph(studentName).value;
        (c.style.fontSize == 36.0 <==> FitsAt(measure, NameJob(Bold(studentName), c.style.fontName), 0))
    {
      var text := Bold(studentName);
      if StyleFor(tables, fontList, NameStyle(color), text).Ok? {
        var base := StyleFor(tables, fontList, NameStyle(color), text).value;
        FittedStepZeroIffFits(measure, NameJob(text, base.fontName));
      }
    }

    /** The course title is bold, no larger than 32 points with leading 1.3
        times the size it started from, fits the text column 105.6 points
        high, and is centred in that band from 210 up, raised by a fifth of
        its final size. */
    lemma CoursePlacement(courseName: string)
      requires ShrinksToFit(measure) && widthText >= 0.0
      ensures CourseParagraph(courseName).Err? ==> CourseParagraph(courseName).error.ValueError?
      ensures CourseParagraph(courseName).Ok? ==>
        var c := CourseParagraph(courseName).value;
        var block := BlockOf(measure, c);
        var low := 210.0 + c.style.fontSize / 5.0;
        c.DrawParagraph? && c.text == Bold(courseName) && c.left == margin &&
        c.availWidth == widthText && c.availHeight == 105.6 &&
        c.style.fontSize <= 32.0 && c.style.leading - c.style.fontSize == 9.6 &&
        FitsBox(block, widthText, 105.6) &&
        low <= c.bottom && c.bottom + block.height <= low + 105.6 &&
        c.bottom - low == low + 105.6 - (c.bottom + block.height)
    {
      var text := Bold(courseName);
      if StyleFor(tables, fontList, CourseStyle(color), text).Ok? {
        var base := StyleFor(tables, fontList, CourseStyle(color), text).value;
        FittedStepIsLargestFit(measure, CourseJob(text, base.fontName), 0);
      }
    }

    /** Credits are drawn exactly when CREDITS is set to a non-empty text,
        as the credits sentence at the left margin, 175 points up. */
    lemma CreditsPlacement(getsMdCert: bool)
      ensures !Truthy(Get(certData, "CREDITS")) ==> CreditsParagraph(getsMdCert) == Ok(None)
      ensures CreditsParagraph(getsMdCert).Ok? && CreditsParagraph(getsMdCert).value.Some? ==>
        var c := CreditsParagraph(getsMdCert).value.value;
        CreditsString(certData, getsMdCert) == Ok(Some(c.text)) &&
        c.DrawParagraph? && c.left == margin && c.bottom == 175.0 &&
        c.availWidth == widthText && c.availHeight == c.style.fontSize == 18.0 &&
        c.style.alignment == Left
    {
    }

    /** The tag names the kind of certificate and its 50-point box ends at
        the right edge of the text column, 53 points up, right aligned. */
    lemma TagPlacement(getsMdCert: bool)
      ensures TagParagraph(getsMdCert).Ok? <==> FontChoice(tables, fontList, TagString(getsMdCert)).Ok?
      ensures TagParagraph(getsMdCert).Ok? ==>
        var c := TagParagraph(getsMdCert).value;
        c.DrawParagraph? && (c.text == "MD/DO" <==> getsMdCert) &&
        c.left + c.availWidth == margin + widthText && c.availWidth == 50.0 &&
        c.bottom == 53.0 && c.availHeight == c.style.fontSize == 10.0 && c.style.alignment == Right
    {
    }

    // -------------------------------------------------------------------
    // The methods

    method DrawDateOnPage(dateString: string) returns (outcome: Outcome)
      modifies page
      ensures page.calls == old(page.calls) + CallsOf(DateParagraph(dateString))
      ensures outcome == OutcomeOf(DateParagraph(dateString))
    {
      var chosen := ChooseStyle(tables, fontList, DateStyle(color), dateString);
      if chosen.Err? {
        return Failed(chosen.error);
      }
      var style := chosen.value;
      var maxWidth := 200.0;
      var maxHeight := style.fontSize;
      page.Record(DrawParagraph(dateString, style.Snapshot(), maxWidth, maxHeight,
        PageWidth - margin - maxWidth, PageHeight - margin - maxHeight - DateTopMarginOffset));
      return Done;
    }

    method DrawStudentNameOnPage(studentName: string) returns (outcome: Outcome)
      requires ShrinksToFit(measure) && widthText >= 0.0
      modifies page
      ensures page.calls == old(page.calls) + CallsOf(NameParagraph(studentName))
      ensures outcome == OutcomeOf(NameParagraph(studentName))
    {
      var text := Bold(studentName);
      var chosen := ChooseStyle(tables, fontList, NameStyle(color), text);
      if chosen.Err? {
        return Failed(chosen.error);
      }
      var style := chosen.value;
      var maxFontSize := 36.0;
      var maxLeading := maxFontSize * 1.5;
      var maxHeight := maxFontSize * 1.5;
      var positionBottomMinimum := 370.0;
      var _ := AutoscaleText(measure, text, maxFontSize, maxLeading, maxHeight, widthText, style);
      var block := measure(WrapRequest(text, style.fontName, style.fontSize, style.leading, widthText, maxHeight));
      var positionBottom := positionBottomMinimum + (maxHeight - block.height) / 2.0;
      page.Record(DrawParagraph(text, style.Snapshot(), widthText, maxHeight, margin, positionBottom));
      return Done;
    }

    method DrawCourseOnPage(courseName: string) returns (outcome: Outcome)
      requires ShrinksToFit(measure) && widthText >= 0.0
      modifies page
      ensures page.calls == old(page.calls) + CallsOf(CourseParagraph(courseName))
      ensures outcome == OutcomeOf(CourseParagraph(courseName))
    {
      var text := Bold(courseName);
      var chosen := ChooseStyle(tables, fontList, CourseStyle(color), text);
      if chosen.Err? {
        return Failed(chosen.error);
      }
      var style := chosen.value;
      var maxFontSize := 32.0;
      var maxLeading := maxFontSize * 1.3;
      var maxHeight := maxFontSize * 3.3;
      var positionBottomMinimum := 210.0;
      var _ := AutoscaleText(measure, text, maxFontSize, maxLeading, maxHeight, widthText, style);
      var block := measure(WrapRequest(text, style.fontName, style.fontSize, style.leading, widthText, maxHeight));
      var positionBottom := positionBottomMinimum + (maxHeight - block.height) / 2.0 + style.fontSize / 5.0;
      page.Record(DrawParagraph(text, style.Snapshot(), widthText, maxHeight, margin, positionBottom));
      return Done;
    }

    method DrawCreditsOnPage(getsMdCert: bool) returns (outcome: Outcome)
      modifies page
      ensures CreditsParagraph(getsMdCert).Ok? && CreditsParagraph(getsMdCert).value.Some? ==>
        page.calls == old(page.calls) + [CreditsParagraph(getsMdCert).value.value]
      ensures CreditsParagraph(getsMdCert).Err? || CreditsParagraph(getsMdCert).value.None? ==>
        page.calls == old(page.calls)
      ensures outcome == OutcomeOf(CreditsParagraph(getsMdCert))
    {
      var credits := CreditsString(certData, getsMdCert);
      if credits.Err? {
        return Failed(credits.error);
      }
      if credits.value.None? {
        return Done;
      }
      var creditsString := credits.value.value;
      var chosen := ChooseStyle(tables, fontList, CreditsStyle(color), creditsString);
      if chosen.Err? {
        return Failed(chosen.error);
      }
      var style := chosen.value;
      var maxHeight := style.fontSize;
      var positionBottom := 175.0;
      page.Record(DrawParagraph(creditsString, style.Snapshot(), widthText, maxHeight, margin, positionBottom));
      return Done;
    }

    method DrawTagOnPage(getsMdCert: bool) returns (outcome: Outcome)
      modifies page
      ensures page.calls == old(page.calls) + CallsOf(TagParagraph(getsMdCert))
      ensures outcome == OutcomeOf(TagParagraph(getsMdCert))
    {
      var tagString := if getsMdCert then "MD/DO" else "AHP";
      var chosen := ChooseStyle(tables, fontList, TagStyle(color), tagString);
      if chosen.Err? {
        return Failed(chosen.error);
      }
      var tagStyle := chosen.value;
      var maxWidth := 50.0;
      var maxHeight := tagStyle.fontSize;
      var positionBottom := 53.0;
      page.Record(DrawParagraph(tagString, tagStyle.Snapshot(), maxWidth, maxHeight,
        widthText + margin - maxWidth, positionBottom));
      return Done;
    }
  }
}
