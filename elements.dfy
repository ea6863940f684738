/** The template element interpreter (openedx_certificates/renderers/elements.py):
    one drawing function per element kind of a certificate template, each
    turning the element's attribute dictionary into calls on the canvas.

    Each `draw_*` function is specified by a function returning the calls it
    makes and how it ends (`Drawn`), and implemented by a method that makes
    those calls on a `Canvas`. */
module Elements {
  import opened Values
  import opened Drawing
  import opened FontUtil
  import opened TextFormat

  /** What the renderer needs from its environment: the fonts' code point
      tables, text measurement, and the directory template files live in. */
  datatype Toolkit = Toolkit(tables: CharTables, measure: Measurer, templateDir: string)

  /** The calls an element makes on the canvas, and whether it completed or
      raised (the calls made before the exception stay on the canvas). */
  datatype Drawn = Drawn(calls: seq<CanvasCall>, outcome: Outcome)

  /** Run `first`, then `next` unless `first` raised. */
  function Then(first: Drawn, next: Drawn): Drawn {
    if first.outcome.Failed? then first else Drawn(first.calls + next.calls, next.outcome)
  }

  /** A drawing followed by another makes only calls of the two. */
  lemma ThenCalls(first: Drawn, next: Drawn)
    ensures forall c :: c in Then(first, next).calls ==> c in first.calls || c in next.calls
  {
  }

  /** A single call, or the exception raised while computing its arguments. */
  function Emit(r: Result<CanvasCall>): Drawn {
    match r
    case Ok(c) => Drawn([c], Done)
    case Err(e) => Drawn([], Failed(e))
  }

  /** The element kind each canvas call belongs to: the shape calls to their
      own kind, the line-style calls to rectangles and lines. */
  predicate DrawsAs(c: CanvasCall, element: string) {
    match c
    case Rect(_, _, _, _, _, _) => element == "rectangle"
    case Line(_, _, _, _) => element == "line"
    case DrawImage(_, _, _, _, _) => element == "image"
    case DrawParagraph(_, _, _, _, _, _) => element == "text"
    case SetFillColor(_) => element == "rectangle"
    case _ => element == "rectangle" || element == "line"
  }

  // ---------------------------------------------------------------------
  // Alignment

  /** `_translate_reportlab_alignment`: the name of the ReportLab constant
      for an alignment keyword. */
  function TranslateAlignment(alignment: string): (r: string)
    ensures |r| == |alignment| + 3 && r[..3] == "TA_"
    ensures forall i :: 3 <= i < |r| ==> r[i] == UpperChar(alignment[i - 3])
  {
    "TA_" + Upper(alignment)
  }

  /** `getattr(reportlab.lib.enums, name)` for the alignment constants; any
      other name raises AttributeError. */
  function AlignmentConstant(name: string): (r: Result<Alignment>)
    ensures r.Ok? <==> name in {"TA_LEFT", "TA_CENTER", "TA_RIGHT", "TA_JUSTIFY"}
    ensures r.Err? ==> r.error == AttributeError(name)
  {
    if name == "TA_LEFT" then Ok(Left)
    else if name == "TA_CENTER" then Ok(Center)
    else if name == "TA_RIGHT" then Ok(Right)
    else if name == "TA_JUSTIFY" then Ok(Justify)
    else Err(AttributeError(name))
  }

  /** Alignment keywords are case-insensitive: a keyword and its lower-case
      form name the same constant. */
  lemma {:induction false} TranslateAlignmentIgnoresCase(alignment: string)
    ensures TranslateAlignment(Lower(alignment)) == TranslateAlignment(alignment)
  {
    var a := TranslateAlignment(Lower(alignment));
    var b := TranslateAlignment(alignment);
    forall i | 0 <= i < |a| ensures a[i] == b[i] {
      if i < 3 {
        assert a[..3][i] == b[..3][i];
      } else {
        assert Lower(alignment)[i - 3] == LowerChar(alignment[i - 3]);
      }
    }
  }

  lemma UpperIs(s: string, u: string)
    requires |s| == |u| && forall i :: 0 <= i < |s| ==> UpperChar(s[i]) == u[i]
    ensures Upper(s) == u
  {
  }

  /** An alignment keyword resolves, in any case, exactly when it is left,
      center, right or justify, and then to the constant it names; any other
      keyword, such as the misspelt "centre", raises AttributeError naming
      the constant looked up. */
  lemma AlignmentKeywords(alignment: string)
    ensures var r := AlignmentConstant(TranslateAlignment(alignment));
      var u := Upper(alignment);
      (r.Ok? <==> u in {"LEFT", "CENTER", "RIGHT", "JUSTIFY"}) &&
      (u == "LEFT" ==> r == Ok(Left)) && (u == "CENTER" ==> r == Ok(Center)) &&
      (u == "RIGHT" ==> r == Ok(Right)) && (u == "JUSTIFY" ==> r == Ok(Justify)) &&
      (r.Err? ==> r.error == AttributeError("TA_" + u))
  {
    var u := Upper(alignment);
    var t := TranslateAlignment(alignment);
    assert t[3..] == u;
    if t == "TA_LEFT" {
      assert u == "TA_LEFT"[3..] == "LEFT";
    } else if t == "TA_CENTER" {
      assert u == "TA_CENTER"[3..] == "CENTER";
    } else if t == "TA_RIGHT" {
      assert u == "TA_RIGHT"[3..] == "RIGHT";
    } else if t == "TA_JUSTIFY" {
      assert u == "TA_JUSTIFY"[3..] == "JUSTIFY";
    }
  }

  // ---------------------------------------------------------------------
  // Rectangles and lines

  /** A stroke is drawn when a stroke colour or a stroke width is given. */
  predicate Strokes(attrs: Dict) {
    Truthy(Get(attrs, "stroke_color")) || Truthy(Get(attrs, "stroke_width"))
  }

  /** A fill is drawn when a fill colour is given. */
  predicate Fills(attrs: Dict) {
    Truthy(Get(attrs, "fill_color"))
  }

  /** `v or default`. */
  function OrDefault(v: Value, default: Value): Value {
    if Truthy(v) then v else default
  }

  /** Setting the line width and stroke colour, defaulting to width 1 and
      black. */
  function StrokeDrawn(attrs: Dict): (d: Drawn)
    ensures d.outcome.Done? ==> |d.calls| == 2 && d.calls[0].SetLineWidth? && d.calls[1].SetStrokeColor?
    ensures d.outcome.Done? && !Truthy(Get(attrs, "stroke_width")) ==> d.calls[0] == SetLineWidth(1.0)
    ensures d.outcome.Done? && !Truthy(Get(attrs, "stroke_color")) ==> d.calls[1] == SetStrokeColor("#000000")
    ensures d.outcome.Done? && Truthy(Get(attrs, "stroke_width")) ==> Get(attrs, "stroke_width") == VNum(d.calls[0].lineWidth)
    ensures d.outcome.Done? && Truthy(Get(attrs, "stroke_color")) ==> Get(attrs, "stroke_color") == VStr(d.calls[1].strokeColor)
    ensures d.outcome.Failed? ==> |d.calls| <= 1
  {
    var width := OrDefault(Get(attrs, "stroke_width"), VNum(1.0));
    var color := OrDefault(Get(attrs, "stroke_color"), VStr("#000000"));
    if !width.VNum? then Drawn([], Failed(TypeError("stroke_width")))
    else if !color.VStr? then Drawn([SetLineWidth(width.n)], Failed(TypeError("stroke_color")))
    else Drawn([SetLineWidth(width.n), SetStrokeColor(color.s)], Done)
  }

  function FillDrawn(attrs: Dict): Drawn {
    var color := Get(attrs, "fill_color");
    if color.VStr? then Drawn([SetFillColor(color.s)], Done) else Drawn([], Failed(TypeError("fill_color")))
  }

  function RectCall(attrs: Dict, stroke: bool, fill: bool): Result<CanvasCall> {
    var x :- NumAt(attrs, "x");
    var y :- NumAt(attrs, "y");
    var width :- NumAt(attrs, "width");
    var height :- NumAt(attrs, "height");
    Ok(Rect(x, y, width, height, stroke, fill))
  }

  /** `draw_rectangle`. */
  function RectangleDrawn(attrs: Dict): Drawn
  {
    var stroke := Strokes(attrs);
    var fill := Fills(attrs);
    var strokeStep := if stroke then StrokeDrawn(attrs) else Drawn([], Done);
    var fillStep := if fill then FillDrawn(attrs) else Drawn([], Done);
    var frame := if stroke || fill then Emit(RectCall(attrs, stroke, fill)) else Drawn([], Done);
    Then(strokeStep, Then(fillStep, frame))
  }

  /** What `draw_rectangle` draws: nothing without a stroke or a fill;
      otherwise a rectangle last, with the given corner and size, stroked and
      filled exactly as asked. */
  lemma RectangleDrawnMeaning(attrs: Dict)
    ensures !Strokes(attrs) && !Fills(attrs) ==> RectangleDrawn(attrs) == Drawn([], Done)
    ensures RectangleDrawn(attrs).outcome.Done? && (Strokes(attrs) || Fills(attrs)) ==>
      |RectangleDrawn(attrs).calls| > 0 && RectangleDrawn(attrs).calls[|RectangleDrawn(attrs).calls| - 1].Rect?
    ensures forall c :: c in RectangleDrawn(attrs).calls && c.Rect? ==>
      RectangleDrawn(attrs).outcome.Done? && c.stroke == Strokes(attrs) && c.fill == Fills(attrs) &&
      NumAt(attrs, "x") == Ok(c.x) && NumAt(attrs, "y") == Ok(c.y) &&
      NumAt(attrs, "width") == Ok(c.width) && NumAt(attrs, "height") == Ok(c.height)
  {
    var stroke := Strokes(attrs);
    var fill := Fills(attrs);
    var strokeStep := if stroke then StrokeDrawn(attrs) else Drawn([], Done);
    var fillStep := if fill then FillDrawn(attrs) else Drawn([], Done);
    var frame := if stroke || fill then Emit(RectCall(attrs, stroke, fill)) else Drawn([], Done);
    assert forall c :: c in strokeStep.calls ==> !c.Rect?;
    assert forall c :: c in fillStep.calls ==> !c.Rect?;
    ThenCalls(fillStep, frame);
    ThenCalls(strokeStep, Then(fillStep, frame));
  }

  /** The line settings before the rectangle: the stroke width and colour
      first when stroking, the fill colour when filling, and neither
      otherwise. */
  lemma RectangleStyleMeaning(attrs: Dict)
    ensures Strokes(attrs) && RectangleDrawn(attrs).outcome.Done? ==>
      |RectangleDrawn(attrs).calls| >= 2 && RectangleDrawn(attrs).calls[..2] == StrokeDrawn(attrs).calls
    ensures Fills(attrs) && RectangleDrawn(attrs).outcome.Done? ==>
      attrs["fill_color"].VStr? && SetFillColor(attrs["fill_color"].s) in RectangleDrawn(attrs).calls
    ensures forall c :: c in RectangleDrawn(attrs).calls && (c.SetLineWidth? || c.SetStrokeColor?) ==> Strokes(attrs)
    ensures forall c :: c in RectangleDrawn(attrs).calls && c.SetFillColor? ==> Fills(attrs)
  {
  }

  function LineCall(attrs: Dict): Result<CanvasCall> {
    var xStart :- NumAt(attrs, "x_start");
    var yStart :- NumAt(attrs, "y_start");
    var xEnd :- NumAt(attrs, "x_end");
    var yEnd :- NumAt(attrs, "y_end");
    Ok(Line(xStart, yStart, xEnd, yEnd))
  }

  /** `draw_line`: the line is drawn only with a stroke. */
  function LineDrawn(attrs: Dict): Drawn
  {
    if Strokes(attrs) then Then(StrokeDrawn(attrs), Emit(LineCall(attrs))) else Drawn([], Done)
  }

  /** What `draw_line` draws: nothing without a stroke; otherwise the stroke settings and the line between the given end points. */
  lemma LineDrawnMeaning(attrs: Dict)
    ensures !Strokes(attrs) ==> LineDrawn(attrs) == Drawn([], Done)
    ensures LineDrawn(attrs).outcome.Done? && Strokes(attrs) ==> |LineDrawn(attrs).calls| == 3 && LineDrawn(attrs).calls[2].Line?
    ensures forall c :: c in LineDrawn(attrs).calls && c.Line? ==>
      LineDrawn(attrs).outcome.Done? && NumAt(attrs, "x_start") == Ok(c.xStart) && NumAt(attrs, "y_start") == Ok(c.yStart) &&
      NumAt(attrs, "x_end") == Ok(c.xEnd) && NumAt(attrs, "y_end") == Ok(c.yEnd)
    ensures Strokes(attrs) && LineDrawn(attrs).outcome.Done? ==> LineDrawn(attrs).calls[..2] == StrokeDrawn(attrs).calls
  {
  }

  // ---------------------------------------------------------------------
  // Images

  function ImageCall(templateDir: string, attrs: Dict): Result<CanvasCall> {
    var file :- if "file" in attrs then AsStr(attrs["file"], "file") else Err(KeyError("file"));
    var x :- NumAt(attrs, "x");
    var y :- NumAt(attrs, "y");
    var width :- NumAt(attrs, "width");
    var height :- NumAt(attrs, "height");
    Ok(DrawImage(PathJoin(templateDir, file), x, y, width, height))
  }

  /** `draw_image`: the file is looked up in the template directory. */
  function ImageDrawn(templateDir: string, attrs: Dict): (d: Drawn)
    ensures "file" !in attrs ==> d == Drawn([], Failed(KeyError("file")))
    ensures d.outcome.Done? <==> |d.calls| == 1
    ensures d.outcome.Done? ==>
      var c := d.calls[0];
      c.DrawImage? && attrs["file"].VStr? && c.file == PathJoin(templateDir, attrs["file"].s) &&
      NumAt(attrs, "x") == Ok(c.imageX) && NumAt(attrs, "y") == Ok(c.imageY) &&
      NumAt(attrs, "width") == Ok(c.imageWidth) && NumAt(attrs, "height") == Ok(c.imageHeight)
  {
    Emit(ImageCall(templateDir, attrs))
  }

  // ---------------------------------------------------------------------
  // Text

  /** The settings `draw_text` reads from an element. */
  datatype TextSettings = TextSettings(
    text: string,
    fontSize: real,
    leading: real,
    textColor: string,
    height: real,
    width: real,
    x: real,
    y: real,
    alignment: Alignment,
    autoScale: bool)

  /** Python truthiness of the optional substitution context. */
  predicate HasContext(context: Option<map<string, string>>) {
    context.Some? && context.value != map[]
  }

  /** The element's text, with the context substituted when there is one. */
  function ElementText(attrs: Dict, context: Option<map<string, string>>): Result<string> {
    var raw :- if "string" in attrs then AsStr(attrs["string"], "string") else Err(KeyError("string"));
    if HasContext(context) then Format(raw, context.value) else Ok(raw)
  }

  /** Reading the settings of a text element: size and leading default to
      12, colour to black and alignment to left; text, box and position are
      required. */
  function ReadTextSettings(attrs: Dict, context: Option<map<string, string>>): (r: Result<TextSettings>)
  {
    var text :- ElementText(attrs, context);
    var fontSize :- NumOr(attrs, "font_size", 12.0);
    var leading :- NumOr(attrs, "leading", 12.0);
    var textColor :- StrOr(attrs, "text_color", "#000000");
    var height :- NumAt(attrs, "height");
    var width :- NumAt(attrs, "width");
    var x :- NumAt(attrs, "x");
    var y :- NumAt(attrs, "y");
    var alignmentName :- StrOr(attrs, "alignment", "left");
    var alignment :- AlignmentConstant(TranslateAlignment(alignmentName));
    Ok(TextSettings(text, fontSize, leading, textColor, height, width, x, y, alignment,
      Truthy(Get(attrs, "auto_scale"))))
  }

  /** Settings `t` are those of a text element: the text is the element's
      string, with the context substituted when there is one; size and
      leading default to 12, colour to black and alignment to left; box and
      position are the element's own numbers. */
  predicate SettingsOf(attrs: Dict, context: Option<map<string, string>>, t: TextSettings) {
    "string" in attrs && attrs["string"].VStr? &&
    (if HasContext(context) then Format(attrs["string"].s, context.value) == Ok(t.text)
     else attrs["string"].s == t.text) &&
    NumOr(attrs, "font_size", 12.0) == Ok(t.fontSize) &&
    NumOr(attrs, "leading", 12.0) == Ok(t.leading) &&
    StrOr(attrs, "text_color", "#000000") == Ok(t.textColor) &&
    ("alignment" !in attrs ==> t.alignment == Left) &&
    NumAt(attrs, "height") == Ok(t.height) && NumAt(attrs, "width") == Ok(t.width) &&
    NumAt(attrs, "x") == Ok(t.x) && NumAt(attrs, "y") == Ok(t.y) &&
    t.autoScale == Truthy(Get(attrs, "auto_scale"))
  }

  /** Reading a text element: the settings are the element's, and a missing
      string raises KeyError. */
  lemma ReadTextSettingsMeaning(attrs: Dict, context: Option<map<string, string>>)
    ensures "string" !in attrs ==> ReadTextSettings(attrs, context) == Err(KeyError("string"))
    ensures ReadTextSettings(attrs, context).Ok? ==> SettingsOf(attrs, context, ReadTextSettings(attrs, context).value)
  {
    UpperIs("left", "LEFT");
    AlignmentKeywords("left");
  }

  /** A number that is not negative, when it is a number at all. */
  predicate NonNegativeIfNum(v: Value) {
    v.VNum? ==> v.n >= 0.0
  }

  /** An autoscaled text element's box must not be negative: the measurer
      assumption `ShrinksToFit`, which makes the shrinking loop of
      `autoscale_text` end, speaks only of such boxes. */
  predicate AutoscaleBoxOk(attrs: Dict) {
    Truthy(Get(attrs, "auto_scale")) ==>
      NonNegativeIfNum(Get(attrs, "width")) && NonNegativeIfNum(Get(attrs, "height"))
  }

  /** Bottom edge of a fixed-size text block: its top edge is the top edge
      of the box. */
  function FixedTextY(y: real, boxHeight: real, blockHeight: real): (bottom: real)
    ensures bottom + blockHeight == y + boxHeight
    ensures blockHeight <= boxHeight ==> y <= bottom
  {
    y + (boxHeight - blockHeight)
  }

  /** Bottom edge of an autoscaled text block: centred in the box, then
      raised by a fifth of the font size. */
  function AutoscaledTextY(y: real, boxHeight: real, blockHeight: real, fontSize: real): (bottom: real)
    ensures bottom + blockHeight / 2.0 == y + boxHeight / 2.0 + fontSize / 5.0
    ensures blockHeight <= boxHeight ==>
      y + fontSize / 5.0 <= bottom && bottom + blockHeight <= y + boxHeight + fontSize / 5.0
  {
    y + (boxHeight - blockHeight) / 2.0 + fontSize / 5.0
  }

  /** The style `draw_text` builds before choosing a font. */
  function BaseTextStyle(t: TextSettings): StyleValues {
    DefaultStyle("text").(fontSize := t.fontSize, leading := t.leading, textColor := t.textColor,
      alignment := t.alignment)
  }

  /** The block a paragraph call lays out. */
  function BlockOf(kit: Toolkit, c: CanvasCall): Dims
    requires c.DrawParagraph?
  {
    kit.measure(WrapRequest(c.text, c.style.fontName, c.style.fontSize, c.style.leading, c.availWidth, c.availHeight))
  }

  /** What `draw_text` promises of the paragraph it draws for settings `t`
      in a font: text, colour, alignment, width and left edge as given; an
      autoscaled paragraph is no larger than asked, keeps the gap between
      size and leading, fits the box and lies inside the box raised by a
      fifth of its size; any other paragraph keeps its size and leading and
      hangs from the top of the box. */
  predicate PlacedAsText(kit: Toolkit, t: TextSettings, fontName: string, c: CanvasCall) {
    c.DrawParagraph? && c.text == t.text && c.left == t.x &&
    c.availWidth == t.width && c.availHeight == t.height &&
    c.style.fontName == fontName && c.style.textColor == t.textColor && c.style.alignment == t.alignment &&
    var block := BlockOf(kit, c);
    if t.autoScale then
      c.style.fontSize <= t.fontSize && c.style.fontSize - c.style.leading == t.fontSize - t.leading &&
      FitsBox(block, t.width, t.height) &&
      t.y + c.style.fontSize / 5.0 <= c.bottom && c.bottom + block.height <= t.y + t.height + c.style.fontSize / 5.0
    else
      c.style.fontSize == t.fontSize && c.style.leading == t.leading &&
      c.bottom + block.height == t.y + t.height
  }

  /** The paragraph drawn for text settings in the chosen font. */
  function TextParagraph(kit: Toolkit, t: TextSettings, fontName: string): (c: CanvasCall)
    requires ShrinksToFit(kit.measure) && (t.autoScale ==> t.width >= 0.0 && t.height >= 0.0)
  {
    var style := BaseTextStyle(t).(fontName := fontName);
    if t.autoScale then
      var job := ScaleJob(t.text, fontName, t.fontSize, t.leading, t.width, t.height);
      var k := FittedStep(kit.measure, job);
      var block := kit.measure(job.Request(k));
      var fitted := style.(fontSize := t.fontSize - k as real, leading := t.leading - k as real);
      DrawParagraph(t.text, fitted, t.width, t.height, t.x,
        AutoscaledTextY(t.y, t.height, block.height, fitted.fontSize))
    else
      var block := kit.measure(WrapRequest(t.text, fontName, t.fontSize, t.leading, t.width, t.height));
      DrawParagraph(t.text, style, t.width, t.height, t.x, FixedTextY(t.y, t.height, block.height))
  }

  /** The paragraph is placed as `PlacedAsText` says. */
  lemma TextParagraphPlaced(kit: Toolkit, t: TextSettings, fontName: string)
    requires ShrinksToFit(kit.measure) && (t.autoScale ==> t.width >= 0.0 && t.height >= 0.0)
    ensures PlacedAsText(kit, t, fontName, TextParagraph(kit, t, fontName))
  {
    if t.autoScale {
      FittedStepIsLargestFit(kit.measure, ScaleJob(t.text, fontName, t.fontSize, t.leading, t.width, t.height), 0);
    }
  }

  /** The text element once its settings are read: one paragraph, placed
      as `PlacedAsText` says, in the first font of the list that has all
      its characters (the first font of the list for empty text); when no
      font has them, ValueError and nothing drawn. */
  function SettingsDrawn<S>(kit: Toolkit, fonts: seq<FontTuple<S>>, t: TextSettings): Drawn
    requires ShrinksToFit(kit.measure) && (t.autoScale ==> t.width >= 0.0 && t.height >= 0.0)
  {
    match ChosenFont(kit.tables, Names(fonts), t.text)
    case None => Drawn([], Failed(ValueError("Nothing in fontlist supports string")))
    case Some(i) => Drawn([TextParagraph(kit, t, fonts[i].name)], Done)
  }

  /** The font and paragraph `draw_text` uses, or the ValueError when no font covers the text. */
  lemma SettingsDrawnMeaning<S>(kit: Toolkit, fonts: seq<FontTuple<S>>, t: TextSettings)
    requires ShrinksToFit(kit.measure) && (t.autoScale ==> t.width >= 0.0 && t.height >= 0.0)
    ensures SettingsDrawn(kit, fonts, t).outcome.Done? <==> |SettingsDrawn(kit, fonts, t).calls| == 1
    ensures SettingsDrawn(kit, fonts, t).outcome.Failed? ==> SettingsDrawn(kit, fonts, t).calls == [] && SettingsDrawn(kit, fonts, t).outcome.error.ValueError?
    ensures SettingsDrawn(kit, fonts, t).outcome.Done? ==>
      SettingsDrawn(kit, fonts, t).calls[0].DrawParagraph? &&
      PlacedAsText(kit, t, SettingsDrawn(kit, fonts, t).calls[0].style.fontName, SettingsDrawn(kit, fonts, t).calls[0]) &&
      SettingsDrawn(kit, fonts, t).calls[0].style.fontName in Names(fonts) &&
      (t.text != [] ==> Covers(kit.tables, SettingsDrawn(kit, fonts, t).calls[0].style.fontName, t.text))
    ensures SettingsDrawn(kit, fonts, t).outcome.Failed? <==> ChosenFont(kit.tables, Names(fonts), t.text).None?
  {
    match ChosenFont(kit.tables, Names(fonts), t.text)
    case None =>
    case Some(i) => TextParagraphPlaced(kit, t, fonts[i].name);
  }

  /** `draw_text`: reading the settings, then drawing them. */
  function TextDrawn<S>(kit: Toolkit, fonts: seq<FontTuple<S>>, attrs: Dict, context: Option<map<string, string>>)
    : Drawn
    requires ShrinksToFit(kit.measure) && AutoscaleBoxOk(attrs)
  {
    match ReadTextSettings(attrs, context)
    case Err(e) => Drawn([], Failed(e))
    case Ok(t) =>
      ReadTextSettingsMeaning(attrs, context);
      SettingsDrawn(kit, fonts, t)
  }

  /** A text element whose settings cannot be read raises before anything is drawn; otherwise it is drawn from its settings. */
  lemma TextDrawnMeaning<S>(kit: Toolkit, fonts: seq<FontTuple<S>>, attrs: Dict, context: Option<map<string, string>>)
    requires ShrinksToFit(kit.measure) && AutoscaleBoxOk(attrs)
    ensures ReadTextSettings(attrs, context).Err? ==> TextDrawn(kit, fonts, attrs, context) == Drawn([], Failed(ReadTextSettings(attrs, context).error))
    ensures ReadTextSettings(attrs, context).Ok? ==>
      var t := ReadTextSettings(attrs, context).value;
      (t.autoScale ==> t.width >= 0.0 && t.height >= 0.0) && TextDrawn(kit, fonts, attrs, context) == SettingsDrawn(kit, fonts, t)
  {
    ReadTextSettingsMeaning(attrs, context);
  }

  // ---------------------------------------------------------------------
  // Dispatch

  /** The keys of ELEMENT_OPTIONS. */
  const ElementKinds: set<string> := {"rectangle", "line", "image", "text"}

  /** What a template element asks of its drawing function. */
  predicate ElementOk(element: string, attrs: Dict) {
    element == "text" ==> AutoscaleBoxOk(attrs)
  }

  /** `draw_template_element`: the drawing function for the element kind;
      an unknown kind raises KeyError before anything is drawn. */
  function ElementDrawn<S>(kit: Toolkit, fonts: seq<FontTuple<S>>, element: string, attrs: Dict,
                           context: Option<map<string, string>>): (d: Drawn)
    requires ShrinksToFit(kit.measure) && ElementOk(element, attrs)
    ensures element !in ElementKinds ==> d == Drawn([], Failed(KeyError(element)))
  {
    if element == "rectangle" then RectangleDrawn(attrs)
    else if element == "line" then LineDrawn(attrs)
    else if element == "image" then ImageDrawn(kit.templateDir, attrs)
    else if element == "text" then TextDrawn(kit, fonts, attrs, context)
    else Drawn([], Failed(KeyError(element)))
  }

  /** Each element kind makes only its own kind of canvas call: images
      never draw text, text never draws shapes, and so on. */
  lemma ElementDrawsOwnKind<S>(kit: Toolkit, fonts: seq<FontTuple<S>>, element: string, attrs: Dict,
                               context: Option<map<string, string>>)
    requires ShrinksToFit(kit.measure) && ElementOk(element, attrs)
    ensures forall c :: c in ElementDrawn(kit, fonts, element, attrs, context).calls ==> DrawsAs(c, element)
  {
    if element == "rectangle" {
      RectangleDrawsRectangle(attrs);
    } else if element == "line" {
      LineDrawsLine(attrs);
    } else if element == "text" {
      var d := TextDrawn(kit, fonts, attrs, context);
      TextDrawnMeaning(kit, fonts, attrs, context);
      match ReadTextSettings(attrs, context)
      case Err(_) =>
      case Ok(t) =>
        SettingsDrawnMeaning(kit, fonts, t);
        assert d.calls == [] || d.calls == [d.calls[0]];
    }
  }

  lemma RectangleDrawsRectangle(attrs: Dict)
    ensures forall c :: c in RectangleDrawn(attrs).calls ==> DrawsAs(c, "rectangle")
  {
    var stroke, fill := Strokes(attrs), Fills(attrs);
    var strokeStep := if stroke then StrokeDrawn(attrs) else Drawn([], Done);
    var fillStep := if fill then FillDrawn(attrs) else Drawn([], Done);
    var frame := if stroke || fill then Emit(RectCall(attrs, stroke, fill)) else Drawn([], Done);
    ThenCalls(fillStep, frame);
    ThenCalls(strokeStep, Then(fillStep, frame));
    assert forall c :: c in strokeStep.calls ==> c.SetLineWidth? || c.SetStrokeColor?;
    assert forall c :: c in fillStep.calls ==> c.SetFillColor?;
    assert forall c :: c in frame.calls ==> c.Rect?;
  }

  lemma LineDrawsLine(attrs: Dict)
    ensures forall c :: c in LineDrawn(attrs).calls ==> DrawsAs(c, "line")
  {
    var d := LineDrawn(attrs);
    forall c | c in d.calls ensures DrawsAs(c, "line") {
      if c.Rect? || c.DrawImage? || c.DrawParagraph? || c.SetFillColor? {
        assert c in StrokeDrawn(attrs).calls || c in Emit(LineCall(attrs)).calls;
      }
    }
  }

  /** One entry of a template's step list: an element kind and its
      attributes. */
  datatype Step = Step(element: string, attributes: Dict)

  predicate StepsOk(steps: seq<Step>) {
    forall i :: 0 <= i < |steps| ==> ElementOk(steps[i].element, steps[i].attributes)
  }

  /** Drawing the first `n` elements of a step list in order, stopping at
      the first that raises. */
  function PrefixDrawn<S>(kit: Toolkit, fonts: seq<FontTuple<S>>, steps: seq<Step>, n: nat,
                          context: Option<map<string, string>>): Drawn
    requires ShrinksToFit(kit.measure) && StepsOk(steps) && n <= |steps|
  {
    if n == 0 then Drawn([], Done)
    else
      Then(PrefixDrawn(kit, fonts, steps, n - 1, context),
        ElementDrawn(kit, fonts, steps[n - 1].element, steps[n - 1].attributes, context))
  }

  /** Drawing a whole step list. */
  function StepsDrawn<S>(kit: Toolkit, fonts: seq<FontTuple<S>>, steps: seq<Step>,
                         context: Option<map<string, string>>): Drawn
    requires ShrinksToFit(kit.measure) && StepsOk(steps)
  {
    PrefixDrawn(kit, fonts, steps, |steps|, context)
  }

  /** The step list completes exactly when every element does, and then
      its calls are the elements' calls in order. */
  lemma {:induction false} PrefixDrawnDone<S>(kit: Toolkit, fonts: seq<FontTuple<S>>, steps: seq<Step>, n: nat,
                                            context: Option<map<string, string>>)
    requires ShrinksToFit(kit.measure) && StepsOk(steps) && n <= |steps|
    ensures PrefixDrawn(kit, fonts, steps, n, context).outcome.Done? <==>
      forall i :: 0 <= i < n ==>
        ElementDrawn(kit, fonts, steps[i].element, steps[i].attributes, context).outcome.Done?
    ensures n > 0 && PrefixDrawn(kit, fonts, steps, n, context).outcome.Done? ==>
      PrefixDrawn(kit, fonts, steps, n, context).calls ==
        PrefixDrawn(kit, fonts, steps, n - 1, context).calls +
        ElementDrawn(kit, fonts, steps[n - 1].element, steps[n - 1].attributes, context).calls
  {
    if n > 0 {
      PrefixDrawnDone(kit, fonts, steps, n - 1, context);
    }
  }

  /** After a prefix that completes, one more element adds its calls and
      decides the outcome. */
  lemma PrefixDrawnNext<S>(kit: Toolkit, fonts: seq<FontTuple<S>>, steps: seq<Step>, n: nat,
                           context: Option<map<string, string>>)
    requires ShrinksToFit(kit.measure) && StepsOk(steps) && n < |steps|
    requires PrefixDrawn(kit, fonts, steps, n, context).outcome.Done?
    ensures var element := ElementDrawn(kit, fonts, steps[n].element, steps[n].attributes, context);
      PrefixDrawn(kit, fonts, steps, n + 1, context) ==
        Drawn(PrefixDrawn(kit, fonts, steps, n, context).calls + element.calls, element.outcome)
  {
  }

  /** Once an element raises, the later elements draw nothing. */
  lemma {:induction false} PrefixDrawnAfterFailure<S>(kit: Toolkit, fonts: seq<FontTuple<S>>, steps: seq<Step>,
                                                    n: nat, m: nat, context: Option<map<string, string>>)
    requires ShrinksToFit(kit.measure) && StepsOk(steps) && n <= m <= |steps|
    requires PrefixDrawn(kit, fonts, steps, n, context).outcome.Failed?
    ensures PrefixDrawn(kit, fonts, steps, m, context) == PrefixDrawn(kit, fonts, steps, n, context)
    decreases m - n
  {
    if n < m {
      PrefixDrawnAfterFailure(kit, fonts, steps, n, m - 1, context);
    }
  }

  // ---------------------------------------------------------------------
  // Drawing on the canvas

  /** `draw_rectangle` on a canvas. */
  method DrawRectangle(attrs: Dict, canvas: Canvas) returns (outcome: Outcome)
    modifies canvas
    ensures canvas.calls == old(canvas.calls) + RectangleDrawn(attrs).calls
    ensures outcome == RectangleDrawn(attrs).outcome
  {
    var stroke := false;
    var strokeColor := Get(attrs, "stroke_color");
    var strokeWidth := Get(attrs, "stroke_width");
    if Truthy(strokeColor) || Truthy(strokeWidth) {
      strokeColor := OrDefault(strokeColor, VStr("#000000"));
      strokeWidth := OrDefault(strokeWidth, VNum(1.0));
      stroke := true;
      if !strokeWidth.VNum? {
        return Failed(TypeError("stroke_width"));
      }
      canvas.Record(SetLineWidth(strokeWidth.n));
      if !strokeColor.VStr? {
        return Failed(TypeError("stroke_color"));
      }
      canvas.Record(SetStrokeColor(strokeColor.s));
    }
    var fill := false;
    var fillColor := Get(attrs, "fill_color");
    if Truthy(fillColor) {
      if !fillColor.VStr? {
        return Failed(TypeError("fill_color"));
      }
      canvas.Record(SetFillColor(fillColor.s));
      fill := true;
    }
    if stroke || fill {
      var rect := RectCall(attrs, stroke, fill);
      if rect.Err? {
        return Failed(rect.error);
      }
      canvas.Record(rect.value);
    }
    return Done;
  }

  /** `draw_line` on a canvas. */
  method DrawLine(attrs: Dict, canvas: Canvas) returns (outcome: Outcome)
    modifies canvas
    ensures canvas.calls == old(canvas.calls) + LineDrawn(attrs).calls
    ensures outcome == LineDrawn(attrs).outcome
  {
    var strokeColor := Get(attrs, "stroke_color");
    var strokeWidth := Get(attrs, "stroke_width");
    if Truthy(strokeColor) || Truthy(strokeWidth) {
      strokeColor := OrDefault(strokeColor, VStr("#000000"));
      strokeWidth := OrDefault(strokeWidth, VNum(1.0));
      if !strokeWidth.VNum? {
        return Failed(TypeError("stroke_width"));
      }
      canvas.Record(SetLineWidth(strokeWidth.n));
      if !strokeColor.VStr? {
        return Failed(TypeError("stroke_color"));
      }
      canvas.Record(SetStrokeColor(strokeColor.s));
      var line := LineCall(attrs);
      if line.Err? {
        return Failed(line.error);
      }
      canvas.Record(line.value);
    }
    return Done;
  }

  /** `draw_image` on a canvas. */
  method DrawImageElement(templateDir: string, attrs: Dict, canvas: Canvas) returns (outcome: Outcome)
    modifies canvas
    ensures canvas.calls == old(canvas.calls) + ImageDrawn(templateDir, attrs).calls
    ensures outcome == ImageDrawn(templateDir, attrs).outcome
  {
    var image := ImageCall(templateDir, attrs);
    if image.Err? {
      return Failed(image.error);
    }
    canvas.Record(image.value);
    return Done;
  }

  /** `draw_text` on a canvas. */
  method DrawText<S>(kit: Toolkit, fonts: seq<FontTuple<S>>, attrs: Dict, canvas: Canvas,
                     context: Option<map<string, string>>)
    returns (outcome: Outcome)
    requires ShrinksToFit(kit.measure) && AutoscaleBoxOk(attrs)
    modifies canvas
    ensures canvas.calls == old(canvas.calls) + TextDrawn(kit, fonts, attrs, context).calls
    ensures outcome == TextDrawn(kit, fonts, attrs, context).outcome
  {
    var settings := ReadTextSettings(attrs, context);
    if settings.Err? {
      return Failed(settings.error);
    }
    outcome := DrawSettings(kit, fonts, settings.value, canvas);
  }

  /** The drawing part of `draw_text`: builds the style, applies it to the
      font list, picks the font, and autoscales the chosen style when
      asked. */
  method DrawSettings<S>(kit: Toolkit, fonts: seq<FontTuple<S>>, t: TextSettings, canvas: Canvas)
    returns (outcome: Outcome)
    requires ShrinksToFit(kit.measure) && (t.autoScale ==> t.width >= 0.0 && t.height >= 0.0)
    modifies canvas
    ensures canvas.calls == old(canvas.calls) + SettingsDrawn(kit, fonts, t).calls
    ensures outcome == SettingsDrawn(kit, fonts, t).outcome
  {
    var styleForText := new ParagraphStyle(BaseTextStyle(t));
    var styled := ApplyStyleToFontList(fonts, styleForText);
    var chosen := FontForString(kit.tables, styled, t.text);
    if chosen.Err? {
      return Failed(chosen.error);
    }
    ghost var i := ChosenFont(kit.tables, Names(styled), t.text).value;
    var textStyle := chosen.value.style;
    assert textStyle == styled[i].style && fresh(textStyle);
    assert textStyle.Snapshot() == BaseTextStyle(t).(fontName := fonts[i].name);
    var call: CanvasCall;
    if t.autoScale {
      var block := AutoscaleText(kit.measure, t.text, t.fontSize, t.leading, t.height, t.width, textStyle);
      var y := AutoscaledTextY(t.y, t.height, block.height, textStyle.fontSize);
      call := DrawParagraph(t.text, textStyle.Snapshot(), t.width, t.height, t.x, y);
    } else {
      var block := kit.measure(WrapRequest(t.text, textStyle.fontName, textStyle.fontSize, textStyle.leading,
        t.width, t.height));
      var y := FixedTextY(t.y, t.height, block.height);
      call := DrawParagraph(t.text, textStyle.Snapshot(), t.width, t.height, t.x, y);
    }
    assert call == TextParagraph(kit, t, fonts[i].name);
    canvas.Record(call);
    return Done;
  }

  /** `draw_template_element` on a canvas. */
  method DrawTemplateElement<S>(kit: Toolkit, fonts: seq<FontTuple<S>>, element: string, attrs: Dict,
                                canvas: Canvas, context: Option<map<string, string>>)
    returns (outcome: Outcome)
    requires ShrinksToFit(kit.measure) && ElementOk(element, attrs)
    modifies canvas
    ensures canvas.calls == old(canvas.calls) + ElementDrawn(kit, fonts, element, attrs, context).calls
    ensures outcome == ElementDrawn(kit, fonts, element, attrs, context).outcome
  {
    if element == "rectangle" {
      outcome := DrawRectangle(attrs, canvas);
    } else if element == "line" {
      outcome := DrawLine(attrs, canvas);
    } else if element == "image" {
      outcome := DrawImageElement(kit.templateDir, attrs, canvas);
    } else if element == "text" {
      outcome := DrawText(kit, fonts, attrs, canvas, context);
    } else {
      outcome := Failed(KeyError(element));
    }
  }

  /** The canvas holds `start` followed by the calls of the first `n`
      elements, all of which completed. */
  ghost predicate DrewPrefix<S>(kit: Toolkit, fonts: seq<FontTuple<S>>, steps: seq<Step>, n: nat,
                                context: Option<map<string, string>>, start: seq<CanvasCall>, calls: seq<CanvasCall>)
    requires ShrinksToFit(kit.measure) && StepsOk(steps) && n <= |steps|
  {
    PrefixDrawn(kit, fonts, steps, n, context).outcome == Done &&
    calls == start + PrefixDrawn(kit, fonts, steps, n, context).calls
  }

  /** Drawing a template's steps in order; the first exception ends the
      drawing. */
  method DrawSteps<S>(kit: Toolkit, fonts: seq<FontTuple<S>>, steps: seq<Step>, canvas: Canvas,
                      context: Option<map<string, string>>)
    returns (outcome: Outcome)
    requires ShrinksToFit(kit.measure) && StepsOk(steps)
    modifies canvas
    ensures canvas.calls == old(canvas.calls) + StepsDrawn(kit, fonts, steps, context).calls
    ensures outcome == StepsDrawn(kit, fonts, steps, context).outcome
  {
    outcome := Done;
    var i := 0;
    assert old(canvas.calls) + [] == canvas.calls;
    while i < |steps|
      invariant i <= |steps| && DrewPrefix(kit, fonts, steps, i, context, old(canvas.calls), canvas.calls)
      invariant outcome == Done
    {
      outcome := DrawStep(kit, fonts, steps, i, canvas, context, old(canvas.calls));
      i := i + 1;
      if outcome.Failed? {
        return;
      }
    }
  }

  /** One iteration of the drawing loop: the element at `i`, after a
      completed prefix whose calls follow `start` on the canvas. A failure
      ends the whole list. */
  method DrawStep<S>(kit: Toolkit, fonts: seq<FontTuple<S>>, steps: seq<Step>, i: nat, canvas: Canvas,
                     context: Option<map<string, string>>, ghost start: seq<CanvasCall>)
    returns (outcome: Outcome)
    requires ShrinksToFit(kit.measure) && StepsOk(steps) && i < |steps|
    requires DrewPrefix(kit, fonts, steps, i, context, start, canvas.calls)
    modifies canvas
    ensures outcome.Done? ==> DrewPrefix(kit, fonts, steps, i + 1, context, start, canvas.calls)
    ensures outcome.Failed? ==> canvas.calls == start + StepsDrawn(kit, fonts, steps, context).calls
    ensures outcome.Failed? ==> outcome == StepsDrawn(kit, fonts, steps, context).outcome
  {
    ghost var prefix := PrefixDrawn(kit, fonts, steps, i, context).calls;
    PrefixDrawnNext(kit, fonts, steps, i, context);
    outcome := DrawTemplateElement(kit, fonts, steps[i].element, steps[i].attributes, canvas, context);
    AppendAssoc(start, prefix, ElementDrawn(kit, fonts, steps[i].element, steps[i].attributes, context).calls);
    if outcome.Failed? {
      PrefixDrawnAfterFailure(kit, fonts, steps, i + 1, |steps|, context);
    }
  }
}
