/** Font resolution and autoscaling (openedx_certificates/renderers/util.py). */
module FontUtil {
  import opened Values
  import opened Drawing

  /** The code points each font defines, keyed by font name; built once from
      the font files at start-up and read-only afterwards. */
  type CharTables = map<string, set<int>>

  /** An entry of a font preference list: font name, font file and a third
      field (unused by the search, a paragraph style once styles are applied). */
  datatype FontTuple<S> = FontTuple(name: string, file: string, style: S)

  function Names<S>(fonts: seq<FontTuple<S>>): (r: seq<string>)
    ensures |r| == |fonts|
    ensures forall i :: 0 <= i < |fonts| ==> r[i] == fonts[i].name
  {
    seq(|fonts|, i requires 0 <= i < |fonts| => fonts[i].name)
  }

  /** `FONT_CHARACTER_TABLES.get(font, [])`. */
  function TableOf(tables: CharTables, font: string): (t: set<int>)
    ensures font !in tables ==> t == {}
  {
    if font in tables then tables[font] else {}
  }

  /** A font covers a string when it has a non-empty table holding every
      code point of the string. */
  predicate Covers(tables: CharTables, font: string, s: string) {
    TableOf(tables, font) != {} && forall i :: 0 <= i < |s| ==> s[i] as int in TableOf(tables, font)
  }

  /** Index of the first font in preference order that covers `s`. */
  function FirstCovering(tables: CharTables, names: seq<string>, s: string): (r: Option<nat>)
    ensures r.Some? ==> r.value < |names| && Covers(tables, names[r.value], s)
    ensures r.Some? ==> forall j :: 0 <= j < r.value ==> !Covers(tables, names[j], s)
    ensures r.None? ==> forall j :: 0 <= j < |names| ==> !Covers(tables, names[j], s)
  {
    if names == [] then None
    else if Covers(tables, names[0], s) then Some(0)
    else match FirstCovering(tables, names[1..], s)
      case None => None
      case Some(k) => Some(k + 1)
  }

  /** Index of the font `font_for_string` returns: the first entry for an
      empty string, otherwise the first covering font. */
  function ChosenFont(tables: CharTables, names: seq<string>, s: string): (r: Option<nat>)
    ensures r.Some? ==> r.value < |names|
    ensures |names| > 0 && s == [] ==> r == Some(0)
    ensures names == [] ==> r == None
    ensures s != [] ==> r == FirstCovering(tables, names, s)
  {
    if |names| > 0 && s == [] then Some(0) else FirstCovering(tables, names, s)
  }

  /** What `font_for_string` returns or raises. */
  function FontChoice<S>(tables: CharTables, fonts: seq<FontTuple<S>>, s: string): Result<FontTuple<S>> {
    match ChosenFont(tables, Names(fonts), s)
    case Some(i) => Ok(fonts[i])
    case None => Err(ValueError("Nothing in fontlist supports string"))
  }

  /** `font_for_string`: first-fit search of the preference list. */
  method FontForString<S>(tables: CharTables, fonts: seq<FontTuple<S>>, s: string)
    returns (r: Result<FontTuple<S>>)
    ensures r == FontChoice(tables, fonts, s)
    ensures r.Ok? ==> r.value in fonts
  {
    if |fonts| > 0 && s == [] {
      return Ok(fonts[0]);
    }
    for i := 0 to |fonts|
      invariant forall j :: 0 <= j < i ==> !Covers(tables, fonts[j].name, s)
    {
      var codepoints := TableOf(tables, fonts[i].name);
      if codepoints == {} {
        // a missing or empty table: skipped with a warning
        continue;
      }
      var ok := forall k | 0 <= k < |s| :: s[k] as int in codepoints;
      if ok {
        return Ok(fonts[i]);
      }
    }
    return Err(ValueError("Nothing in fontlist supports string"));
  }

  /** For a non-empty string the chosen font covers it and no earlier font
      does. */
  lemma FontChoiceIsFirstFit<S>(tables: CharTables, fonts: seq<FontTuple<S>>, s: string)
    requires s != []
    ensures FontChoice(tables, fonts, s).Ok? <==>
      exists i :: 0 <= i < |fonts| && Covers(tables, fonts[i].name, s)
    ensures FontChoice(tables, fonts, s).Ok? ==>
      exists i :: 0 <= i < |fonts| && FontChoice(tables, fonts, s).value == fonts[i] &&
        Covers(tables, fonts[i].name, s) &&
        forall j :: 0 <= j < i ==> !Covers(tables, fonts[j].name, s)
  {
    var names := Names(fonts);
    match FirstCovering(tables, names, s)
    case None =>
    case Some(i) =>
  }

  /** A later font is never returned when an earlier one covers the string. */
  lemma FontChoiceNeverLater<S>(tables: CharTables, fonts: seq<FontTuple<S>>, s: string, k: nat)
    requires s != [] && k < |fonts| && Covers(tables, fonts[k].name, s)
    ensures exists i :: 0 <= i <= k && FontChoice(tables, fonts, s) == Ok(fonts[i])
  {
    var names := Names(fonts);
    assert Covers(tables, names[k], s);
    var i := FirstCovering(tables, names, s).value;
    assert FontChoice(tables, fonts, s) == Ok(fonts[i]);
  }

  /** Fonts with a missing or empty table are never chosen for a non-empty
      string. */
  lemma FontChoiceHasTable<S>(tables: CharTables, fonts: seq<FontTuple<S>>, s: string)
    requires s != [] && FontChoice(tables, fonts, s).Ok?
    ensures FontChoice(tables, fonts, s).value.name in tables
    ensures tables[FontChoice(tables, fonts, s).value.name] != {}
  {
    var i := FirstCovering(tables, Names(fonts), s).value;
    assert Covers(tables, Names(fonts)[i], s);
  }

  /** A code point that no listed font defines makes the search fail; an
      empty list fails even for the empty string. */
  lemma FontChoiceFails<S>(tables: CharTables, fonts: seq<FontTuple<S>>, s: string, p: nat)
    requires fonts == [] || (p < |s| && forall i :: 0 <= i < |fonts| ==> s[p] as int !in TableOf(tables, fonts[i].name))
    ensures FontChoice(tables, fonts, s).Err?
  {
    var names := Names(fonts);
    forall i | 0 <= i < |names|
      ensures !Covers(tables, names[i], s)
    {
      assert s[p] as int !in TableOf(tables, fonts[i].name);
    }
  }

  /** `apply_style_to_font_list`: one entry per font, in order, each with a
      fresh copy of the style whose font name is that font's. The input style
      is not modified. */
  method ApplyStyleToFontList<S>(fonts: seq<FontTuple<S>>, style: ParagraphStyle)
    returns (r: seq<FontTuple<ParagraphStyle>>)
    ensures Names(r) == Names(fonts)
    ensures forall i :: 0 <= i < |r| ==>
      r[i].file == fonts[i].file && fresh(r[i].style) &&
      r[i].style.Snapshot() == style.Snapshot().(fontName := fonts[i].name)
    ensures forall i, j :: 0 <= i < j < |r| ==> r[i].style != r[j].style
  {
    r := [];
    for i := 0 to |fonts|
      invariant |r| == i
      invariant forall k :: 0 <= k < i ==>
        r[k].name == fonts[k].name && r[k].file == fonts[k].file && fresh(r[k].style) &&
        r[k].style.Snapshot() == style.Snapshot().(fontName := fonts[k].name)
      invariant forall k, l :: 0 <= k < l < i ==> r[k].style != r[l].style
    {
      var copy := new ParagraphStyle(style.Snapshot().(fontName := fonts[i].name));
      r := r + [FontTuple(fonts[i].name, fonts[i].file, copy)];
    }
  }

  /** The style `font_for_string(apply_style_to_font_list(fonts, base), s)`
      hands back: the base style set in the chosen font, or the ValueError
      raised when no font covers `s`. */
  function StyleFor<S>(tables: CharTables, fonts: seq<FontTuple<S>>, base: StyleValues, s: string)
    : (r: Result<StyleValues>)
    ensures r.Ok? <==> FontChoice(tables, fonts, s).Ok?
    ensures r.Ok? ==> r.value == base.(fontName := FontChoice(tables, fonts, s).value.name)
    ensures r.Err? ==> r.error == ValueError("Nothing in fontlist supports string")
  {
    match ChosenFont(tables, Names(fonts), s)
    case Some(i) => Ok(base.(fontName := fonts[i].name))
    case None => Err(ValueError("Nothing in fontlist supports string"))
  }

  /** Building a style, copying it onto every font of the list and picking
      the entry for `s`: the renderers' common first step. The style handed
      back is a fresh object. */
  method ChooseStyle<S>(tables: CharTables, fonts: seq<FontTuple<S>>, base: StyleValues, s: string)
    returns (r: Result<ParagraphStyle>)
    ensures r.Ok? <==> StyleFor(tables, fonts, base, s).Ok?
    ensures r.Err? ==> r.error == StyleFor(tables, fonts, base, s).error
    ensures r.Ok? ==> fresh(r.value) && r.value.Snapshot() == StyleFor(tables, fonts, base, s).value
  {
    var style := new ParagraphStyle(base);
    var styled := ApplyStyleToFontList(fonts, style);
    var chosen := FontForString(tables, styled, s);
    if chosen.Err? {
      return Err(chosen.error);
    }
    ghost var i := ChosenFont(tables, Names(styled), s).value;
    assert chosen.value == styled[i];
    return Ok(chosen.value.style);
  }

  /** The inputs of one autoscaling run: the text, the font it is set in,
      the starting font size and leading, and the box to fit. */
  datatype ScaleJob = ScaleJob(
    text: string,
    fontName: string,
    maxFontSize: real,
    maxLeading: real,
    maxWidth: real,
    maxHeight: real)
  {
    /** The layout request of the k-th attempt: size and leading both
        lowered by k. */
    function Request(k: nat): WrapRequest {
      WrapRequest(text, fontName, maxFontSize - k as real, maxLeading - k as real, maxWidth, maxHeight)
    }

    predicate BoxValid() {
      maxWidth >= 0.0 && maxHeight >= 0.0
    }

    /** A number of steps after which size and leading are both non-positive. */
    function Bound(): (k: nat)
      ensures maxFontSize - k as real <= 0.0 && maxLeading - k as real <= 0.0
    {
      var m := if maxFontSize > maxLeading then maxFontSize else maxLeading;
      if m <= 0.0 then 0 else m.Floor + 1
    }
  }

  predicate FitsAt(measure: Measurer, job: ScaleJob, k: nat) {
    FitsBox(measure(job.Request(k)), job.maxWidth, job.maxHeight)
  }

  lemma FitsAtBound(measure: Measurer, job: ScaleJob)
    requires ShrinksToFit(measure) && job.BoxValid()
    ensures FitsAt(measure, job, job.Bound())
  {
    var r := job.Request(job.Bound());
    assert r.fontSize <= 0.0 && r.leading <= 0.0;
  }

  /** The first attempt, counting from `from`, whose block fits the box. */
  function FirstFitStep(measure: Measurer, job: ScaleJob, from: nat): (k: nat)
    requires ShrinksToFit(measure) && job.BoxValid() && from <= job.Bound()
    ensures from <= k <= job.Bound() && FitsAt(measure, job, k)
    ensures forall j :: from <= j < k ==> !FitsAt(measure, job, j)
    decreases job.Bound() - from
  {
    if FitsAt(measure, job, from) then from
    else
      FitsAtBound(measure, job);
      FirstFitStep(measure, job, from + 1)
  }

  /** Number of one-point reductions `autoscale_text` makes. */
  function FittedStep(measure: Measurer, job: ScaleJob): nat
    requires ShrinksToFit(measure) && job.BoxValid()
  {
    FirstFitStep(measure, job, 0)
  }

  /** The chosen size is the largest of max, max - 1, max - 2, ... that fits:
      every larger one overflows, and any fitting attempt is at or after it. */
  lemma FittedStepIsLargestFit(measure: Measurer, job: ScaleJob, k: nat)
    requires ShrinksToFit(measure) && job.BoxValid()
    ensures FitsAt(measure, job, FittedStep(measure, job))
    ensures FitsAt(measure, job, k) ==> FittedStep(measure, job) <= k
    ensures k < FittedStep(measure, job) ==> !FitsAt(measure, job, k)
  {
  }

  /** The text keeps its starting size exactly when it fits at that size;
      otherwise it ends strictly smaller. */
  lemma FittedStepZeroIffFits(measure: Measurer, job: ScaleJob)
    requires ShrinksToFit(measure) && job.BoxValid()
    ensures FittedStep(measure, job) == 0 <==> FitsAt(measure, job, 0)
  {
  }

  /** `autoscale_text`: lowers the font size and leading of `style` together,
      one point at a time from the given maxima, until the laid-out block
      fits the box; both style fields are left at the fitting values. */
  method AutoscaleText(
    measure: Measurer, text: string, maxFontSize: real, maxLeading: real,
    maxHeight: real, maxWidth: real, style: ParagraphStyle)
    returns (paragraph: Dims)
    requires ShrinksToFit(measure) && maxWidth >= 0.0 && maxHeight >= 0.0
    modifies style`fontSize, style`leading
    ensures var job := ScaleJob(text, style.fontName, maxFontSize, maxLeading, maxWidth, maxHeight);
      var k := FittedStep(measure, job);
      style.fontSize == maxFontSize - k as real && style.leading == maxLeading - k as real &&
      paragraph == measure(job.Request(k))
    ensures FitsBox(paragraph, maxWidth, maxHeight)
    ensures style.fontSize <= maxFontSize
    ensures style.fontSize - style.leading == maxFontSize - maxLeading
  {
    ghost var job := ScaleJob(text, style.fontName, maxFontSize, maxLeading, maxWidth, maxHeight);
    ghost var target := FittedStep(measure, job);
    paragraph := Dims(maxWidth + 1.0, maxHeight + 1.0);
    var fontsize := maxFontSize;
    var leading := maxLeading;
    ghost var k: nat := 0;
    while !FitsBox(paragraph, maxWidth, maxHeight)
      invariant fontsize == maxFontSize - k as real && leading == maxLeading - k as real
      invariant k <= target + 1
      invariant style.fontName == job.fontName
      invariant forall j :: 0 <= j < k - 1 ==> !FitsAt(measure, job, j)
      invariant k > 0 ==>
        style.fontSize == maxFontSize - (k - 1) as real &&
        style.leading == maxLeading - (k - 1) as real &&
        paragraph == measure(job.Request(k - 1))
      invariant k == 0 ==> !FitsBox(paragraph, maxWidth, maxHeight)
      decreases target + 1 - k
    {
      style.fontSize := fontsize;
      style.leading := leading;
      paragraph := measure(WrapRequest(text, style.fontName, fontsize, leading, maxWidth, maxHeight));
      fontsize := fontsize - 1.0;
      leading := leading - 1.0;
      k := k + 1;
    }
    assert k > 0 && FitsAt(measure, job, k - 1);
    assert k - 1 == target;
  }
}
