/** The instructor signature blocks of the v4 renderer
    (`_generate_v4_certificate` in gen_cert.py). Each instructor has a
    position and a template of steps; the steps are placed relative to the
    position, text and images stacking downwards from it, and drawn with
    `draw_template_element`. Image sizes are read from the image files and
    are a parameter of the model. */
module Instructors {
  import opened Values
  import opened Drawing
  import opened FontUtil
  import opened Elements
  import opened CertConfig

  /** Width and height, in pixels, of the image in a file
      (`ImageReader(path).getSize()`). */
  type ImageSize = string -> (int, int)

  /** A template step after placement: left out, or placed with the
      running y position that follows it. */
  datatype Placement = Skipped | Placed(step: Step, yPos: real)

  /** `d[k] += delta` on a numeric attribute. */
  function ShiftAttr(attrs: Dict, k: string, delta: real): (r: Result<Dict>)
    ensures r.Ok? <==> k in attrs && attrs[k].VNum?
    ensures r.Ok? ==> r.value == attrs[k := VNum(attrs[k].n + delta)]
  {
    if k !in attrs then Err(KeyError(k))
    else
      var n :- AsNum(attrs[k], k);
      Ok(attrs[k := VNum(n + delta)])
  }

  /** A text step shows `value` at the block's position plus its own
      offsets, and moves the running y down by its height. */
  function PlaceTextValue(attrs: Dict, value: Value, xPos: real, yPos: real): Result<Placement> {
    var x :- NumOr(attrs, "x", 0.0);
    var y :- NumOr(attrs, "y", 0.0);
    var height :- NumAt(attrs, "height");
    Ok(Placed(Step("text", attrs["string" := value]["x" := VNum(xPos + x)]["y" := VNum(yPos + y)]),
              yPos + height))
  }

  /** A text step: its own string, or else the instructor's field its key
      names; a key the instructor lacks leaves the step out. */
  function PlaceText(fields: Dict, attrs: Dict, xPos: real, yPos: real): Result<Placement> {
    var value := Get(attrs, "string");
    if Truthy(value) then PlaceTextValue(attrs, value, xPos, yPos)
    else if "key" !in attrs then Err(KeyError("key"))
    else if !attrs["key"].VStr? || attrs["key"].s !in fields then Ok(Skipped)
    else PlaceTextValue(attrs, fields[attrs["key"].s], xPos, yPos)
  }

  /** A line step: both ends moved by the block's position. */
  function PlaceLine(attrs: Dict, xPos: real, yPos: real): Result<Placement> {
    var a :- ShiftAttr(attrs, "x_start", xPos);
    var b :- ShiftAttr(a, "y_start", yPos);
    var c :- ShiftAttr(b, "x_end", xPos);
    var d :- ShiftAttr(c, "y_end", yPos);
    Ok(Placed(Step("line", d), yPos))
  }

  /** The image file of an image step and its extra vertical offset: its
      own file, or else the instructor's field its key names (KeyError when
      missing), lowered by `signature_y_offset` for the signature. */
  function ImageSource(fields: Dict, attrs: Dict): Result<(Value, Value)> {
    var value := Get(attrs, "file");
    if Truthy(value) then Ok((value, VNum(0.0)))
    else if "key" !in attrs then Err(KeyError("key"))
    else if !attrs["key"].VStr? then Err(KeyError("key"))
    else if attrs["key"].s !in fields then Err(KeyError(attrs["key"].s))
    else if attrs["key"].s == "signature_file" then
      Ok((fields["signature_file"], if "signature_y_offset" in fields then fields["signature_y_offset"] else VNum(0.0)))
    else Ok((fields[attrs["key"].s], VNum(0.0)))
  }

  /** The height that keeps a `w` by `h` image's aspect ratio at `width`,
      truncated to whole points. */
  function AspectHeight(width: real, w: int, h: int): (height: int)
    requires w != 0
    ensures 0.0 <= width * (h as real / w as real) ==> height as real <= width * (h as real / w as real) < height as real + 1.0
  {
    Truncate(width * (h as real / w as real))
  }

  /** An image step: drawn at its width (the file's own by default) and the
      height that keeps the file's aspect ratio, truncated to whole points;
      the running y moves down past the offset and the image. */
  function PlaceImage(templateDir: string, imageSize: ImageSize, fields: Dict, attrs: Dict,
                      xPos: real, yPos: real): Result<Placement> {
    var (value, offsetValue) :- ImageSource(fields, attrs);
    var file :- AsStr(value, "file");
    var (w, h) := imageSize(PathJoin(templateDir, file));
    if w == 0 then Err(ZeroDivisionError)
    else
      var width :- NumOr(attrs, "width", w as real);
      var height := AspectHeight(width, w, h);
      var x :- NumOr(attrs, "x", 0.0);
      var y :- NumOr(attrs, "y", 0.0);
      var yOffset :- AsNum(offsetValue, "signature_y_offset");
      Ok(Placed(Step("image", attrs["file" := VStr(file)]["x" := VNum(x + xPos)]["y" := VNum(y + yPos + yOffset)]
                                   ["height" := VNum(height as real)]["width" := VNum(width)]),
                yPos + yOffset + height as real))
  }

  /** Placement of one step of an instructor's template; kinds other than
      text, line and image are left out. */
  function PlaceStep(templateDir: string, imageSize: ImageSize, fields: Dict, step: Step,
                     xPos: real, yPos: real): (r: Result<Placement>)
    ensures r.Ok? && r.value.Placed? ==> r.value.step.element == step.element
    ensures step.element !in {"text", "line", "image"} ==> r == Ok(Skipped)
  {
    if step.element == "text" then PlaceText(fields, step.attributes, xPos, yPos)
    else if step.element == "line" then PlaceLine(step.attributes, xPos, yPos)
    else if step.element == "image" then PlaceImage(templateDir, imageSize, fields, step.attributes, xPos, yPos)
    else Ok(Skipped)
  }

  /** Placement keeps a text step's box and scaling, so a step fit to be
      drawn stays fit. */
  lemma PlacedStaysOk(templateDir: string, imageSize: ImageSize, fields: Dict, step: Step, xPos: real, yPos: real)
    requires ElementOk(step.element, step.attributes)
    ensures var r := PlaceStep(templateDir, imageSize, fields, step, xPos, yPos);
      r.Ok? && r.value.Placed? ==> ElementOk(r.value.step.element, r.value.step.attributes)
  {
    var r := PlaceStep(templateDir, imageSize, fields, step, xPos, yPos);
    if step.element == "text" && r.Ok? && r.value.Placed? {
      var a := r.value.step.attributes;
      assert Get(a, "auto_scale") == Get(step.attributes, "auto_scale");
      assert Get(a, "width") == Get(step.attributes, "width");
      assert Get(a, "height") == Get(step.attributes, "height");
    }
  }

  /** Where a text step goes: its offsets from the block's position, the
      string it shows, and the running y moved down by its height; it is
      left out exactly when it has no string of its own and its key names no
      field of the instructor, and with neither a string nor a key it raises
      KeyError. */
  lemma TextPlacement(templateDir: string, imageSize: ImageSize, fields: Dict, attrs: Dict, xPos: real, yPos: real)
    ensures var r := PlaceStep(templateDir, imageSize, fields, Step("text", attrs), xPos, yPos);
      (r == Ok(Skipped) <==>
        !Truthy(Get(attrs, "string")) && "key" in attrs && (!attrs["key"].VStr? || attrs["key"].s !in fields)) &&
      (!Truthy(Get(attrs, "string")) && "key" !in attrs ==> r == Err(KeyError("key"))) &&
      (r.Ok? && r.value.Placed? ==>
        var a := r.value.step.attributes;
        a["x"] == VNum(xPos + NumOr(attrs, "x", 0.0).value) &&
        a["y"] == VNum(yPos + NumOr(attrs, "y", 0.0).value) &&
        r.value.yPos == yPos + attrs["height"].n &&
        (Truthy(Get(attrs, "string")) ==> a["string"] == attrs["string"]) &&
        (!Truthy(Get(attrs, "string")) ==> a["string"] == fields[attrs["key"].s]))
  {
  }

  /** A line step keeps the running y and moves both its ends by the
      block's position. */
  lemma LinePlacement(templateDir: string, imageSize: ImageSize, fields: Dict, attrs: Dict, xPos: real, yPos: real)
    ensures var r := PlaceStep(templateDir, imageSize, fields, Step("line", attrs), xPos, yPos);
      r.Ok? <==> (forall k :: k in ["x_start", "y_start", "x_end", "y_end"] ==> k in attrs && attrs[k].VNum?)
    ensures var r := PlaceStep(templateDir, imageSize, fields, Step("line", attrs), xPos, yPos);
      r.Ok? ==> (r.value.Placed? && r.value.yPos == yPos &&
        var a := r.value.step.attributes;
        a["x_start"] == VNum(attrs["x_start"].n + xPos) && a["y_start"] == VNum(attrs["y_start"].n + yPos) &&
        a["x_end"] == VNum(attrs["x_end"].n + xPos) && a["y_end"] == VNum(attrs["y_end"].n + yPos))
  {
    var r := PlaceStep(templateDir, imageSize, fields, Step("line", attrs), xPos, yPos);
    if !r.Ok? {
      assert "x_start" in ["x_start", "y_start", "x_end", "y_end"];
      assert "y_start" in ["x_start", "y_start", "x_end", "y_end"];
      assert "x_end" in ["x_start", "y_start", "x_end", "y_end"];
      assert "y_end" in ["x_start", "y_start", "x_end", "y_end"];
    }
  }

  /** Unlike a text step, an image without a file of its own is never left
      out: a missing key, or a key the instructor lacks, raises KeyError, and
      an image file of width 0 raises ZeroDivisionError. */
  lemma ImageFailures(templateDir: string, imageSize: ImageSize, fields: Dict, attrs: Dict, xPos: real, yPos: real)
    ensures var r := PlaceStep(templateDir, imageSize, fields, Step("image", attrs), xPos, yPos);
      r != Ok(Skipped)
    ensures var r := PlaceStep(templateDir, imageSize, fields, Step("image", attrs), xPos, yPos);
      !Truthy(Get(attrs, "file")) && "key" !in attrs ==> r == Err(KeyError("key"))
    ensures var r := PlaceStep(templateDir, imageSize, fields, Step("image", attrs), xPos, yPos);
      !Truthy(Get(attrs, "file")) && "key" in attrs && attrs["key"].VStr? && attrs["key"].s !in fields ==>
        r == Err(KeyError(attrs["key"].s))
    ensures var r := PlaceStep(templateDir, imageSize, fields, Step("image", attrs), xPos, yPos);
      (Truthy(Get(attrs, "file")) && Get(attrs, "file").VStr? &&
       imageSize(PathJoin(templateDir, Get(attrs, "file").s)).0 == 0) ==> r == Err(ZeroDivisionError)
  {
  }

  /** An image keeps its file's aspect ratio up to the truncation of its
      height, and the running y moves down past its offset and its height. */
  lemma ImagePlacement(templateDir: string, imageSize: ImageSize, fields: Dict, attrs: Dict, xPos: real, yPos: real)
    ensures var r := PlaceStep(templateDir, imageSize, fields, Step("image", attrs), xPos, yPos);
      r.Ok? && r.value.Placed? ==>
        var a := r.value.step.attributes;
        var (w, h) := imageSize(PathJoin(templateDir, a["file"].s));
        var width := a["width"].n;
        var height := a["height"].n;
        w != 0 && a["x"] == VNum(NumOr(attrs, "x", 0.0).value + xPos) &&
        (0.0 <= width * (h as real / w as real) ==> height <= width * (h as real / w as real) < height + 1.0) &&
        r.value.yPos == a["y"].n - NumOr(attrs, "y", 0.0).value + height
  {
    var r := PlaceStep(templateDir, imageSize, fields, Step("image", attrs), xPos, yPos);
    if r.Ok? && r.value.Placed? {
      assert r == PlaceImage(templateDir, imageSize, fields, attrs, xPos, yPos);
      var (value, offsetValue) := ImageSource(fields, attrs).value;
      var (w, h) := imageSize(PathJoin(templateDir, value.s));
      var width := NumOr(attrs, "width", w as real).value;
      var a := r.value.step.attributes;
      assert a["file"] == value && a["width"] == VNum(width) && a["height"] == VNum(AspectHeight(width, w, h) as real);
    }
  }

  // ---------------------------------------------------------------------
  // Drawing the blocks

  /** An instructor's template steps from `from` on, placed from the
      running y position and drawn in order; a step that cannot be placed
      or drawn raises and ends the drawing. */
  function TemplateDrawn<S>(kit: Toolkit, fonts: seq<FontTuple<S>>, imageSize: ImageSize, fields: Dict,
                            template: seq<Step>, xPos: real, from: nat, yPos: real): Drawn
    requires ShrinksToFit(kit.measure) && StepsOk(template) && from <= |template|
    decreases |template| - from
  {
    if from == |template| then Drawn([], Done)
    else
      match PlaceStep(kit.templateDir, imageSize, fields, template[from], xPos, yPos)
      case Err(e) => Drawn([], Failed(e))
      case Ok(Skipped) => TemplateDrawn(kit, fonts, imageSize, fields, template, xPos, from + 1, yPos)
      case Ok(Placed(step, next)) =>
        PlacedStaysOk(kit.templateDir, imageSize, fields, template[from], xPos, yPos);
        Then(ElementDrawn(kit, fonts, step.element, step.attributes, None),
             TemplateDrawn(kit, fonts, imageSize, fields, template, xPos, from + 1, next))
  }

  /** One instructor's block, at the instructor's `x` and `y`. */
  function InstructorDrawn<S>(kit: Toolkit, fonts: seq<FontTuple<S>>, imageSize: ImageSize,
                              instructor: Instructor): Drawn
    requires ShrinksToFit(kit.measure) && StepsOk(instructor.template)
  {
    match NumAt(instructor.fields, "x")
    case Err(e) => Drawn([], Failed(e))
    case Ok(x) =>
      match NumAt(instructor.fields, "y")
      case Err(e) => Drawn([], Failed(e))
      case Ok(y) => TemplateDrawn(kit, fonts, imageSize, instructor.fields, instructor.template, x, 0, y)
  }

  predicate TemplatesOk(instructors: seq<Instructor>) {
    forall i :: 0 <= i < |instructors| ==> StepsOk(instructors[i].template)
  }

  /** Drawings made one after another from `from` on, each drawn only when
      every earlier one completed. */
  function Chain(ds: seq<Drawn>, from: nat): Drawn
    requires from <= |ds|
    decreases |ds| - from
  {
    if from == |ds| then Drawn([], Done) else Then(ds[from], Chain(ds, from + 1))
  }

  /** A chain completes exactly when every drawing in it does; otherwise it
      ends with the failure of the first drawing that fails. */
  lemma {:induction false} ChainOutcome(ds: seq<Drawn>, from: nat)
    requires from <= |ds|
    ensures Chain(ds, from).outcome.Done? <==> forall i :: from <= i < |ds| ==> ds[i].outcome.Done?
    ensures Chain(ds, from).outcome.Failed? ==>
      exists i :: from <= i < |ds| && Chain(ds, from).outcome == ds[i].outcome &&
        forall k :: from <= k < i ==> ds[k].outcome.Done?
    decreases |ds| - from
  {
    if from < |ds| {
      ChainOutcome(ds, from + 1);
      if !ds[from].outcome.Failed? && Chain(ds, from).outcome.Failed? {
        var i :| from + 1 <= i < |ds| && Chain(ds, from + 1).outcome == ds[i].outcome &&
          forall k :: from + 1 <= k < i ==> ds[k].outcome.Done?;
        assert forall k :: from <= k < i ==> ds[k].outcome.Done?;
      }
    }
  }

  /** Each instructor's block, drawn on its own. */
  function Blocks<S>(kit: Toolkit, fonts: seq<FontTuple<S>>, imageSize: ImageSize, instructors: seq<Instructor>)
    : (ds: seq<Drawn>)
    requires ShrinksToFit(kit.measure) && TemplatesOk(instructors)
    ensures |ds| == |instructors|
    ensures forall i :: 0 <= i < |ds| ==> ds[i] == InstructorDrawn(kit, fonts, imageSize, instructors[i])
  {
    seq(|instructors|, i requires 0 <= i < |instructors| => InstructorDrawn(kit, fonts, imageSize, instructors[i]))
  }

  /** The blocks of the instructors from `from` on, in order. */
  function InstructorsDrawn<S>(kit: Toolkit, fonts: seq<FontTuple<S>>, imageSize: ImageSize,
                               instructors: seq<Instructor>, from: nat): Drawn
    requires ShrinksToFit(kit.measure) && TemplatesOk(instructors) && from <= |instructors|
  {
    Chain(Blocks(kit, fonts, imageSize, instructors), from)
  }

  /** The blocks complete exactly when every block does; otherwise the
      error is that of the first block that raises, and no later block is
      drawn. */
  lemma InstructorsDrawnOutcome<S>(kit: Toolkit, fonts: seq<FontTuple<S>>, imageSize: ImageSize,
                                   instructors: seq<Instructor>, from: nat)
    requires ShrinksToFit(kit.measure) && TemplatesOk(instructors) && from <= |instructors|
    ensures InstructorsDrawn(kit, fonts, imageSize, instructors, from).outcome.Done? <==>
      forall i :: from <= i < |instructors| ==> InstructorDrawn(kit, fonts, imageSize, instructors[i]).outcome.Done?
    ensures InstructorsDrawn(kit, fonts, imageSize, instructors, from).outcome.Failed? ==>
      exists i :: from <= i < |instructors| &&
        InstructorsDrawn(kit, fonts, imageSize, instructors, from).outcome ==
          InstructorDrawn(kit, fonts, imageSize, instructors[i]).outcome &&
        forall k :: from <= k < i ==> InstructorDrawn(kit, fonts, imageSize, instructors[k]).outcome.Done?
  {
    ChainOutcome(Blocks(kit, fonts, imageSize, instructors), from);
  }

  /** The calls made so far followed by what is left to draw are the calls
      of the whole drawing, which ends as the rest ends. */
  ghost predicate Remains(total: Drawn, start: seq<CanvasCall>, calls: seq<CanvasCall>, rest: Drawn) {
    calls + rest.calls == start + total.calls && rest.outcome == total.outcome
  }

  /** Placing and drawing step `i` of a template: the rest of the drawing
      then starts at step `i + 1` from the new y position, or the whole
      drawing has ended with this step's failure. */
  method DrawTemplateStep<S>(kit: Toolkit, fonts: seq<FontTuple<S>>, imageSize: ImageSize, fields: Dict,
                             template: seq<Step>, xPos: real, i: nat, yPos: real, canvas: Canvas,
                             ghost total: Drawn, ghost start: seq<CanvasCall>)
    returns (outcome: Outcome, next: real)
    requires ShrinksToFit(kit.measure) && StepsOk(template) && i < |template|
    requires Remains(total, start, canvas.calls, TemplateDrawn(kit, fonts, imageSize, fields, template, xPos, i, yPos))
    modifies canvas
    ensures outcome.Done? ==>
      Remains(total, start, canvas.calls, TemplateDrawn(kit, fonts, imageSize, fields, template, xPos, i + 1, next))
    ensures outcome.Failed? ==> canvas.calls == start + total.calls && outcome == total.outcome
  {
    var placement := PlaceStep(kit.templateDir, imageSize, fields, template[i], xPos, yPos);
    if placement.Err? {
      return Failed(placement.error), yPos;
    }
    if placement.value.Skipped? {
      return Done, yPos;
    }
    var step := placement.value.step;
    next := placement.value.yPos;
    PlacedStaysOk(kit.templateDir, imageSize, fields, template[i], xPos, yPos);
    ghost var before := canvas.calls;
    ghost var rest := TemplateDrawn(kit, fonts, imageSize, fields, template, xPos, i + 1, next);
    outcome := DrawTemplateElement(kit, fonts, step.element, step.attributes, canvas, None);
    AppendAssoc(before, ElementDrawn(kit, fonts, step.element, step.attributes, None).calls, rest.calls);
  }

  /** Drawing one instructor's block on the canvas. */
  method DrawInstructor<S>(kit: Toolkit, fonts: seq<FontTuple<S>>, imageSize: ImageSize, instructor: Instructor,
                           canvas: Canvas) returns (outcome: Outcome)
    requires ShrinksToFit(kit.measure) && StepsOk(instructor.template)
    modifies canvas
    ensures canvas.calls == old(canvas.calls) + InstructorDrawn(kit, fonts, imageSize, instructor).calls
    ensures outcome == InstructorDrawn(kit, fonts, imageSize, instructor).outcome
  {
    var xr := NumAt(instructor.fields, "x");
    if xr.Err? {
      return Failed(xr.error);
    }
    var yr := NumAt(instructor.fields, "y");
    if yr.Err? {
      return Failed(yr.error);
    }
    var xPos, yPos := xr.value, yr.value;
    ghost var total := InstructorDrawn(kit, fonts, imageSize, instructor);
    var template := instructor.template;
    var i := 0;
    assert canvas.calls == old(canvas.calls) + [];
    while i < |template|
      invariant i <= |template|
      invariant Remains(total, old(canvas.calls), canvas.calls,
                        TemplateDrawn(kit, fonts, imageSize, instructor.fields, template, xPos, i, yPos))
    {
      outcome, yPos := DrawTemplateStep(kit, fonts, imageSize, instructor.fields, template, xPos, i, yPos, canvas,
                                        total, old(canvas.calls));
      if outcome.Failed? {
        return;
      }
      i := i + 1;
    }
    return Done;
  }

  /** Drawing the instructors' blocks, one after another. */
  method DrawInstructors<S>(kit: Toolkit, fonts: seq<FontTuple<S>>, imageSize: ImageSize,
                            instructors: seq<Instructor>, canvas: Canvas) returns (outcome: Outcome)
    requires ShrinksToFit(kit.measure) && TemplatesOk(instructors)
    modifies canvas
    ensures canvas.calls == old(canvas.calls) + InstructorsDrawn(kit, fonts, imageSize, instructors, 0).calls
    ensures outcome == InstructorsDrawn(kit, fonts, imageSize, instructors, 0).outcome
  {
    ghost var total := InstructorsDrawn(kit, fonts, imageSize, instructors, 0);
    var j := 0;
    assert canvas.calls == old(canvas.calls) + [];
    while j < |instructors|
      invariant j <= |instructors|
      invariant Remains(total, old(canvas.calls), canvas.calls, InstructorsDrawn(kit, fonts, imageSize, instructors, j))
    {
      ghost var before := canvas.calls;
      ghost var rest := InstructorsDrawn(kit, fonts, imageSize, instructors, j + 1);
      assert Blocks(kit, fonts, imageSize, instructors)[j] == InstructorDrawn(kit, fonts, imageSize, instructors[j]);
      outcome := DrawInstructor(kit, fonts, imageSize, instructors[j], canvas);
      AppendAssoc(before, InstructorDrawn(kit, fonts, imageSize, instructors[j]).calls, rest.calls);
      if outcome.Failed? {
        return;
      }
      j := j + 1;
    }
    return Done;
  }
}
