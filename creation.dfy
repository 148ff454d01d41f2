/**
 * The creation tools: the requests that add a slide, a text box, an image
 * or a shape. Ids the tools draw from `uuid4` are parameters here; the
 * presentation, the layouts and the created slide read back are inputs.
 */
module Creation {
  import opened Wrappers
  import opened Strings
  import opened Units
  import opened Colors
  import opened Slides
  import opened Transforms

  // ---------------------------------------------------------------------
  // create_slide
  // ---------------------------------------------------------------------

  /** The `layout` values the tool accepts. */
  const LayoutTypes: set<string> := {
    "BLANK", "TITLE", "TITLE_AND_BODY", "TITLE_AND_TWO_COLUMNS", "TITLE_ONLY",
    "SECTION_HEADER", "ONE_COLUMN_TEXT", "MAIN_POINT", "BIG_NUMBER", "CAPTION_ONLY"
  }

  /** `f"{prefix}{uuid.uuid4().hex[:8]}"`, with the hex digits given. */
  function NewObjectId(prefix: string, uuidHex: string): (id: string)
    ensures prefix <= id && |id| <= |prefix| + 8
  {
    prefix + Take(uuidHex, 8)
  }

  /** `layoutProperties.get("name", "").upper() == layout`. */
  predicate NameMatches(l: Layout, layout: string) {
    Upper(l.name.GetOr("")) == layout
  }

  /** The index of the first layout whose upper-cased name is `layout`. */
  function FirstMatching(layouts: seq<Layout>, layout: string): (r: Option<nat>)
    ensures r.Some? ==> (r.value < |layouts| && NameMatches(layouts[r.value], layout)
      && forall j :: 0 <= j < r.value ==> !NameMatches(layouts[j], layout))
    ensures r.None? ==> forall j :: 0 <= j < |layouts| ==> !NameMatches(layouts[j], layout)
  {
    if |layouts| == 0 then None
    else if NameMatches(layouts[0], layout) then Some(0)
    else match FirstMatching(layouts[1..], layout)
      case None => None
      case Some(i) => Some(i + 1)
  }

  /** The `layout_id` the search leaves: the matching layout's `objectId`, if any. */
  function LayoutIdFor(layouts: seq<Layout>, layout: string): Option<string> {
    match FirstMatching(layouts, layout)
    case None => None
    case Some(i) => layouts[i].objectId
  }

  /** The `createSlide` request. */
  function SlideRequest(layouts: seq<Layout>, layout: string, insertionIndex: Option<int>, slideId: string): (r: Request)
    ensures r.CreateSlide? && r.slideObjectId == slideId && r.slideIndex == insertionIndex
    ensures r.layout.PredefinedLayout? ==> r.layout.name == layout
    ensures r.layout.LayoutId? ==> r.layout.id != "" && LayoutIdFor(layouts, layout) == Some(r.layout.id)
  {
    var layoutId := LayoutIdFor(layouts, layout);
    CreateSlide(slideId, if layoutId.Some? && layoutId.value != "" then LayoutId(layoutId.value) else PredefinedLayout(layout),
      insertionIndex)
  }

  /**
   * The new slide refers to the presentation's own layout exactly when the
   * first layout of that name has an id; otherwise it names the predefined
   * layout. The insertion index is passed through as given.
   */
  lemma SlideRequestLayout(layouts: seq<Layout>, layout: string, insertionIndex: Option<int>, slideId: string)
    ensures var r := SlideRequest(layouts, layout, insertionIndex, slideId);
      && r.CreateSlide? && r.slideObjectId == slideId && r.slideIndex == insertionIndex
      && (r.layout.LayoutId? <==>
            exists i :: 0 <= i < |layouts| && NameMatches(layouts[i], layout)
              && (forall j :: 0 <= j < i ==> !NameMatches(layouts[j], layout))
              && layouts[i].objectId.Some? && layouts[i].objectId.value != "")
      && (r.layout.LayoutId? ==> exists i :: 0 <= i < |layouts| && NameMatches(layouts[i], layout) && layouts[i].objectId == Some(r.layout.id))
      && (r.layout.PredefinedLayout? ==> r.layout.name == layout)
  {
    var m := FirstMatching(layouts, layout);
    if m.Some? {
      var i := m.value;
      assert NameMatches(layouts[i], layout);
      forall k | 0 <= k < |layouts| && NameMatches(layouts[k], layout) && (forall j :: 0 <= j < k ==> !NameMatches(layouts[j], layout))
        ensures k == i
      {
      }
    }
  }

  /** The layout search: the first match ends the loop. */
  method FindLayout(layouts: seq<Layout>, layout: string) returns (layoutId: Option<string>)
    ensures layoutId == LayoutIdFor(layouts, layout)
  {
    layoutId := None;
    var i := 0;
    while i < |layouts|
      invariant 0 <= i <= |layouts|
      invariant forall j :: 0 <= j < i ==> !NameMatches(layouts[j], layout)
      invariant layoutId.None?
    {
      if Upper(layouts[i].name.GetOr("")) == layout {
        assert FirstMatching(layouts, layout) == Some(i);
        layoutId := layouts[i].objectId;
        return;
      }
      i := i + 1;
    }
  }

  /** `placeholder.get("type", "UNKNOWN")`. */
  function PlaceholderKey(e: PageElement): string {
    PlaceholderOf(e).placeholderType.GetOr("UNKNOWN")
  }

  /** An element the tool lists: its placeholder object is non-empty. */
  predicate Listed(e: PageElement) {
    !PlaceholderOf(e).IsEmpty()
  }

  /** `placeholder_ids`: each listed element in turn writes its id under its type. */
  function PlaceholderIds(es: seq<PageElement>): (r: map<string, Option<string>>)
    ensures forall k :: k in r ==> exists i :: 0 <= i < |es| && Listed(es[i]) && PlaceholderKey(es[i]) == k && r[k] == es[i].objectId
    decreases |es|
  {
    if |es| == 0 then map[]
    else
      var ids := PlaceholderIds(es[..|es| - 1]);
      var e := es[|es| - 1];
      if Listed(e) then ids[PlaceholderKey(e) := e.objectId] else ids
  }

  /** A type is a key exactly when some listed element has it. */
  lemma {:induction false} PlaceholderIdsKeys(es: seq<PageElement>, t: string)
    ensures t in PlaceholderIds(es) <==> exists i :: 0 <= i < |es| && Listed(es[i]) && PlaceholderKey(es[i]) == t
    decreases |es|
  {
    if |es| > 0 {
      var init := es[..|es| - 1];
      PlaceholderIdsKeys(init, t);
      if t in PlaceholderIds(init) {
        var i :| 0 <= i < |init| && Listed(init[i]) && PlaceholderKey(init[i]) == t;
        assert es[i] == init[i];
      }
      if exists i :: 0 <= i < |es| && Listed(es[i]) && PlaceholderKey(es[i]) == t {
        var i :| 0 <= i < |es| && Listed(es[i]) && PlaceholderKey(es[i]) == t;
        if i < |es| - 1 {
          assert init[i] == es[i];
        }
      }
    }
  }

  /** The last element of a type wins: its id is the one kept. */
  lemma {:induction false} PlaceholderIdsLastWins(es: seq<PageElement>, i: nat)
    requires i < |es| && Listed(es[i])
    requires forall j :: i < j < |es| ==> !(Listed(es[j]) && PlaceholderKey(es[j]) == PlaceholderKey(es[i]))
    ensures PlaceholderKey(es[i]) in PlaceholderIds(es)
    ensures PlaceholderIds(es)[PlaceholderKey(es[i])] == es[i].objectId
    decreases |es|
  {
    if i < |es| - 1 {
      var init := es[..|es| - 1];
      assert init[i] == es[i];
      PlaceholderIdsLastWins(init, i);
    }
  }

  /** The loop that fills `placeholder_ids`. */
  method CollectPlaceholderIds(es: seq<PageElement>) returns (ids: map<string, Option<string>>)
    ensures ids == PlaceholderIds(es)
  {
    ids := map[];
    var i := 0;
    while i < |es|
      invariant 0 <= i <= |es|
      invariant ids == PlaceholderIds(es[..i])
    {
      assert es[..i + 1][..i] == es[..i];
      var placeholder := PlaceholderOf(es[i]);
      if !placeholder.IsEmpty() {
        ids := ids[placeholder.placeholderType.GetOr("UNKNOWN") := es[i].objectId];
      }
      i := i + 1;
    }
    assert es[..i] == es;
  }

  datatype CreatedSlide = CreatedSlide(slideId: string, placeholderIds: map<string, Option<string>>)

  /**
   * `create_slide`: the single request sent, then the placeholder ids of
   * the new slide as read back.
   */
  method CreateSlideTool(layouts: seq<Layout>, layout: string, insertionIndex: Option<int>, uuidHex: string, created: Page)
    returns (requests: seq<Request>, result: CreatedSlide)
    requires layout in LayoutTypes
    ensures requests == [SlideRequest(layouts, layout, insertionIndex, NewObjectId("slide_", uuidHex))]
    ensures result == CreatedSlide(NewObjectId("slide_", uuidHex), PlaceholderIds(created.pageElements))
  {
    var layoutId := FindLayout(layouts, layout);
    var slideId := "slide_" + Take(uuidHex, 8);
    var request := CreateSlide(slideId, PredefinedLayout(layout), None);
    if layoutId.Some? && layoutId.value != "" {
      request := request.(layout := LayoutId(layoutId.value));
    }
    if insertionIndex.Some? {
      request := request.(slideIndex := insertionIndex);
    }
    requests := [request];
    var ids := CollectPlaceholderIds(created.pageElements);
    result := CreatedSlide(slideId, ids);
  }

  // ---------------------------------------------------------------------
  // Geometry shared by the created elements
  // ---------------------------------------------------------------------

  /**
   * An element created with a size and placement from these inches reports
   * back bounds of exactly their EMU conversions, and those convert back to
   * within one EMU of the inches asked for.
   */
  lemma CreatedGeometryReadsBack(e: PageElement, x: real, y: real, width: real, height: real)
    requires e.transform == AsRaw(Placement(InchesToEmu(x), InchesToEmu(y)))
    requires e.size == BuildSize(InchesToEmu(width), InchesToEmu(height))
    requires 0.0 <= width && 0.0 <= height
    ensures ExtractElementBounds(e) == Ok(Bounds(InchesToEmu(x), InchesToEmu(y), InchesToEmu(width), InchesToEmu(height)))
    ensures 0.0 <= width - EmuToInches(InchesToEmu(width)) < 1.0 / 914400.0
    ensures 0.0 <= height - EmuToInches(InchesToEmu(height)) < 1.0 / 914400.0
  {
    BoundsOfBuiltGeometry(e, Placement(InchesToEmu(x), InchesToEmu(y)), InchesToEmu(width), InchesToEmu(height));
    InchesRoundTrip(width);
    InchesRoundTrip(height);
  }

  // ---------------------------------------------------------------------
  // add_text_box
  // ---------------------------------------------------------------------

  datatype TextAlignment = AlignLeft | AlignCenter | AlignRight {
    function Name(): string {
      match this
      case AlignLeft => "LEFT"
      case AlignCenter => "CENTER"
      case AlignRight => "RIGHT"
    }
  }

  const TEXT_BOX_STYLE_FIELDS := "fontFamily,fontSize,bold,italic,foregroundColor"

  /** The arguments of `add_text_box`. */
  datatype TextBoxSpec = TextBoxSpec(
    text: string, x: real, y: real, width: real, height: real,
    fontSize: int, fontFamily: string, bold: bool, italic: bool, color: string, alignment: TextAlignment)

  /** The defaults of `add_text_box`'s optional arguments. */
  function DefaultTextBox(text: string): TextBoxSpec {
    TextBoxSpec(text, 1.0, 1.0, 4.0, 1.0, 18, "Arial", false, false, "#000000", AlignLeft)
  }

  /** The four requests of `add_text_box`; the colour is parsed while the list is built. */
  function TextBoxRequests(elementId: string, slideId: string, spec: TextBoxSpec): (r: Result<seq<Request>, ColorError>)
    ensures r.Err? <==> HexToRgb(spec.color).Err?
    ensures r.Ok? ==> |r.value| == 4 && r.value[0].CreateShape? && r.value[0].shapeObjectId == elementId
  {
    match HexToRgb(spec.color)
    case Err(e) => Err(e)
    case Ok(rgb) => Ok(TextBoxList(elementId, slideId, spec, rgb))
  }

  /** The requests of a text box whose colour has parsed to `rgb`. */
  function TextBoxList(elementId: string, slideId: string, spec: TextBoxSpec, rgb: Rgb): seq<Request> {
    [CreateShape(elementId, "TEXT_BOX", slideId, InchesToEmu(spec.width), InchesToEmu(spec.height),
                 Placement(InchesToEmu(spec.x), InchesToEmu(spec.y))),
     InsertText(Some(elementId), spec.text, 0),
     UpdateTextStyle(Some(elementId),
                     TextStyleUpdate(Some(spec.fontSize), Some(spec.bold), Some(spec.italic), Some(spec.fontFamily), Some(rgb)),
                     TEXT_BOX_STYLE_FIELDS),
     UpdateParagraphStyle(Some(elementId), spec.alignment.Name(), "alignment")]
  }

  /** The id a request acts on. */
  function TargetOf(r: Request): Option<string> {
    match r
    case CreateShape(id, _, _, _, _, _) => Some(id)
    case CreateImage(id, _, _, _, _, _) => Some(id)
    case InsertText(id, _, _) => id
    case UpdateTextStyle(id, _, _) => id
    case UpdateParagraphStyle(id, _, _) => id
    case UpdateShapeProperties(id, _, _, _) => Some(id)
    case _ => None
  }

  /**
   * An invalid colour fails before anything is sent; otherwise the text box
   * is created, filled from index 0, styled on all five style fields, then
   * aligned, every request acting on the new element.
   */
  lemma TextBoxListShape(elementId: string, slideId: string, spec: TextBoxSpec, rgb: Rgb)
    ensures var rs := TextBoxList(elementId, slideId, spec, rgb);
      && |rs| == 4
      && (forall i :: 0 <= i < 4 ==> TargetOf(rs[i]) == Some(elementId))
      && rs[0].CreateShape? && rs[0].shapeObjectId == elementId && rs[0].shapeType == "TEXT_BOX"
      && rs[0].pageObjectId == slideId
      && rs[0].width == InchesToEmu(spec.width) && rs[0].height == InchesToEmu(spec.height)
      && rs[0].placement == Placement(InchesToEmu(spec.x), InchesToEmu(spec.y))
      && rs[1].InsertText? && rs[1].textIndex == 0 && rs[1].text == spec.text
      && rs[2].UpdateTextStyle? && rs[2].fields == TEXT_BOX_STYLE_FIELDS
      && rs[2].style == TextStyleUpdate(Some(spec.fontSize), Some(spec.bold), Some(spec.italic), Some(spec.fontFamily), Some(rgb))
      && rs[3].UpdateParagraphStyle? && rs[3].fields == "alignment" && rs[3].alignment == spec.alignment.Name()
  {
  }

  lemma TextBoxShape(elementId: string, slideId: string, spec: TextBoxSpec)
    ensures TextBoxRequests(elementId, slideId, spec).Err? <==> HexToRgb(spec.color).Err?
    ensures TextBoxRequests(elementId, slideId, spec).Ok? ==>
      var rs := TextBoxRequests(elementId, slideId, spec).value;
      && |rs| == 4
      && (forall i :: 0 <= i < 4 ==> TargetOf(rs[i]) == Some(elementId))
      && rs[0].CreateShape? && rs[0].shapeObjectId == elementId && rs[0].shapeType == "TEXT_BOX"
      && rs[0].pageObjectId == slideId
      && rs[0].width == InchesToEmu(spec.width) && rs[0].height == InchesToEmu(spec.height)
      && rs[0].placement == Placement(InchesToEmu(spec.x), InchesToEmu(spec.y))
      && rs[1].InsertText? && rs[1].textIndex == 0 && rs[1].text == spec.text
      && rs[2].UpdateTextStyle? && rs[2].fields == TEXT_BOX_STYLE_FIELDS
      && rs[2].style == TextStyleUpdate(Some(spec.fontSize), Some(spec.bold), Some(spec.italic), Some(spec.fontFamily),
                                        Some(HexToRgb(spec.color).value))
      && rs[3].UpdateParagraphStyle? && rs[3].fields == "alignment" && rs[3].alignment == spec.alignment.Name()
  {
    match HexToRgb(spec.color)
    case Err(_) =>
    case Ok(rgb) => TextBoxListShape(elementId, slideId, spec, rgb);
  }

  /**
   * The text box as created by the first request reads back, through
   * `extract_element_bounds`, at the EMU conversions of the inches asked for,
   * and its size converts back to within one EMU of them.
   */
  lemma TextBoxReadsBack(elementId: string, slideId: string, spec: TextBoxSpec, e: PageElement)
    requires TextBoxRequests(elementId, slideId, spec).Ok? && 0.0 <= spec.width && 0.0 <= spec.height
    requires var c := TextBoxRequests(elementId, slideId, spec).value[0];
      c.CreateShape? && e.transform == AsRaw(c.placement) && e.size == BuildSize(c.width, c.height)
    ensures ExtractElementBounds(e)
         == Ok(Bounds(InchesToEmu(spec.x), InchesToEmu(spec.y), InchesToEmu(spec.width), InchesToEmu(spec.height)))
    ensures 0.0 <= spec.width - EmuToInches(InchesToEmu(spec.width)) < 1.0 / 914400.0
    ensures 0.0 <= spec.height - EmuToInches(InchesToEmu(spec.height)) < 1.0 / 914400.0
  {
    TextBoxShape(elementId, slideId, spec);
    CreatedGeometryReadsBack(e, spec.x, spec.y, spec.width, spec.height);
  }

  /** With the defaults the box is 4 by 1 inches at (1, 1), in black 18-point Arial, left-aligned. */
  lemma DefaultTextBoxRequests(elementId: string, slideId: string, text: string)
    ensures TextBoxRequests(elementId, slideId, DefaultTextBox(text)).Ok?
    ensures var rs := TextBoxRequests(elementId, slideId, DefaultTextBox(text)).value;
      && rs[0] == CreateShape(elementId, "TEXT_BOX", slideId, 3657600, 914400, Placement(914400, 914400))
      && rs[2].style == TextStyleUpdate(Some(18), Some(false), Some(false), Some("Arial"), Some(Rgb(0.0, 0.0, 0.0)))
      && rs[3].alignment == "LEFT"
  {
    ParseExamplesBlack();
    DefaultsWithColor(elementId, slideId, text, "#000000", Rgb(0.0, 0.0, 0.0));
  }

  /** The default text box with a colour that parses to `c`. */
  lemma DefaultsWithColor(elementId: string, slideId: string, text: string, color: string, c: Rgb)
    requires HexToRgb(color) == Ok(c)
    ensures var spec := TextBoxSpec(text, 1.0, 1.0, 4.0, 1.0, 18, "Arial", false, false, color, AlignLeft);
      && TextBoxRequests(elementId, slideId, spec).Ok?
      && var rs := TextBoxRequests(elementId, slideId, spec).value;
      && rs[0] == CreateShape(elementId, "TEXT_BOX", slideId, 3657600, 914400, Placement(914400, 914400))
      && rs[2].style == TextStyleUpdate(Some(18), Some(false), Some(false), Some("Arial"), Some(c))
      && rs[3].alignment == "LEFT"
  {
    var spec := TextBoxSpec(text, 1.0, 1.0, 4.0, 1.0, 18, "Arial", false, false, color, AlignLeft);
    TextBoxShape(elementId, slideId, spec);
    assert InchesToEmu(1.0) == 914400 && InchesToEmu(4.0) == 3657600;
  }

  /** `#000000` parses to black. */
  lemma ParseExamplesBlack()
    ensures HexToRgb("#000000") == Ok(Rgb(0.0, 0.0, 0.0))
  {
    var black := "000000";
    assert HexValue(black[0]) == 0 && HexValue(black[1]) == 0 && HexValue(black[2]) == 0;
    assert HexValue(black[3]) == 0 && HexValue(black[4]) == 0 && HexValue(black[5]) == 0;
    assert IsValidBody(black) && BodyRgb(black) == Rgb(0.0, 0.0, 0.0);
    assert "#" + black == "#000000";
    ParseBody(black);
  }

  // ---------------------------------------------------------------------
  // add_image
  // ---------------------------------------------------------------------

  /** The arguments of `add_image`; every geometric one is optional. */
  datatype ImageSpec = ImageSpec(
    url: string, x: Option<real>, y: Option<real>, width: Option<real>, height: Option<real>,
    horizontal: Option<Align>, vertical: Option<Align>)

  /** The single `createImage` request of `add_image`. */
  function ImageRequest(elementId: string, slideId: string, spec: ImageSpec): (r: Request)
    ensures r.CreateImage? && r.imageObjectId == elementId && r.url == spec.url && r.pageObjectId == slideId
    ensures r.width == InchesToEmu(spec.width.GetOr(4.0)) && r.height == InchesToEmu(spec.height.GetOr(3.0))
  {
    var w := InchesToEmu(spec.width.GetOr(4.0));
    var h := InchesToEmu(spec.height.GetOr(3.0));
    var pos := if spec.horizontal.Some? || spec.vertical.Some?
      then AlignmentPosition(Widescreen, w, h, spec.horizontal, spec.vertical, 0)
      else (InchesToEmu(spec.x.GetOr(1.0)), InchesToEmu(spec.y.GetOr(1.0)));
    CreateImage(elementId, spec.url, slideId, w, h, Placement(pos.0, pos.1))
  }

  /**
   * Size defaults to 4 by 3 inches. With an alignment the position is
   * resolved on the 16:9 slide with no margin, an axis without alignment
   * going to 0 and explicit coordinates ignored; without one the position
   * is the given inches, 1 inch by default.
   */
  lemma ImageRequestPlacement(elementId: string, slideId: string, spec: ImageSpec)
    ensures var r := ImageRequest(elementId, slideId, spec);
      && r.CreateImage? && r.imageObjectId == elementId && r.pageObjectId == slideId && r.url == spec.url
      && r.width == InchesToEmu(spec.width.GetOr(4.0)) && r.height == InchesToEmu(spec.height.GetOr(3.0))
      && r.placement.scaleX == 1.0 && r.placement.scaleY == 1.0
      && r.placement.shearX == 0.0 && r.placement.shearY == 0.0
      && ((spec.horizontal.Some? || spec.vertical.Some?) ==>
            && (spec.horizontal.None? ==> r.placement.translateX == 0)
            && (spec.vertical.None? ==> r.placement.translateY == 0)
            && ImageRequest(elementId, slideId, spec.(x := None, y := None)) == r)
      && ((spec.horizontal.None? && spec.vertical.None?) ==>
            r.placement.translateX == InchesToEmu(spec.x.GetOr(1.0)) && r.placement.translateY == InchesToEmu(spec.y.GetOr(1.0)))
  {
  }

  /** A default-sized image aligned on both axes lies inside the 16:9 slide. */
  lemma AlignedDefaultImageInside(elementId: string, slideId: string, url: string, h: Align, v: Align)
    ensures var r := ImageRequest(elementId, slideId, ImageSpec(url, None, None, None, None, Some(h), Some(v)));
      && 0 <= r.placement.translateX && r.placement.translateX + r.width <= SLIDE_WIDTH_EMU
      && 0 <= r.placement.translateY && r.placement.translateY + r.height <= SLIDE_HEIGHT_16_9_EMU
  {
    assert InchesToEmu(4.0) == 3657600;
    assert InchesToEmu(3.0) == 2743200;
    AxisPositionInBounds(SLIDE_WIDTH_EMU, 3657600, h, 0);
    AxisPositionInBounds(SLIDE_HEIGHT_16_9_EMU, 2743200, v, 0);
  }

  // ---------------------------------------------------------------------
  // add_shape
  // ---------------------------------------------------------------------

  /** The arguments of `add_shape`; a colour of None leaves that part out. */
  datatype ShapeSpec = ShapeSpec(
    shapeType: string, x: real, y: real, width: real, height: real,
    fillColor: Option<string>, outlineColor: Option<string>, outlineWeight: real)

  /** `add_shape` with its default outline: black, 1 point, no fill. */
  function DefaultShape(shapeType: string, x: real, y: real, width: real, height: real): ShapeSpec {
    ShapeSpec(shapeType, x, y, width, height, None, Some("#000000"), 1.0)
  }

  /** The `createShape` request of `add_shape`. */
  function ShapeCreateRequest(elementId: string, slideId: string, spec: ShapeSpec): Request {
    CreateShape(elementId, spec.shapeType, slideId, InchesToEmu(spec.width), InchesToEmu(spec.height),
                Placement(InchesToEmu(spec.x), InchesToEmu(spec.y)))
  }

  /** The colour argument parsed, when given: None stays None, a bad colour is the error. */
  function ParseOptional(c: Option<string>): Result<Option<Rgb>, ColorError> {
    match c
    case None => Ok(None)
    case Some(hex) =>
      match HexToRgb(hex)
      case Err(e) => Err(e)
      case Ok(rgb) => Ok(Some(rgb))
  }

  /** `",".join(fields)` for the parts present. */
  function PropertyFields(hasFill: bool, hasOutline: bool): string {
    if hasFill && hasOutline then "shapeBackgroundFill,outline"
    else if hasFill then "shapeBackgroundFill"
    else if hasOutline then "outline"
    else ""
  }

  /** The requests of `add_shape`: the fill colour is parsed before the outline colour. */
  function ShapeRequests(elementId: string, slideId: string, spec: ShapeSpec): (r: Result<seq<Request>, ColorError>)
    ensures r.Err? <==> ParseOptional(spec.fillColor).Err? || ParseOptional(spec.outlineColor).Err?
    ensures r.Ok? ==> 1 <= |r.value| <= 2 && r.value[0].CreateShape? && r.value[0].shapeObjectId == elementId
  {
    match ParseOptional(spec.fillColor)
    case Err(e) => Err(e)
    case Ok(fill) =>
      match ParseOptional(spec.outlineColor)
      case Err(e) => Err(e)
      case Ok(outline) => Ok(ShapeList(elementId, slideId, spec, fill, outline))
  }

  /** The requests of a shape whose colours have parsed to `fill` and `outline`. */
  function ShapeList(elementId: string, slideId: string, spec: ShapeSpec, fill: Option<Rgb>, outline: Option<Rgb>): seq<Request> {
    var create := ShapeCreateRequest(elementId, slideId, spec);
    if fill.None? && outline.None? then [create]
    else
      [create, UpdateShapeProperties(elementId, fill,
                 if outline.Some? then Some(Outline(outline.value, spec.outlineWeight)) else None,
                 PropertyFields(fill.Some?, outline.Some?))]
  }

  /** The shape of the request list once both colours have parsed. */
  lemma ShapeListShape(elementId: string, slideId: string, spec: ShapeSpec, fill: Option<Rgb>, outline: Option<Rgb>)
    ensures var rs := ShapeList(elementId, slideId, spec, fill, outline);
      && rs[0] == ShapeCreateRequest(elementId, slideId, spec)
      && (|rs| == 2 <==> fill.Some? || outline.Some?)
      && (|rs| == 1 <==> fill.None? && outline.None?)
      && (|rs| == 2 ==>
            && rs[1].UpdateShapeProperties? && rs[1].shapeObjectId == elementId
            && (rs[1].fill.Some? <==> fill.Some?)
            && (rs[1].outline.Some? <==> outline.Some?)
            && (rs[1].outline.Some? ==> rs[1].outline.value.weightPt == spec.outlineWeight)
            && rs[1].fill == fill
            && (outline.Some? ==> rs[1].outline.value.color == outline.value)
            && rs[1].fields == PropertyFields(fill.Some?, outline.Some?)
            && (fill.Some? ==> Contains(rs[1].fields, "shapeBackgroundFill"))
            && (outline.Some? ==> Contains(rs[1].fields, "outline")))
  {
    var rs := ShapeList(elementId, slideId, spec, fill, outline);
    if |rs| == 2 {
      var f := rs[1].fields;
      if fill.Some? {
        assert "shapeBackgroundFill" <= f;
      }
      if outline.Some? {
        OutlineNamed(fill.Some?);
      }
    }
  }

  /**
   * A given colour that does not parse fails the call, the fill's error
   * first. Otherwise the shape is created, and a properties update follows
   * exactly when a fill or an outline is given, its mask naming exactly
   * the parts it sets, in the order fill, outline.
   */
  lemma ShapeRequestsShape(elementId: string, slideId: string, spec: ShapeSpec)
    ensures var r := ShapeRequests(elementId, slideId, spec);
      && (r.Err? <==> ParseOptional(spec.fillColor).Err? || ParseOptional(spec.outlineColor).Err?)
      && (ParseOptional(spec.fillColor).Err? ==> r == Err(ParseOptional(spec.fillColor).error))
    ensures var r := ShapeRequests(elementId, slideId, spec);
      r.Ok? ==>
        && r.value[0] == ShapeCreateRequest(elementId, slideId, spec)
        && (|r.value| == 2 <==> spec.fillColor.Some? || spec.outlineColor.Some?)
        && (|r.value| == 1 <==> spec.fillColor.None? && spec.outlineColor.None?)
        && (|r.value| == 2 ==>
              && r.value[1].UpdateShapeProperties? && r.value[1].shapeObjectId == elementId
              && (r.value[1].fill.Some? <==> spec.fillColor.Some?)
              && (r.value[1].outline.Some? <==> spec.outlineColor.Some?)
              && (r.value[1].outline.Some? ==> r.value[1].outline.value.weightPt == spec.outlineWeight)
              && r.value[1].fill == ParseOptional(spec.fillColor).value
              && (spec.fillColor.Some? ==> r.value[1].fill.value == HexToRgb(spec.fillColor.value).value)
              && (spec.outlineColor.Some? ==> r.value[1].outline.value.color == HexToRgb(spec.outlineColor.value).value)
              && r.value[1].fields == PropertyFields(spec.fillColor.Some?, spec.outlineColor.Some?)
              && (spec.fillColor.Some? ==> Contains(r.value[1].fields, "shapeBackgroundFill"))
              && (spec.outlineColor.Some? ==> Contains(r.value[1].fields, "outline")))
  {
    match ParseOptional(spec.fillColor)
    case Err(_) =>
    case Ok(fill) =>
      match ParseOptional(spec.outlineColor)
      case Err(_) =>
      case Ok(outline) =>
        assert fill.Some? <==> spec.fillColor.Some?;
        assert outline.Some? <==> spec.outlineColor.Some?;
        ShapeListShape(elementId, slideId, spec, fill, outline);
  }

  /** Each mask with an outline names it. */
  lemma OutlineNamed(hasFill: bool)
    ensures Contains(PropertyFields(hasFill, true), "outline")
  {
    if hasFill {
      var f := PropertyFields(true, true);
      var k := |"shapeBackgroundFill,"|;
      assert f[k..] == "outline";
      ContainsSuffix(f, k, "outline");
    } else {
      assert "outline" <= PropertyFields(false, true);
    }
  }

  /** A text contains whatever any of its suffixes starts with. */
  lemma {:induction false} ContainsSuffix(s: string, k: nat, sub: string)
    requires k <= |s| && sub <= s[k..]
    ensures Contains(s, sub)
    decreases k
  {
    if k > 0 {
      assert s[1..][k - 1..] == s[k..];
      ContainsSuffix(s[1..], k - 1, sub);
    }
  }

  /** By default the shape gets a black 1-point outline and no fill. */
  lemma DefaultShapeRequests(elementId: string, slideId: string, shapeType: string, x: real, y: real, width: real, height: real)
    ensures ShapeRequests(elementId, slideId, DefaultShape(shapeType, x, y, width, height)) ==
      Ok([ShapeCreateRequest(elementId, slideId, DefaultShape(shapeType, x, y, width, height)),
          UpdateShapeProperties(elementId, None, Some(Outline(Rgb(0.0, 0.0, 0.0), 1.0)), "outline")])
  {
    ParseExamplesBlack();
  }

  lemma JoinedFields(hasFill: bool, hasOutline: bool)
    ensures Join((if hasFill then ["shapeBackgroundFill"] else []) + (if hasOutline then ["outline"] else []), ",")
      == PropertyFields(hasFill, hasOutline)
  {
    if hasFill && hasOutline {
      var fs := ["shapeBackgroundFill", "outline"];
      assert fs[1..] == ["outline"];
    }
  }

  /** `add_shape`: the properties and their mask are filled part by part. */
  method AddShape(elementId: string, slideId: string, spec: ShapeSpec) returns (r: Result<seq<Request>, ColorError>)
    ensures r == ShapeRequests(elementId, slideId, spec)
  {
    var fields: seq<string> := [];
    var parsedFill := ParseColorArg(spec.fillColor);
    if parsedFill.Err? {
      FillFails(elementId, slideId, spec);
      return Err(parsedFill.error);
    }
    var fill := parsedFill.value;
    if fill.Some? {
      fields := fields + ["shapeBackgroundFill"];
    }
    var parsedOutline := ParseColorArg(spec.outlineColor);
    if parsedOutline.Err? {
      OutlineFails(elementId, slideId, spec);
      return Err(parsedOutline.error);
    }
    var outlineColor := parsedOutline.value;
    if outlineColor.Some? {
      fields := fields + ["outline"];
    }
    var requests := ShapeBatch(elementId, slideId, spec, fill, outlineColor, fields);
    ShapeRequestsParsed(elementId, slideId, spec, fill, outlineColor);
    r := Ok(requests);
  }

  /** `hex_to_rgb` on a colour argument when it is given. */
  method ParseColorArg(c: Option<string>) returns (r: Result<Option<Rgb>, ColorError>)
    ensures r == ParseOptional(c)
  {
    if c.None? {
      return Ok(None);
    }
    var parsed := HexToRgb(c.value);
    if parsed.Err? {
      return Err(parsed.error);
    }
    r := Ok(Some(parsed.value));
  }

  /** The end of `add_shape`: the creation, then the properties update when some part is set. */
  method ShapeBatch(elementId: string, slideId: string, spec: ShapeSpec, fill: Option<Rgb>, outlineColor: Option<Rgb>,
                    fields: seq<string>) returns (requests: seq<Request>)
    requires fields == (if fill.Some? then ["shapeBackgroundFill"] else []) + (if outlineColor.Some? then ["outline"] else [])
    ensures requests == ShapeList(elementId, slideId, spec, fill, outlineColor)
  {
    requests := [ShapeCreateRequest(elementId, slideId, spec)];
    var outline: Option<Outline> := None;
    if outlineColor.Some? {
      outline := Some(Outline(outlineColor.value, spec.outlineWeight));
    }
    if |fields| > 0 {
      JoinedFields(fill.Some?, outlineColor.Some?);
      requests := requests + [UpdateShapeProperties(elementId, fill, outline, Join(fields, ","))];
    }
  }

  /** A fill colour that does not parse is the error of `add_shape`. */
  lemma FillFails(elementId: string, slideId: string, spec: ShapeSpec)
    requires ParseOptional(spec.fillColor).Err?
    ensures ShapeRequests(elementId, slideId, spec) == Err(ParseOptional(spec.fillColor).error)
  {
  }

  /** With the fill parsed, an outline colour that does not parse is the error of `add_shape`. */
  lemma OutlineFails(elementId: string, slideId: string, spec: ShapeSpec)
    requires ParseOptional(spec.fillColor).Ok? && ParseOptional(spec.outlineColor).Err?
    ensures ShapeRequests(elementId, slideId, spec) == Err(ParseOptional(spec.outlineColor).error)
  {
  }

  /** With both colours parsed, `add_shape` sends the shape's list. */
  lemma ShapeRequestsParsed(elementId: string, slideId: string, spec: ShapeSpec, fill: Option<Rgb>, outlineColor: Option<Rgb>)
    requires ParseOptional(spec.fillColor) == Ok(fill) && ParseOptional(spec.outlineColor) == Ok(outlineColor)
    ensures ShapeRequests(elementId, slideId, spec) == Ok(ShapeList(elementId, slideId, spec, fill, outlineColor))
  {
  }
}
