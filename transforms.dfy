/**
 * Slide-size presets, alignment of an element on a slide, construction of
 * absolute transforms and sizes, and extraction of an element's bounds.
 */
module Transforms {
  import opened Wrappers
  import opened Units
  import opened Slides

  /** Slide dimensions in EMU. */
  datatype SlideSize = SlideSize(widthEmu: int, heightEmu: int) {
    function WidthInches(): real { EmuToInches(widthEmu) }
    function HeightInches(): real { EmuToInches(heightEmu) }
  }

  const Widescreen: SlideSize := SlideSize(SLIDE_WIDTH_EMU, SLIDE_HEIGHT_16_9_EMU)

  /** `SLIDE_SIZES`. */
  const SlideSizes: map<string, SlideSize> := map[
    "16:9" := Widescreen,
    "4:3" := SlideSize(SLIDE_WIDTH_EMU, SLIDE_HEIGHT_4_3_EMU),
    "16:10" := SlideSize(SLIDE_WIDTH_EMU, SLIDE_HEIGHT_16_10_EMU)]

  /** The presets: ten inches wide, and 5.625, 7.5 or 6.25 inches high. */
  lemma PresetsInInches()
    ensures SlideSizes.Keys == {"16:9", "4:3", "16:10"}
    ensures forall name :: name in SlideSizes ==> SlideSizes[name].WidthInches() == 10.0
    ensures SlideSizes["16:9"].HeightInches() == 5.625
    ensures SlideSizes["4:3"].HeightInches() == 7.5
    ensures SlideSizes["16:10"].HeightInches() == 6.25
  {
    SlideConstantsInInches();
  }

  /**
   * One axis of an alignment keyword: `Start` is left/top, `Center` is
   * center, `End` is right/bottom.
   */
  datatype Align = Start | Center | End

  /**
   * The coordinate `calculate_alignment_position` computes on one axis of
   * length `extent` for an element of length `size`.
   */
  function AxisPosition(extent: int, size: int, align: Option<Align>, margin: int): (p: int)
    ensures align == Some(Start) ==> p == margin
    ensures align == Some(End) ==> extent - (p + size) == margin
    ensures align == Some(Center) ==> 0 <= (extent - (p + size)) - p <= 1
    ensures align == None ==> p == 0
  {
    match align
    case Some(Start) => margin
    case Some(Center) => (extent - size) / 2
    case Some(End) => extent - size - margin
    case None => 0
  }

  /** `calculate_alignment_position`: each axis resolved on its own. */
  function AlignmentPosition(slide: SlideSize, width: int, height: int,
                             horizontal: Option<Align>, vertical: Option<Align>, margin: int): (int, int)
  {
    (AxisPosition(slide.widthEmu, width, horizontal, margin),
     AxisPosition(slide.heightEmu, height, vertical, margin))
  }

  /** `calculate_center_position`. */
  function CenterPosition(slide: SlideSize, width: int, height: int): (p: (int, int))
    ensures 0 <= (slide.widthEmu - (p.0 + width)) - p.0 <= 1
    ensures 0 <= (slide.heightEmu - (p.1 + height)) - p.1 <= 1
  {
    ((slide.widthEmu - width) / 2, (slide.heightEmu - height) / 2)
  }

  /** Centring is alignment to the center on both axes, whatever the margin. */
  lemma CenterIsCenterAlignment(slide: SlideSize, width: int, height: int, margin: int)
    ensures CenterPosition(slide, width, height) == AlignmentPosition(slide, width, height, Some(Center), Some(Center), margin)
  {
  }

  /** Changing the alignment of one axis never moves the other. */
  lemma AxesIndependent(slide: SlideSize, width: int, height: int,
                        h1: Option<Align>, h2: Option<Align>, v1: Option<Align>, v2: Option<Align>, margin: int)
    ensures AlignmentPosition(slide, width, height, h1, v1, margin).1 == AlignmentPosition(slide, width, height, h2, v1, margin).1
    ensures AlignmentPosition(slide, width, height, h1, v1, margin).0 == AlignmentPosition(slide, width, height, h1, v2, margin).0
  {
  }

  /** An element that fits, with a margin that fits, is placed inside the slide. */
  lemma {:induction false} AxisPositionInBounds(extent: int, size: int, align: Align, margin: int)
    requires 0 <= size <= extent && 0 <= margin <= extent - size
    ensures 0 <= AxisPosition(extent, size, Some(align), margin) <= extent - size
  {
    var p := AxisPosition(extent, size, Some(align), margin);
    if align == Center {
      assert 0 <= (extent - (p + size)) - p <= 1;
    }
  }

  /** Start and End mirror each other: the same margin, on opposite sides. */
  lemma StartEndMirror(extent: int, size: int, margin: int)
    ensures AxisPosition(extent, size, Some(Start), margin) + AxisPosition(extent, size, Some(End), margin) == extent - size
  {
  }

  datatype TransformError =
    | RotationUnsupported                 // NotImplementedError
    | MissingGeometry                     // ValueError of extract_element_bounds

  /** `build_absolute_transform`: translation and scale only. */
  function BuildAbsoluteTransform(translateX: int, translateY: int, scaleX: real, scaleY: real,
                                  rotationAngle: real): (r: Result<AffineTransform, TransformError>)
    ensures r.Err? <==> rotationAngle != 0.0
    ensures r.Ok? ==> r.value.shearX == 0.0 && r.value.shearY == 0.0
    ensures r.Ok? ==> r.value.scaleX == scaleX && r.value.scaleY == scaleY
    ensures r.Ok? ==> r.value.translateX == translateX && r.value.translateY == translateY
  {
    if rotationAngle != 0.0 then Err(RotationUnsupported)
    else Ok(AffineTransform(scaleX, scaleY, 0.0, 0.0, translateX, translateY))
  }

  /** The default arguments: unit scale, no rotation. */
  lemma AbsoluteTransformDefaults(x: int, y: int)
    ensures BuildAbsoluteTransform(x, y, 1.0, 1.0, 0.0) == Ok(Placement(x, y))
  {
  }

  /** `build_size`. */
  function BuildSize(widthEmu: int, heightEmu: int): Size {
    Size(Some(Dimension(Some(widthEmu as real), Some("EMU"))),
         Some(Dimension(Some(heightEmu as real), Some("EMU"))))
  }

  /** An emitted transform as the API would report it back. */
  function AsRaw(t: AffineTransform): RawTransform {
    RawTransform(Some(t.scaleX), Some(t.scaleY), Some(t.shearX), Some(t.shearY),
                 Some(t.translateX as real), Some(t.translateY as real), Some("EMU"))
  }

  datatype Bounds = Bounds(x: int, y: int, width: int, height: int)

  /**
   * `extract_element_bounds`: fails when the transform or the size is
   * missing or empty; otherwise truncates each field, a missing one read as
   * 0. The scale factors are not applied to the size.
   */
  function ExtractElementBounds(e: PageElement): (r: Result<Bounds, TransformError>)
    ensures r.Err? <==> e.transform.IsEmpty() || e.size.IsEmpty()
    ensures r.Ok? ==>
      (r.value.x == Trunc(e.transform.translateX.GetOr(0.0))
       && r.value.y == Trunc(e.transform.translateY.GetOr(0.0))
       && r.value.width == Trunc(e.size.WidthMagnitude())
       && r.value.height == Trunc(e.size.HeightMagnitude()))
  {
    if e.transform.IsEmpty() || e.size.IsEmpty() then Err(MissingGeometry)
    else Ok(Bounds(Trunc(e.transform.translateX.GetOr(0.0)),
                   Trunc(e.transform.translateY.GetOr(0.0)),
                   Trunc(e.size.WidthMagnitude()),
                   Trunc(e.size.HeightMagnitude())))
  }

  /**
   * Round trip: an element carrying a transform and a size built by this
   * module reports back exactly the translation and size they were built from.
   */
  lemma BoundsOfBuiltGeometry(e: PageElement, t: AffineTransform, width: int, height: int)
    requires e.transform == AsRaw(t) && e.size == BuildSize(width, height)
    ensures ExtractElementBounds(e) == Ok(Bounds(t.translateX, t.translateY, width, height))
  {
    assert !e.transform.IsEmpty() && !e.size.IsEmpty();
    assert e.transform.translateX.GetOr(0.0) == t.translateX as real;
    assert e.transform.translateY.GetOr(0.0) == t.translateY as real;
    assert e.size.WidthMagnitude() == width as real;
    assert e.size.HeightMagnitude() == height as real;
    TruncOfWhole(t.translateX);
    TruncOfWhole(t.translateY);
    TruncOfWhole(width);
    TruncOfWhole(height);
  }

  /** Truncating a whole number gives it back. */
  lemma TruncOfWhole(n: int)
    ensures Trunc(n as real) == n
  {
  }

  /** The scale factors never reach the bounds: only translate and size do. */
  lemma BoundsIgnoreScale(e: PageElement, sx: real, sy: real)
    requires !e.transform.IsEmpty()
    ensures ExtractElementBounds(e.(transform := e.transform.(scaleX := Some(sx), scaleY := Some(sy)))) == ExtractElementBounds(e)
  {
  }
}
