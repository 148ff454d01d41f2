/**
 * The inspection tools: the slide listing with titles, and the summary of
 * one page element in inches.
 */
module Utility {
  import opened Wrappers
  import opened Strings
  import opened Units
  import opened Slides
  import opened Transforms
  import Positioning
  import Creation

  // ---------------------------------------------------------------------
  // list_slides
  // ---------------------------------------------------------------------

  datatype SlideListing = SlideListing(slideId: string, index: nat, title: string, elementCount: nat)

  predicate AllWhitespace(s: string) {
    forall i :: 0 <= i < |s| ==> IsWhitespace(s[i])
  }

  /** A run whose content is only whitespace (or that has no content): it strips to "". */
  predicate Blank(te: TextElement) {
    AllWhitespace(RunContent(te))
  }

  /** The index of the first run that is not blank. */
  function FirstNonBlankIndex(tes: seq<TextElement>): (r: Option<nat>)
    ensures r.Some? ==> r.value < |tes|
  {
    if |tes| == 0 then None
    else if !Blank(tes[0]) then Some(0)
    else match FirstNonBlankIndex(tes[1..])
      case None => None
      case Some(i) => Some(i + 1)
  }

  /** The index found is the first non-blank run; none is found only when every run is blank. */
  lemma {:induction false} FirstNonBlankIndexSpec(tes: seq<TextElement>)
    ensures var r := FirstNonBlankIndex(tes);
      && (r.Some? ==> !Blank(tes[r.value]) && forall j :: 0 <= j < r.value ==> Blank(tes[j]))
      && (r.None? ==> forall j :: 0 <= j < |tes| ==> Blank(tes[j]))
  {
    if |tes| > 0 && Blank(tes[0]) {
      FirstNonBlankIndexSpec(tes[1..]);
      assert forall j :: 1 <= j < |tes| ==> tes[j] == tes[1..][j - 1];
    }
  }

  /** The first run that is not blank, stripped; "" when every run is blank. */
  function FirstNonBlank(tes: seq<TextElement>): string {
    match FirstNonBlankIndex(tes)
    case None => ""
    case Some(k) => Strip(RunContent(tes[k]))
  }

  predicate IsTitlePlaceholder(e: PageElement) {
    PlaceholderTypeOf(e) == Some("TITLE")
  }

  /** The index of the first element whose placeholder type is `TITLE`. */
  function FirstTitle(es: seq<PageElement>): (r: Option<nat>)
    ensures r.Some? ==> r.value < |es|
  {
    if |es| == 0 then None
    else if IsTitlePlaceholder(es[0]) then Some(0)
    else match FirstTitle(es[1..])
      case None => None
      case Some(i) => Some(i + 1)
  }

  /** The index found is the first `TITLE` placeholder; none is found only when there is none. */
  lemma {:induction false} FirstTitleSpec(es: seq<PageElement>)
    ensures var r := FirstTitle(es);
      && (r.Some? ==> IsTitlePlaceholder(es[r.value]) && forall j :: 0 <= j < r.value ==> !IsTitlePlaceholder(es[j]))
      && (r.None? ==> forall j :: 0 <= j < |es| ==> !IsTitlePlaceholder(es[j]))
  {
    if |es| > 0 && !IsTitlePlaceholder(es[0]) {
      FirstTitleSpec(es[1..]);
      assert forall j :: 1 <= j < |es| ==> es[j] == es[1..][j - 1];
    }
  }

  /** The title of a slide: read from its first `TITLE` placeholder only. */
  function TitleOf(es: seq<PageElement>): string {
    match FirstTitle(es)
    case None => ""
    case Some(i) => FirstNonBlank(TextElementsOf(es[i]))
  }

  /** The first `TITLE` placeholder, when the slide has one. */
  predicate IsFirstTitle(es: seq<PageElement>, i: int) {
    0 <= i < |es| && IsTitlePlaceholder(es[i]) && forall j :: 0 <= j < i ==> !IsTitlePlaceholder(es[j])
  }

  /** The first non-blank run of a text, when it has one. */
  predicate IsFirstNonBlank(tes: seq<TextElement>, k: int) {
    0 <= k < |tes| && !Blank(tes[k]) && forall j :: 0 <= j < k ==> Blank(tes[j])
  }

  /**
   * A non-empty title is the stripped text of the first non-blank run of
   * the slide's first `TITLE` placeholder, and has no surrounding whitespace.
   */
  lemma TitleSource(es: seq<PageElement>)
    ensures TitleOf(es) != "" ==>
      exists i, k :: IsFirstTitle(es, i) && IsFirstNonBlank(TextElementsOf(es[i]), k)
        && TitleOf(es) == Strip(RunContent(TextElementsOf(es[i])[k]))
    ensures TitleOf(es) != "" ==> !IsWhitespace(TitleOf(es)[0]) && !IsWhitespace(TitleOf(es)[|TitleOf(es)| - 1])
  {
    FirstTitleSpec(es);
    var f := FirstTitle(es);
    if f.Some? {
      var i := f.value;
      var tes := TextElementsOf(es[i]);
      FirstNonBlankIndexSpec(tes);
      var g := FirstNonBlankIndex(tes);
      if g.Some? {
        assert IsFirstTitle(es, i) && IsFirstNonBlank(tes, g.value);
      }
    }
  }

  /**
   * The title is empty exactly when the slide has no `TITLE` placeholder or
   * its first one is blank throughout, whatever later ones hold.
   */
  lemma TitleEmpty(es: seq<PageElement>)
    ensures TitleOf(es) == "" <==>
      (forall j :: 0 <= j < |es| ==> !IsTitlePlaceholder(es[j]))
      || exists i :: IsFirstTitle(es, i) && forall k :: 0 <= k < |TextElementsOf(es[i])| ==> Blank(TextElementsOf(es[i])[k])
  {
    FirstTitleSpec(es);
    var f := FirstTitle(es);
    if f.Some? {
      var i := f.value;
      var tes := TextElementsOf(es[i]);
      FirstNonBlankIndexSpec(tes);
      assert IsFirstTitle(es, i);
      forall i' | IsFirstTitle(es, i')
        ensures i' == i
      {
      }
      var g := FirstNonBlankIndex(tes);
      if g.Some? {
        var k := g.value;
        assert !Blank(tes[k]);
        assert Strip(RunContent(tes[k])) != "";
      }
    }
  }

  /** The listing of one slide. */
  function ListingOf(slide: Page, i: nat): SlideListing {
    SlideListing(SlideId(slide), i, TitleOf(slide.pageElements), |slide.pageElements|)
  }

  /** The innermost loop: the first non-blank run of the title placeholder. */
  method FirstNonBlankRun(tes: seq<TextElement>) returns (title: string)
    ensures title == FirstNonBlank(tes)
  {
    title := "";
    var k := 0;
    while k < |tes|
      invariant 0 <= k <= |tes|
      invariant forall j :: 0 <= j < k ==> Blank(tes[j])
    {
      var content := RunContent(tes[k]);
      if Strip(content) != "" {
        title := Strip(content);
        FirstNonBlankAt(tes, k);
        return;
      }
      k := k + 1;
    }
  }

  /** The first non-blank run decides. */
  lemma {:induction false} FirstNonBlankAt(tes: seq<TextElement>, k: nat)
    requires k < |tes| && !Blank(tes[k])
    requires forall j :: 0 <= j < k ==> Blank(tes[j])
    ensures FirstNonBlankIndex(tes) == Some(k)
    decreases k
  {
    if k > 0 {
      FirstNonBlankAt(tes[1..], k - 1);
    }
  }

  /** The element loop of `list_slides`: the first `TITLE` placeholder ends it. */
  method SlideTitle(es: seq<PageElement>) returns (title: string)
    ensures title == TitleOf(es)
  {
    title := "";
    var i := 0;
    while i < |es|
      invariant 0 <= i <= |es|
      invariant forall j :: 0 <= j < i ==> !IsTitlePlaceholder(es[j])
    {
      if PlaceholderTypeOf(es[i]) == Some("TITLE") {
        assert FirstTitle(es) == Some(i) by {
          FirstTitleAt(es, i);
        }
        title := FirstNonBlankRun(TextElementsOf(es[i]));
        return;
      }
      i := i + 1;
    }
    FirstTitleSpec(es);
  }

  lemma {:induction false} FirstTitleAt(es: seq<PageElement>, i: nat)
    requires i < |es| && IsTitlePlaceholder(es[i])
    requires forall j :: 0 <= j < i ==> !IsTitlePlaceholder(es[j])
    ensures FirstTitle(es) == Some(i)
    decreases i
  {
    if i > 0 {
      FirstTitleAt(es[1..], i - 1);
    }
  }

  /** `list_slides`: one listing appended per slide, in order. */
  method ListSlides(slides: seq<Page>) returns (infos: seq<SlideListing>)
    ensures |infos| == |slides|
    ensures forall i :: 0 <= i < |slides| ==> infos[i] == ListingOf(slides[i], i)
  {
    infos := [];
    var i := 0;
    while i < |slides|
      invariant 0 <= i <= |slides|
      invariant |infos| == i
      invariant forall k :: 0 <= k < i ==> infos[k] == ListingOf(slides[k], k)
    {
      var entry := ListSlide(slides[i], i);
      infos := infos + [entry];
      i := i + 1;
    }
  }

  /** The body of the slide loop: the listing of slide `i`. */
  method ListSlide(slide: Page, i: nat) returns (entry: SlideListing)
    ensures entry == ListingOf(slide, i)
  {
    var title := SlideTitle(slide.pageElements);
    entry := SlideListing(SlideId(slide), i, title, |slide.pageElements|);
  }

  // ---------------------------------------------------------------------
  // get_element_info
  // ---------------------------------------------------------------------

  /** The type-specific part of the summary, one variant per element kind. */
  datatype Details =
    | ShapeDetails(shapeType: string, text: Option<string>, placeholderType: Option<Option<string>>)
    | ImageDetails(imageUrl: string, contentUrl: string)
    | TableDetails(rows: int, columns: int)
    | LineDetails(lineType: string)
    | VideoDetails(videoSource: string, videoUrl: string)
    | ChartDetails(spreadsheetId: string, chartId: Option<int>)   // None: `chartId` absent, reported as ""
    | UnknownDetails
  {
    /** The `type` field. */
    function TypeName(): string {
      match this
      case ShapeDetails(_, _, _) => "SHAPE"
      case ImageDetails(_, _) => "IMAGE"
      case TableDetails(_, _) => "TABLE"
      case LineDetails(_) => "LINE"
      case VideoDetails(_, _) => "VIDEO"
      case ChartDetails(_, _) => "SHEETS_CHART"
      case UnknownDetails => "UNKNOWN"
    }
  }

  datatype ElementInfo = ElementInfo(
    id: string, xInches: real, yInches: real, widthInches: real, heightInches: real, details: Details)

  datatype InfoError =
    | ElementNotFound(id: string)
    | BoundsMissing(error: TransformError)

  /** The shape's text: all runs concatenated, then stripped; absent when that is empty. */
  function ShapeText(tes: seq<TextElement>): Option<string> {
    var t := Strip(ConcatRuns(tes));
    if t != "" then Some(t) else None
  }

  /** The details of an element, by the first kind present in the order shape, image, table, line, video, chart. */
  function DetailsOf(e: PageElement): (d: Details)
    ensures d.ShapeDetails? <==> e.shape.Some?
    ensures d.ImageDetails? <==> e.shape.None? && e.image.Some?
    ensures d.TableDetails? <==> e.shape.None? && e.image.None? && e.table.Some?
  {
    if e.shape.Some? then
      var s := e.shape.value;
      ShapeDetails(s.shapeType.GetOr("UNKNOWN"), ShapeText(s.textElements),
                   if s.placeholder.IsEmpty() then None else Some(s.placeholder.placeholderType))
    else if e.image.Some? then ImageDetails(e.image.value.sourceUrl.GetOr(""), e.image.value.contentUrl.GetOr(""))
    else if e.table.Some? then TableDetails(e.table.value.rows.GetOr(0), e.table.value.columns.GetOr(0))
    else if e.line.Some? then LineDetails(e.line.value.lineType.GetOr("UNKNOWN"))
    else if e.video.Some? then VideoDetails(e.video.value.source.GetOr("UNKNOWN"), e.video.value.url.GetOr(""))
    else if e.sheetsChart.Some? then ChartDetails(e.sheetsChart.value.spreadsheetId.GetOr(""), e.sheetsChart.value.chartId)
    else UnknownDetails
  }

  /** What `get_element_info` reports. */
  function ElementInfoOf(slides: seq<Page>, id: string): (r: Result<ElementInfo, InfoError>)
    ensures r == Err(ElementNotFound(id)) <==> Positioning.FindElement(slides, id).None?
    ensures r.Ok? ==>
      (Positioning.FindElement(slides, id).Some? && r.value.id == id
        && r.value.details == DetailsOf(Positioning.FindElement(slides, id).value))
  {
    match Positioning.FindElement(slides, id)
    case None => Err(ElementNotFound(id))
    case Some(e) =>
      match ExtractElementBounds(e)
      case Err(err) => Err(BoundsMissing(err))
      case Ok(b) => Ok(ElementInfo(id, EmuToInches(b.x), EmuToInches(b.y), EmuToInches(b.width), EmuToInches(b.height),
                                   DetailsOf(e)))
  }

  /**
   * The type follows the precedence shape, image, table, line, video,
   * chart: each type is reported exactly when its key is present and no
   * earlier one is.
   */
  lemma TypePrecedence(e: PageElement)
    ensures var t := DetailsOf(e).TypeName();
      && (t == "SHAPE" <==> e.shape.Some?)
      && (t == "IMAGE" <==> e.shape.None? && e.image.Some?)
      && (t == "TABLE" <==> e.shape.None? && e.image.None? && e.table.Some?)
      && (t == "LINE" <==> e.shape.None? && e.image.None? && e.table.None? && e.line.Some?)
      && (t == "VIDEO" <==> e.shape.None? && e.image.None? && e.table.None? && e.line.None? && e.video.Some?)
      && (t == "SHEETS_CHART" <==> e.shape.None? && e.image.None? && e.table.None? && e.line.None? && e.video.None? && e.sheetsChart.Some?)
      && (t == "UNKNOWN" <==> e.shape.None? && e.image.None? && e.table.None? && e.line.None? && e.video.None? && e.sheetsChart.None?)
  {
  }

  /**
   * A shape's `text` is present exactly when its runs hold a non-blank
   * character, and is then their stripped concatenation;
   * `placeholder_type` is present exactly when the placeholder is not empty.
   */
  lemma ShapeFieldsPresent(e: PageElement)
    requires e.shape.Some?
    ensures var d := DetailsOf(e);
      && d.ShapeDetails?
      && (d.text.Some? <==> exists i :: 0 <= i < |ConcatRuns(e.shape.value.textElements)|
                                   && !IsWhitespace(ConcatRuns(e.shape.value.textElements)[i]))
      && (d.text.Some? ==> d.text.value == Strip(ConcatRuns(e.shape.value.textElements)))
      && (d.placeholderType.Some? <==> !e.shape.value.placeholder.IsEmpty())
  {
  }

  /**
   * The summary fails for an unknown id and for an element without
   * geometry; otherwise it reports the found element's bounds in inches,
   * each converting back to the bounds exactly.
   */
  lemma ElementInfoBounds(slides: seq<Page>, id: string)
    ensures Positioning.FindElement(slides, id).None? ==> ElementInfoOf(slides, id) == Err(ElementNotFound(id))
    ensures Positioning.FindElement(slides, id).Some? ==>
      var e := Positioning.FindElement(slides, id).value;
      && (ElementInfoOf(slides, id).Err? <==> ExtractElementBounds(e).Err?)
      && (ElementInfoOf(slides, id).Ok? ==>
            var info := ElementInfoOf(slides, id).value;
            var b := ExtractElementBounds(e).value;
            && info.id == id && info.details == DetailsOf(e)
            && InchesToEmu(info.xInches) == b.x && InchesToEmu(info.yInches) == b.y
            && InchesToEmu(info.widthInches) == b.width && InchesToEmu(info.heightInches) == b.height)
  {
    var found := Positioning.FindElement(slides, id);
    if found.Some? && ExtractElementBounds(found.value).Ok? {
      var b := ExtractElementBounds(found.value).value;
      FromEmuRoundTrip(b.x, EMU_PER_INCH);
      FromEmuRoundTrip(b.y, EMU_PER_INCH);
      FromEmuRoundTrip(b.width, EMU_PER_INCH);
      FromEmuRoundTrip(b.height, EMU_PER_INCH);
    }
  }

  /**
   * A text box or shape created from inches and read back is reported at
   * those inches to within one EMU.
   */
  lemma CreatedElementReportedSize(slides: seq<Page>, id: string, x: real, y: real, width: real, height: real)
    requires Positioning.FindElement(slides, id).Some?
    requires var e := Positioning.FindElement(slides, id).value;
      e.transform == AsRaw(Placement(InchesToEmu(x), InchesToEmu(y)))
      && e.size == BuildSize(InchesToEmu(width), InchesToEmu(height))
    requires 0.0 <= width && 0.0 <= height
    ensures ElementInfoOf(slides, id).Ok?
    ensures 0.0 <= width - ElementInfoOf(slides, id).value.widthInches < 1.0 / 914400.0
    ensures 0.0 <= height - ElementInfoOf(slides, id).value.heightInches < 1.0 / 914400.0
  {
    Creation.CreatedGeometryReadsBack(Positioning.FindElement(slides, id).value, x, y, width, height);
  }

  /** `text_content += content`, run by run. */
  method CollectText(tes: seq<TextElement>) returns (text: string)
    ensures text == ConcatRuns(tes)
  {
    text := "";
    var k := 0;
    while k < |tes|
      invariant 0 <= k <= |tes|
      invariant text == ConcatRuns(tes[..k])
    {
      assert tes[..k + 1][..k] == tes[..k];
      text := text + RunContent(tes[k]);
      k := k + 1;
    }
    assert tes[..k] == tes;
  }

  /** `get_element_info`: search, bounds, then the fields of the first kind present. */
  method GetElementInfo(slides: seq<Page>, id: string) returns (r: Result<ElementInfo, InfoError>)
    ensures r == ElementInfoOf(slides, id)
  {
    var found := Positioning.LocateElement(slides, id);
    if found.None? {
      return Err(ElementNotFound(id));
    }
    var e := found.value;
    var bounds := ExtractElementBounds(e);
    if bounds.Err? {
      return Err(BoundsMissing(bounds.error));
    }
    var b := bounds.value;
    var details: Details;
    if e.shape.Some? {
      var s := e.shape.value;
      var text := CollectText(s.textElements);
      details := ShapeDetails(s.shapeType.GetOr("UNKNOWN"), None, None);
      if Strip(text) != "" {
        details := details.(text := Some(Strip(text)));
      }
      if !s.placeholder.IsEmpty() {
        details := details.(placeholderType := Some(s.placeholder.placeholderType));
      }
    } else {
      details := DetailsOf(e);
    }
    r := Ok(ElementInfo(id, EmuToInches(b.x), EmuToInches(b.y), EmuToInches(b.width), EmuToInches(b.height), details));
  }
}
