/**
 * The fragment of the Slides API's JSON the tools read, and the batch
 * requests they emit.
 *
 * A JSON object the tools read through a chain of `.get(key, {})` calls is
 * modelled with its missing keys as `None` (or as an empty record, where an
 * absent object and `{}` behave the same way at every use).
 */
module Slides {
  import opened Wrappers
  import opened Strings
  import opened Colors

  /** `{"magnitude": …, "unit": …}`. */
  datatype Dimension = Dimension(magnitude: Option<real>, unit: Option<string>)

  /** A `size` object; an absent `size` key is `Size(None, None)`. */
  datatype Size = Size(width: Option<Dimension>, height: Option<Dimension>) {
    /** Python truthiness of the dict. */
    predicate IsEmpty() {
      width.None? && height.None?
    }

    /** `size.get("width", {}).get("magnitude", 0)`. */
    function WidthMagnitude(): real {
      if width.Some? then width.value.magnitude.GetOr(0.0) else 0.0
    }

    function HeightMagnitude(): real {
      if height.Some? then height.value.magnitude.GetOr(0.0) else 0.0
    }
  }

  /** A `transform` object as read back from the API; an absent key is all `None`. */
  datatype RawTransform = RawTransform(
    scaleX: Option<real>, scaleY: Option<real>,
    shearX: Option<real>, shearY: Option<real>,
    translateX: Option<real>, translateY: Option<real>,
    unit: Option<string>)
  {
    predicate IsEmpty() {
      scaleX.None? && scaleY.None? && shearX.None? && shearY.None?
        && translateX.None? && translateY.None? && unit.None?
    }
  }

  /** An `rgbColor` object as read back: the API leaves out zero channels. */
  datatype RgbColor = RgbColor(red: Option<real>, green: Option<real>, blue: Option<real>) {
    predicate IsEmpty() {
      red.None? && green.None? && blue.None?
    }
  }

  /** An `opaqueColor` (or a solid fill's `color`): an `rgbColor`, a `themeColor`, or neither. */
  datatype ColorData = ColorData(rgbColor: RgbColor, themeColor: Option<string>)

  const NoColor: ColorData := ColorData(RgbColor(None, None, None), None)

  /**
   * A text run's `style`. `fontSize` is the `magnitude` of its `fontSize`
   * object; `foregroundColor` is its `opaqueColor` (`NoColor` when absent).
   */
  datatype TextStyle = TextStyle(fontFamily: Option<string>, fontSize: Option<real>, foregroundColor: ColorData)

  datatype TextRun = TextRun(content: Option<string>, style: TextStyle)

  /** One entry of `text.textElements`; paragraph markers and auto-text have no run. */
  datatype TextElement = TextElement(textRun: Option<TextRun>)

  /** A `placeholder` object; an absent key is all `None`. */
  datatype Placeholder = Placeholder(placeholderType: Option<string>, index: Option<int>, parentObjectId: Option<string>) {
    predicate IsEmpty() {
      placeholderType.None? && index.None? && parentObjectId.None?
    }
  }

  const NoPlaceholder: Placeholder := Placeholder(None, None, None)

  /**
   * A `shape`: its placeholder, the `textElements` of its text, and the
   * `color` of `shapeProperties.shapeBackgroundFill.solidFill` when that
   * solid fill is present.
   */
  datatype Shape = Shape(
    shapeType: Option<string>,
    placeholder: Placeholder,
    textElements: seq<TextElement>,
    solidFill: Option<ColorData>)

  datatype Image = Image(sourceUrl: Option<string>, contentUrl: Option<string>)
  datatype Table = Table(rows: Option<int>, columns: Option<int>)
  datatype Line = Line(lineType: Option<string>)
  datatype Video = Video(source: Option<string>, url: Option<string>)
  datatype SheetsChart = SheetsChart(spreadsheetId: Option<string>, chartId: Option<int>)

  /** A `pageElement`: a key that is present is `Some`. */
  datatype PageElement = PageElement(
    objectId: Option<string>,
    transform: RawTransform,
    size: Size,
    shape: Option<Shape>,
    image: Option<Image>,
    table: Option<Table>,
    line: Option<Line>,
    video: Option<Video>,
    sheetsChart: Option<SheetsChart>)

  /** A slide; `background` is the colour of `pageProperties.pageBackgroundFill.solidFill`. */
  datatype Page = Page(objectId: Option<string>, pageElements: seq<PageElement>, background: Option<ColorData>)

  /** A layout; `name` is `layoutProperties.name`. */
  datatype Layout = Layout(objectId: Option<string>, name: Option<string>)

  datatype Presentation = Presentation(slides: seq<Page>, layouts: seq<Layout>, pageSize: Size)

  /** `slide.get("objectId", "")`. */
  function SlideId(slide: Page): string {
    slide.objectId.GetOr("")
  }

  /** `te.get("textRun", {}).get("content", "")`. */
  function RunContent(te: TextElement): string {
    if te.textRun.Some? then te.textRun.value.content.GetOr("") else ""
  }

  /** `"".join(run contents)`: every run's content, in document order. */
  function ConcatRuns(tes: seq<TextElement>): (s: string)
    ensures |tes| == 0 ==> s == ""
  {
    if |tes| == 0 then "" else ConcatRuns(tes[..|tes| - 1]) + RunContent(tes[|tes| - 1])
  }

  /** `element.get("shape", {}).get("text", {}).get("textElements", [])`. */
  function TextElementsOf(e: PageElement): seq<TextElement> {
    if e.shape.Some? then e.shape.value.textElements else []
  }

  /** `element.get("shape", {}).get("placeholder", {})`. */
  function PlaceholderOf(e: PageElement): Placeholder {
    if e.shape.Some? then e.shape.value.placeholder else NoPlaceholder
  }

  /** `… .get("placeholder", {}).get("type")`. */
  function PlaceholderTypeOf(e: PageElement): Option<string> {
    PlaceholderOf(e).placeholderType
  }

  /** The element's `objectId` is exactly `id`. */
  predicate HasId(e: PageElement, id: string) {
    e.objectId == Some(id)
  }

  // ---------------------------------------------------------------------
  // Requests
  // ---------------------------------------------------------------------

  /** An emitted transform; its `unit` is always `"EMU"`. */
  datatype AffineTransform = AffineTransform(
    scaleX: real, scaleY: real, shearX: real, shearY: real, translateX: int, translateY: int)

  /** The style of an `updateTextStyle` request: only the fields that are set. */
  datatype TextStyleUpdate = TextStyleUpdate(
    fontSize: Option<int>,          // {"magnitude": n, "unit": "PT"}
    bold: Option<bool>,
    italic: Option<bool>,
    fontFamily: Option<string>,
    foregroundColor: Option<Rgb>)   // {"opaqueColor": {"rgbColor": …}}

  datatype LayoutReference = PredefinedLayout(name: string) | LayoutId(id: string)

  /** An outline: its colour and its weight in points. */
  datatype Outline = Outline(color: Rgb, weightPt: real)

  /**
   * The batch requests the tools emit. Text ranges are always `{"type": "ALL"}`
   * and transforms are always applied with `applyMode: "ABSOLUTE"`.
   */
  datatype Request =
    | UpdatePageElementTransform(elementId: string, transform: AffineTransform)
    | DeleteAllText(objectId: Option<string>)
    | InsertText(objectId: Option<string>, text: string, textIndex: int)
    | UpdateTextStyle(objectId: Option<string>, style: TextStyleUpdate, fields: string)
    | UpdateParagraphStyle(objectId: Option<string>, alignment: string, fields: string)
    | ReplaceAllText(containsText: string, matchCase: bool, replaceText: string)
    | ReplaceAllShapesWithImage(imageUrl: string, replaceMethod: string, containsText: string, matchCase: bool)
    | CreateSlide(slideObjectId: string, layout: LayoutReference, slideIndex: Option<int>)
    | CreateShape(shapeObjectId: string, shapeType: string, pageObjectId: string,
                  width: int, height: int, placement: AffineTransform)
    | CreateImage(imageObjectId: string, url: string, pageObjectId: string,
                  width: int, height: int, placement: AffineTransform)
    | UpdateShapeProperties(shapeObjectId: string, fill: Option<Rgb>, outline: Option<Outline>, fields: string)

  /** A transform that only places: unit scale, no shear. */
  function Placement(x: int, y: int): AffineTransform {
    AffineTransform(1.0, 1.0, 0.0, 0.0, x, y)
  }
}
