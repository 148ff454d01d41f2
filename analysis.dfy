/**
 * The per-slide aggregation loop of `analyze_presentation`: slide
 * summaries and their categories, placeholder texts, the font-size tally,
 * and the colour and font registries (`colors_found`, `fonts_found`) that
 * `_extract_color` and the loop update in place.
 */
module Analysis {
  import opened Wrappers
  import opened Strings
  import opened Units
  import opened Colors
  import opened Slides
  import opened SlideCategories

  // ---------------------------------------------------------------------
  // Usage registries
  // ---------------------------------------------------------------------

  /** A registry's value: keys in insertion order and each key's contexts in insertion order. */
  datatype Usage = Usage(keys: seq<string>, contexts: map<string, seq<string>>)

  predicate Distinct(s: seq<string>) {
    forall i, j :: 0 <= i < j < |s| ==> s[i] != s[j]
  }

  /** Keys listed once, exactly the keys with contexts, and no context twice under a key. */
  ghost predicate UsageValid(u: Usage) {
    && Distinct(u.keys)
    && (forall k :: k in u.contexts <==> k in u.keys)
    && (forall k :: k in u.contexts ==> Distinct(u.contexts[k]))
  }

  /** Record `context` under `key`: add the key if new, then the context if new. */
  function Recorded(u: Usage, key: string, context: string): Usage {
    var listed := Listed(u, key);
    if context in listed.contexts[key] then listed
    else listed.(contexts := listed.contexts[key := listed.contexts[key] + [context]])
  }

  /** The registry with `key` added, with no contexts, when it is new. */
  function Listed(u: Usage, key: string): (l: Usage)
    ensures key in l.contexts
  {
    if key in u.contexts then u else Usage(u.keys + [key], u.contexts[key := []])
  }

  /**
   * Recording keeps the registry well formed, files the context under the
   * key exactly once, appends a new key at the end, and touches no other key.
   */
  lemma RecordedMeaning(u: Usage, key: string, context: string)
    requires UsageValid(u)
    ensures var r := Recorded(u, key, context);
      && UsageValid(r)
      && key in r.contexts && context in r.contexts[key]
      && r.keys == (if key in u.contexts then u.keys else u.keys + [key])
      && r.contexts[key] == (
           if key !in u.contexts then [context]
           else if context in u.contexts[key] then u.contexts[key]
           else u.contexts[key] + [context])
      && (forall k :: k != key ==> (k in r.contexts <==> k in u.contexts))
      && (forall k :: k != key && k in u.contexts ==> r.contexts[k] == u.contexts[k])
  {
    var l := Listed(u, key);
    ListedMeaning(u, key);
    FiledMeaning(l, key, context);
  }

  /** Listing a key keeps the registry well formed and touches no other key. */
  lemma ListedMeaning(u: Usage, key: string)
    requires UsageValid(u)
    ensures var l := Listed(u, key);
      && UsageValid(l)
      && l.keys == (if key in u.contexts then u.keys else u.keys + [key])
      && l.contexts[key] == (if key in u.contexts then u.contexts[key] else [])
      && (forall k :: k != key ==> (k in l.contexts <==> k in u.contexts))
      && (forall k :: k != key && k in u.contexts ==> l.contexts[k] == u.contexts[k])
  {
    if key !in u.contexts {
      var l := Listed(u, key);
      assert forall i :: 0 <= i < |u.keys| ==> u.keys[i] in u.contexts;
      assert Distinct(l.keys);
    }
  }

  /** Filing a context under a listed key, unless it is there already. */
  lemma FiledMeaning(l: Usage, key: string, context: string)
    requires UsageValid(l) && key in l.contexts
    ensures var r := if context in l.contexts[key] then l else l.(contexts := l.contexts[key := l.contexts[key] + [context]]);
      && UsageValid(r)
      && r.keys == l.keys && key in r.contexts && context in r.contexts[key]
      && r.contexts[key] == (if context in l.contexts[key] then l.contexts[key] else l.contexts[key] + [context])
      && (forall k :: k != key ==> (k in r.contexts <==> k in l.contexts))
      && (forall k :: k != key && k in l.contexts ==> r.contexts[k] == l.contexts[k])
  {
    if context !in l.contexts[key] {
      var cs := l.contexts[key] + [context];
      assert forall i :: 0 <= i < |l.contexts[key]| ==> l.contexts[key][i] != context;
      assert Distinct(cs);
    }
  }

  /** Recording the same context twice is the same as recording it once. */
  lemma RecordedIdempotent(u: Usage, key: string, context: string)
    ensures Recorded(Recorded(u, key, context), key, context) == Recorded(u, key, context)
  {
  }

  /** A dict from keys to context lists, updated in place. */
  class UsageRegistry {
    var keys: seq<string>
    var contexts: map<string, seq<string>>

    constructor ()
      ensures keys == [] && contexts == map[]
    {
      keys := [];
      contexts := map[];
    }

    function Value(): Usage
      reads this
    {
      Usage(keys, contexts)
    }

    /** `if key not in d: d[key] = []` then `if context not in d[key]: d[key].append(context)`. */
    method Record(key: string, context: string)
      modifies this
      ensures Value() == Recorded(old(Value()), key, context)
    {
      if key !in contexts {
        keys := keys + [key];
        contexts := contexts[key := []];
      }
      if context !in contexts[key] {
        contexts := contexts[key := contexts[key] + [context]];
      }
    }
  }

  // ---------------------------------------------------------------------
  // Colour keys
  // ---------------------------------------------------------------------

  /** `int(rgb.get(channel, 0) * 255)`. */
  function Channel255(x: Option<real>): int {
    Trunc(x.GetOr(0.0) * 255.0)
  }

  /** `f"#{r:02x}{g:02x}{b:02x}"`. */
  function RgbKey(rgb: RgbColor): string {
    LowerKey(Channel255(rgb.red), Channel255(rgb.green), Channel255(rgb.blue))
  }

  function LowerKey(r8: int, g8: int, b8: int): string {
    "#" + Hex02(r8, false) + Hex02(g8, false) + Hex02(b8, false)
  }

  /** The key `_extract_color` files a colour under, if any. */
  function ColorKey(c: ColorData): (k: Option<string>)
    ensures c.themeColor.Some? && c.themeColor.value != "" ==> k == Some("theme:" + c.themeColor.value)
    ensures k.None? <==> (c.themeColor.None? || c.themeColor.value == "") && c.rgbColor.IsEmpty()
  {
    if c.themeColor.Some? && c.themeColor.value != "" then Some("theme:" + c.themeColor.value)
    else if !c.rgbColor.IsEmpty() then Some(RgbKey(c.rgbColor))
    else None
  }

  predicate UnitChannel(x: Option<real>) {
    x.None? || InUnitRange(x.value)
  }

  /** A channel in [0, 1] scales to a byte. */
  lemma Channel255Byte(x: Option<real>)
    requires UnitChannel(x)
    ensures 0 <= Channel255(x) < 256
  {
    assert x.GetOr(0.0) * 255.0 <= 255.0;
  }

  /** The byte of a channel in [0, 1], over 255, is at most one step of 1/255 below it. */
  lemma Channel255Loss(x: Option<real>)
    requires UnitChannel(x)
    ensures 0.0 <= x.GetOr(0.0) - Channel255(x) as real / 255.0 < 1.0 / 255.0
  {
    var v := x.GetOr(0.0);
    var n := Channel255(x);
    assert n as real <= v * 255.0 < n as real + 1.0;
  }

  /**
   * An rgb key of channels in [0, 1] is `#` and six lower-case digits, and
   * `hex_to_rgb` reads it back as each channel truncated to a multiple of
   * 1/255 (`Channel255Loss` bounds the loss).
   */
  lemma RgbKeyParses(rgb: RgbColor)
    requires UnitChannel(rgb.red) && UnitChannel(rgb.green) && UnitChannel(rgb.blue)
    ensures |RgbKey(rgb)| == 7
    ensures HexToRgb(RgbKey(rgb)) == Ok(TruncatedRgb(rgb))
  {
    var r8, g8, b8 := Channel255(rgb.red), Channel255(rgb.green), Channel255(rgb.blue);
    assert 0 <= r8 < 256 && 0 <= g8 < 256 && 0 <= b8 < 256 by {
      Channel255Byte(rgb.red);
      Channel255Byte(rgb.green);
      Channel255Byte(rgb.blue);
    }
    LowerKeyParses(r8, g8, b8);
  }

  /** The colour an rgb key stands for: each channel truncated to a multiple of 1/255. */
  function TruncatedRgb(rgb: RgbColor): Rgb {
    ByteRgb(Channel255(rgb.red), Channel255(rgb.green), Channel255(rgb.blue))
  }

  function ByteRgb(r8: int, g8: int, b8: int): Rgb {
    Rgb(r8 as real / 255.0, g8 as real / 255.0, b8 as real / 255.0)
  }

  /** `#` and three lower-case byte pairs parse back as those bytes over 255. */
  lemma LowerKeyParses(r8: int, g8: int, b8: int)
    requires 0 <= r8 < 256 && 0 <= g8 < 256 && 0 <= b8 < 256
    ensures |LowerKey(r8, g8, b8)| == 7
    ensures HexToRgb(LowerKey(r8, g8, b8)) == Ok(ByteRgb(r8, g8, b8))
  {
    var body := Hex02(r8, false) + Hex02(g8, false) + Hex02(b8, false);
    LowerPairs(r8, g8, b8);
    assert LowerKey(r8, g8, b8) == "#" + body;
    assert BodyRgb(body) == Rgb(r8 as real / 255.0, g8 as real / 255.0, b8 as real / 255.0);
    ParseBody(body);
  }

  /** Each two-digit group of a lower-case triple reads back as its byte. */
  lemma LowerPairs(r8: int, g8: int, b8: int)
    requires 0 <= r8 < 256 && 0 <= g8 < 256 && 0 <= b8 < 256
    ensures var body := Hex02(r8, false) + Hex02(g8, false) + Hex02(b8, false);
      && IsValidBody(body)
      && PairValue(body, 0) == r8 && PairValue(body, 2) == g8 && PairValue(body, 4) == b8
  {
    Hex02Byte(r8, false);
    Hex02Byte(g8, false);
    Hex02Byte(b8, false);
    DigitValueRoundTrip(r8 / 16, false);
    DigitValueRoundTrip(r8 % 16, false);
    DigitValueRoundTrip(g8 / 16, false);
    DigitValueRoundTrip(g8 % 16, false);
    DigitValueRoundTrip(b8 / 16, false);
    DigitValueRoundTrip(b8 % 16, false);
  }

  /** What `_extract_color` does to the registry's value. */
  function RecordColor(u: Usage, c: ColorData, context: string): Usage {
    match ColorKey(c)
    case None => u
    case Some(key) => Recorded(u, key, context)
  }

  /** A theme colour wins over an rgb colour given beside it. */
  lemma ThemeColorWins(u: Usage, rgb: RgbColor, theme: string, context: string)
    requires theme != ""
    ensures RecordColor(u, ColorData(rgb, Some(theme)), context) == Recorded(u, "theme:" + theme, context)
  {
  }

  /** `_extract_color`. */
  method ExtractColor(c: ColorData, context: string, colors: UsageRegistry)
    modifies colors
    ensures colors.Value() == RecordColor(old(colors.Value()), c, context)
  {
    var key := ColorKey(c);
    if key.Some? {
      colors.Record(key.value, context);
    }
  }

  // ---------------------------------------------------------------------
  // The per-slide scan, as a specification
  // ---------------------------------------------------------------------

  /** One entry of `placeholder_texts`. */
  datatype PlaceholderText = PlaceholderText(placeholderType: string, text: string, slideIndex: nat)

  /** The analysis state while one slide is scanned: the shared tallies and the slide's summary. */
  datatype Scan = Scan(colors: Usage, fonts: Usage, fontSizes: map<real, nat>, texts: seq<PlaceholderText>, info: SlideInfo)

  /** `i + 1` as printed in the context strings. */
  function SlideNumber(i: nat): string {
    NatToString(i + 1)
  }

  function RunStyle(te: TextElement): TextStyle {
    if te.textRun.Some? then te.textRun.value.style else TextStyle(None, None, NoColor)
  }

  /** `font_sizes[size] = font_sizes.get(size, 0) + 1`. */
  function Counted(sizes: map<real, nat>, size: real): map<real, nat> {
    sizes[size := (if size in sizes then sizes[size] else 0) + 1]
  }

  /** The summary after a non-empty run of a placeholder of this type. */
  function NotedText(info: SlideInfo, placeholderType: Option<string>, content: string): SlideInfo {
    if placeholderType == Some("TITLE") then info.(title := content)
    else if placeholderType == Some("SUBTITLE") then info.(subtitle := content)
    else info
  }

  /** The placeholder part of a non-empty run: heading and `placeholder_texts`. */
  function TextNoted(s: Scan, placeholderType: Option<string>, content: string): Scan {
    if placeholderType.Some? && placeholderType.value != "" then
      s.(texts := s.texts + [PlaceholderText(placeholderType.value, Take(content, 100), s.info.index)],
         info := NotedText(s.info, placeholderType, content))
    else s
  }

  /** The style part of a non-empty run on slide `i`: font, size and text colour. */
  function StyleNoted(s: Scan, style: TextStyle, i: nat): Scan {
    s.(fonts := if style.fontFamily.Some? && style.fontFamily.value != "" then Recorded(s.fonts, style.fontFamily.value, "Slide " + SlideNumber(i)) else s.fonts,
       fontSizes := if style.fontSize.Some? && style.fontSize.value != 0.0 then Counted(s.fontSizes, style.fontSize.value) else s.fontSizes,
       colors := RecordColor(s.colors, style.foregroundColor, "Text on slide " + SlideNumber(i)))
  }

  /** One text element of a shape whose placeholder type is `placeholderType`. */
  function RunStep(s: Scan, placeholderType: Option<string>, te: TextElement): Scan {
    var content := Strip(RunContent(te));
    if content == "" then s
    else StyleNoted(TextNoted(s, placeholderType, content), RunStyle(te), s.info.index)
  }

  function RunsScan(s: Scan, placeholderType: Option<string>, tes: seq<TextElement>): Scan {
    if |tes| == 0 then s else RunStep(RunsScan(s, placeholderType, tes[..|tes| - 1]), placeholderType, tes[|tes| - 1])
  }

  /** The scan of one more text element is one more step. */
  lemma RunsScanExtends(s: Scan, placeholderType: Option<string>, tes: seq<TextElement>, k: nat)
    requires k < |tes|
    ensures RunsScan(s, placeholderType, tes[..k + 1]) == RunStep(RunsScan(s, placeholderType, tes[..k]), placeholderType, tes[k])
  {
    assert tes[..k + 1][..k] == tes[..k];
  }

  /** The shape part of one element: placeholder type, runs, then the shape's fill. */
  function ShapeScan(s: Scan, shape: Shape): Scan {
    var placeholderType := shape.placeholder.placeholderType;
    var s1 := if placeholderType.Some? && placeholderType.value != ""
      then s.(info := s.info.(placeholderTypes := s.info.placeholderTypes + [placeholderType.value])) else s;
    var s2 := RunsScan(s1, placeholderType, shape.textElements);
    if shape.solidFill.Some? then s2.(colors := RecordColor(s2.colors, shape.solidFill.value, "Shape fill on slide " + SlideNumber(s.info.index)))
    else s2
  }

  /** The `if image / elif sheetsChart / elif table` flags of one element. */
  function Flagged(info: SlideInfo, e: PageElement): SlideInfo {
    if e.image.Some? then info.(hasImage := true)
    else if e.sheetsChart.Some? then info.(hasChart := true)
    else if e.table.Some? then info.(hasTable := true)
    else info
  }

  /** One element; the slide's background is read again at every element. */
  function ElementStep(s: Scan, background: Option<ColorData>, e: PageElement): Scan {
    var s1 := s.(info := Flagged(s.info, e));
    var s2 := if e.shape.Some? then ShapeScan(s1, e.shape.value) else s1;
    if background.Some? then s2.(colors := RecordColor(s2.colors, background.value, "Background on slide " + SlideNumber(s.info.index)))
    else s2
  }

  function ElementsScan(s: Scan, background: Option<ColorData>, es: seq<PageElement>): Scan {
    if |es| == 0 then s else ElementStep(ElementsScan(s, background, es[..|es| - 1]), background, es[|es| - 1])
  }

  /** The summary a slide starts with. */
  function FreshInfo(slide: Page, i: nat): SlideInfo {
    SlideInfo(SlideId(slide), i, |slide.pageElements|, "", "", false, false, false, [])
  }

  /** The scan of slide `i`, starting from the tallies of the slides before it. */
  function SlideScan(colors: Usage, fonts: Usage, sizes: map<real, nat>, texts: seq<PlaceholderText>, slide: Page, i: nat): Scan {
    ElementsScan(Scan(colors, fonts, sizes, texts, FreshInfo(slide, i)), slide.background, slide.pageElements)
  }


  /** One entry of `slide_categories[category]`. */
  datatype CategoryEntry = CategoryEntry(index: nat, slideId: string, title: string)

  /** Everything the aggregation loop leaves behind. */
  datatype Aggregate = Aggregate(
    colors: Usage, fonts: Usage, fontSizes: map<real, nat>, texts: seq<PlaceholderText>,
    slidesInfo: seq<SlideInfo>, categories: map<Category, seq<CategoryEntry>>)

  /** `slide_categories` as initialised: every category with an empty list. */
  function NoEntries(): map<Category, seq<CategoryEntry>> {
    map c: Category | c in AllCategories :: []
  }

  function EmptyUsage(): Usage {
    Usage([], map[])
  }

  function InitialAggregate(): Aggregate {
    Aggregate(EmptyUsage(), EmptyUsage(), map[], [], [], NoEntries())
  }

  function EntryOf(info: SlideInfo): CategoryEntry {
    CategoryEntry(info.index, info.slideId, info.title)
  }

  /** Slide `i`: scan it, categorise its summary, file it. */
  function SlideStep(a: Aggregate, slide: Page, i: nat): Aggregate {
    var s := SlideScan(a.colors, a.fonts, a.fontSizes, a.texts, slide, i);
    var c := Categorize(s.info);
    var filed := if c in a.categories then a.categories[c] else [];
    Aggregate(s.colors, s.fonts, s.fontSizes, s.texts, a.slidesInfo + [s.info], a.categories[c := filed + [EntryOf(s.info)]])
  }

  /** The aggregation loop over `slides`. */
  function Aggregated(slides: seq<Page>): Aggregate {
    if |slides| == 0 then InitialAggregate()
    else SlideStep(Aggregated(slides[..|slides| - 1]), slides[|slides| - 1], |slides| - 1)
  }

  /** The entries of the summaries that fall in category `c`, in slide order. */
  function EntriesIn(infos: seq<SlideInfo>, c: Category): (r: seq<CategoryEntry>)
    ensures |r| <= |infos|
  {
    if |infos| == 0 then []
    else EntriesIn(infos[..|infos| - 1], c) + (if Categorize(infos[|infos| - 1]) == c then [EntryOf(infos[|infos| - 1])] else [])
  }

  /** Every summary is in exactly one category's list. */
  lemma {:induction false} EntriesPartition(infos: seq<SlideInfo>)
    ensures |EntriesIn(infos, Cover)| + |EntriesIn(infos, SectionDivider)| + |EntriesIn(infos, Content)|
      + |EntriesIn(infos, ImageFocused)| + |EntriesIn(infos, DataVisualization)| + |EntriesIn(infos, Mockup)|
      + |EntriesIn(infos, Infographic)| + |EntriesIn(infos, Other)| == |infos|
  {
    if |infos| > 0 {
      EntriesPartition(infos[..|infos| - 1]);
    }
  }

  // ---------------------------------------------------------------------
  // Properties of the scan
  // ---------------------------------------------------------------------

  /** The `if / elif / elif` chain raises at most one flag per element. */
  lemma FlaggedExclusive(info: SlideInfo, e: PageElement)
    ensures var r := Flagged(info, e);
      && (r.hasImage != info.hasImage ==> e.image.Some?)
      && (r.hasChart != info.hasChart ==> e.image.None? && e.sheetsChart.Some?)
      && (r.hasTable != info.hasTable ==> e.image.None? && e.sheetsChart.None? && e.table.Some?)
      && (e.image.Some? ==> r.hasImage)
      && r.(hasImage := info.hasImage, hasChart := info.hasChart, hasTable := info.hasTable) == info
  {
  }

  /** An image and a table in one element: only the image is seen. */
  lemma ImageHidesTable(info: SlideInfo, e: PageElement)
    requires e.image.Some? && e.table.Some? && !info.hasTable
    ensures !Flagged(info, e).hasTable && Flagged(info, e).hasImage
  {
  }

  /** `context` is filed under `key`. */
  predicate Filed(u: Usage, key: string, context: string) {
    key in u.contexts && context in u.contexts[key]
  }

  lemma RecordedKeepsFiled(u: Usage, key: string, context: string, k: string, ctx: string)
    requires Filed(u, k, ctx)
    ensures Filed(Recorded(u, key, context), k, ctx)
  {
  }

  lemma RecordColorKeepsFiled(u: Usage, c: ColorData, context: string, k: string, ctx: string)
    requires Filed(u, k, ctx)
    ensures Filed(RecordColor(u, c, context), k, ctx)
  {
    if ColorKey(c).Some? {
      RecordedKeepsFiled(u, ColorKey(c).value, context, k, ctx);
    }
  }

  lemma {:induction false} RunsKeepFiled(s: Scan, placeholderType: Option<string>, tes: seq<TextElement>, k: string, ctx: string)
    requires Filed(s.colors, k, ctx)
    ensures Filed(RunsScan(s, placeholderType, tes).colors, k, ctx)
  {
    if |tes| > 0 {
      var before := RunsScan(s, placeholderType, tes[..|tes| - 1]);
      RunsKeepFiled(s, placeholderType, tes[..|tes| - 1], k, ctx);
      RecordColorKeepsFiled(before.colors, RunStyle(tes[|tes| - 1]).foregroundColor,
        "Text on slide " + SlideNumber(before.info.index), k, ctx);
    }
  }

  lemma ShapeKeepsFiled(s: Scan, shape: Shape, k: string, ctx: string)
    requires Filed(s.colors, k, ctx)
    ensures Filed(ShapeScan(s, shape).colors, k, ctx)
  {
    var placeholderType := shape.placeholder.placeholderType;
    var s1 := if placeholderType.Some? && placeholderType.value != ""
      then s.(info := s.info.(placeholderTypes := s.info.placeholderTypes + [placeholderType.value])) else s;
    RunsKeepFiled(s1, placeholderType, shape.textElements, k, ctx);
    var s2 := RunsScan(s1, placeholderType, shape.textElements);
    if shape.solidFill.Some? {
      RecordColorKeepsFiled(s2.colors, shape.solidFill.value, "Shape fill on slide " + SlideNumber(s.info.index), k, ctx);
    }
  }

  lemma ElementKeepsFiled(s: Scan, background: Option<ColorData>, e: PageElement, k: string, ctx: string)
    requires Filed(s.colors, k, ctx)
    ensures Filed(ElementStep(s, background, e).colors, k, ctx)
  {
    var s1 := s.(info := Flagged(s.info, e));
    if e.shape.Some? {
      ShapeKeepsFiled(s1, e.shape.value, k, ctx);
    }
    var s2 := if e.shape.Some? then ShapeScan(s1, e.shape.value) else s1;
    if background.Some? {
      RecordColorKeepsFiled(s2.colors, background.value, "Background on slide " + SlideNumber(s.info.index), k, ctx);
    }
  }

  /** The summary still describes the same slide. */
  predicate SameSlide(a: SlideInfo, b: SlideInfo) {
    a.index == b.index && a.slideId == b.slideId && a.elementCount == b.elementCount
  }

  lemma {:induction false} RunsKeepSlide(s: Scan, placeholderType: Option<string>, tes: seq<TextElement>)
    ensures SameSlide(RunsScan(s, placeholderType, tes).info, s.info)
  {
    if |tes| > 0 {
      RunsKeepSlide(s, placeholderType, tes[..|tes| - 1]);
      RunStepKeepsSlide(RunsScan(s, placeholderType, tes[..|tes| - 1]), placeholderType, tes[|tes| - 1]);
    }
  }

  lemma RunStepKeepsSlide(s: Scan, placeholderType: Option<string>, te: TextElement)
    ensures SameSlide(RunStep(s, placeholderType, te).info, s.info)
  {
    var content := Strip(RunContent(te));
    if content != "" {
      var t := TextNoted(s, placeholderType, content);
      TextNotedKeepsSlide(s, placeholderType, content);
      StyleNotedKeepsInfo(t, RunStyle(te), s.info.index);
      assert RunStep(s, placeholderType, te) == StyleNoted(t, RunStyle(te), s.info.index);
    } else {
      assert RunStep(s, placeholderType, te) == s;
    }
  }

  lemma TextNotedKeepsSlide(s: Scan, placeholderType: Option<string>, content: string)
    ensures SameSlide(TextNoted(s, placeholderType, content).info, s.info)
  {
  }

  lemma StyleNotedKeepsInfo(s: Scan, style: TextStyle, i: nat)
    ensures StyleNoted(s, style, i).info == s.info
    ensures StyleNoted(s, style, i).texts == s.texts
  {
  }

  lemma {:induction false} ElementsKeepSlide(s: Scan, background: Option<ColorData>, es: seq<PageElement>)
    ensures SameSlide(ElementsScan(s, background, es).info, s.info)
  {
    if |es| > 0 {
      ElementsKeepSlide(s, background, es[..|es| - 1]);
      ElementStepKeepsSlide(ElementsScan(s, background, es[..|es| - 1]), background, es[|es| - 1]);
    }
  }

  lemma ElementStepKeepsSlide(s: Scan, background: Option<ColorData>, e: PageElement)
    ensures SameSlide(ElementStep(s, background, e).info, s.info)
  {
    var s1 := s.(info := Flagged(s.info, e));
    assert SameSlide(s1.info, s.info);
    var s2 := if e.shape.Some? then ShapeScan(s1, e.shape.value) else s1;
    if e.shape.Some? {
      ShapeKeepsSlide(s1, e.shape.value);
    }
    assert SameSlide(s2.info, s.info);
    assert ElementStep(s, background, e).info == s2.info;
  }

  lemma ShapeKeepsSlide(s: Scan, shape: Shape)
    ensures SameSlide(ShapeScan(s, shape).info, s.info)
  {
    var placeholderType := shape.placeholder.placeholderType;
    var s1 := if placeholderType.Some? && placeholderType.value != ""
      then s.(info := s.info.(placeholderTypes := s.info.placeholderTypes + [placeholderType.value])) else s;
    RunsKeepSlide(s1, placeholderType, shape.textElements);
  }

  /**
   * The background is read inside the element loop: a slide with at least
   * one element files its background colour, a slide without elements
   * leaves the colour registry as it was.
   */
  lemma {:induction false} BackgroundNeedsElements(s: Scan, background: ColorData, es: seq<PageElement>)
    requires ColorKey(background).Some?
    ensures |es| == 0 ==> ElementsScan(s, Some(background), es).colors == s.colors
    ensures |es| > 0 ==> Filed(ElementsScan(s, Some(background), es).colors,
                               ColorKey(background).value, "Background on slide " + SlideNumber(s.info.index))
  {
    if |es| > 0 {
      var key, ctx := ColorKey(background).value, "Background on slide " + SlideNumber(s.info.index);
      var before := ElementsScan(s, Some(background), es[..|es| - 1]);
      ElementsKeepSlide(s, Some(background), es[..|es| - 1]);
      if |es| > 1 {
        BackgroundNeedsElements(s, background, es[..|es| - 1]);
        ElementKeepsFiled(before, Some(background), es[|es| - 1], key, ctx);
      } else {
        var e := es[0];
        var s1 := before.(info := Flagged(before.info, e));
        var s2 := if e.shape.Some? then ShapeScan(s1, e.shape.value) else s1;
        RecordedMeaning2(s2.colors, key, ctx);
      }
    }
  }

  lemma RecordedMeaning2(u: Usage, key: string, context: string)
    ensures Filed(Recorded(u, key, context), key, context)
  {
  }

  /** A slide without elements only adds its summary and its category entry. */
  lemma EmptySlideScansNothing(colors: Usage, fonts: Usage, sizes: map<real, nat>, texts: seq<PlaceholderText>, slide: Page, i: nat)
    requires |slide.pageElements| == 0
    ensures SlideScan(colors, fonts, sizes, texts, slide, i) == Scan(colors, fonts, sizes, texts, FreshInfo(slide, i))
  {
  }

  // ---------------------------------------------------------------------
  // What the aggregation keeps true
  // ---------------------------------------------------------------------

  /** Placeholder texts are typed, at most 100 characters, and point at one of the first `n` slides. */
  predicate TextsBounded(texts: seq<PlaceholderText>, n: nat) {
    forall t :: t in texts ==> t.placeholderType != "" && |t.text| <= 100 && t.slideIndex < n
  }

  /** A title or subtitle only ever comes from a placeholder of that type on the slide. */
  predicate HeadingsTyped(info: SlideInfo) {
    && (info.title != "" ==> "TITLE" in info.placeholderTypes)
    && (info.subtitle != "" ==> "SUBTITLE" in info.placeholderTypes)
  }

  /** The invariant of the scan of one of the first `n` slides. */
  ghost predicate ScanInvariant(s: Scan, n: nat) {
    && UsageValid(s.colors) && UsageValid(s.fonts)
    && s.info.index < n && TextsBounded(s.texts, n) && HeadingsTyped(s.info)
  }

  lemma RecordColorValid(u: Usage, c: ColorData, context: string)
    requires UsageValid(u)
    ensures UsageValid(RecordColor(u, c, context))
  {
    if ColorKey(c).Some? {
      RecordedMeaning(u, ColorKey(c).value, context);
    }
  }

  lemma RunStepInvariant(s: Scan, placeholderType: Option<string>, te: TextElement, n: nat)
    requires ScanInvariant(s, n)
    requires placeholderType == Some("TITLE") ==> "TITLE" in s.info.placeholderTypes
    requires placeholderType == Some("SUBTITLE") ==> "SUBTITLE" in s.info.placeholderTypes
    ensures ScanInvariant(RunStep(s, placeholderType, te), n)
    ensures RunStep(s, placeholderType, te).info.placeholderTypes == s.info.placeholderTypes
  {
    var content := Strip(RunContent(te));
    if content != "" {
      var t := TextNoted(s, placeholderType, content);
      TextNotedInvariant(s, placeholderType, content, n);
      StyleNotedInvariant(t, RunStyle(te), s.info.index, n);
      assert RunStep(s, placeholderType, te) == StyleNoted(t, RunStyle(te), s.info.index);
    } else {
      assert RunStep(s, placeholderType, te) == s;
    }
  }

  /** Noting a heading keeps the invariant, the placeholder types and the registries. */
  lemma TextNotedInvariant(s: Scan, placeholderType: Option<string>, content: string, n: nat)
    requires ScanInvariant(s, n)
    requires placeholderType == Some("TITLE") ==> "TITLE" in s.info.placeholderTypes
    requires placeholderType == Some("SUBTITLE") ==> "SUBTITLE" in s.info.placeholderTypes
    ensures var t := TextNoted(s, placeholderType, content);
      ScanInvariant(t, n) && t.info.placeholderTypes == s.info.placeholderTypes
  {
    if placeholderType.Some? && placeholderType.value != "" {
      var t := TextNoted(s, placeholderType, content);
      var added := PlaceholderText(placeholderType.value, Take(content, 100), s.info.index);
      assert t.texts == s.texts + [added];
      forall x | x in t.texts
        ensures x.placeholderType != "" && |x.text| <= 100 && x.slideIndex < n
      {
        if x !in s.texts {
          assert x == added;
        }
      }
    }
  }

  /** Noting a run's style keeps the invariant and leaves the summary alone. */
  lemma StyleNotedInvariant(s: Scan, style: TextStyle, i: nat, n: nat)
    requires ScanInvariant(s, n)
    ensures var t := StyleNoted(s, style, i);
      ScanInvariant(t, n) && t.info == s.info
  {
    RecordColorValid(s.colors, style.foregroundColor, "Text on slide " + SlideNumber(i));
    if style.fontFamily.Some? && style.fontFamily.value != "" {
      RecordedMeaning(s.fonts, style.fontFamily.value, "Slide " + SlideNumber(i));
    }
  }

  lemma {:induction false} RunsInvariant(s: Scan, placeholderType: Option<string>, tes: seq<TextElement>, n: nat)
    requires ScanInvariant(s, n)
    requires placeholderType == Some("TITLE") ==> "TITLE" in s.info.placeholderTypes
    requires placeholderType == Some("SUBTITLE") ==> "SUBTITLE" in s.info.placeholderTypes
    ensures ScanInvariant(RunsScan(s, placeholderType, tes), n)
    ensures RunsScan(s, placeholderType, tes).info.placeholderTypes == s.info.placeholderTypes
  {
    if |tes| > 0 {
      RunsInvariant(s, placeholderType, tes[..|tes| - 1], n);
      RunStepInvariant(RunsScan(s, placeholderType, tes[..|tes| - 1]), placeholderType, tes[|tes| - 1], n);
    }
  }

  lemma ShapeInvariant(s: Scan, shape: Shape, n: nat)
    requires ScanInvariant(s, n)
    ensures ScanInvariant(ShapeScan(s, shape), n)
  {
    var placeholderType := shape.placeholder.placeholderType;
    var s1 := if placeholderType.Some? && placeholderType.value != ""
      then s.(info := s.info.(placeholderTypes := s.info.placeholderTypes + [placeholderType.value])) else s;
    RunsInvariant(s1, placeholderType, shape.textElements, n);
    var s2 := RunsScan(s1, placeholderType, shape.textElements);
    if shape.solidFill.Some? {
      RecordColorValid(s2.colors, shape.solidFill.value, "Shape fill on slide " + SlideNumber(s.info.index));
    }
  }

  lemma ElementStepInvariant(s: Scan, background: Option<ColorData>, e: PageElement, n: nat)
    requires ScanInvariant(s, n)
    ensures ScanInvariant(ElementStep(s, background, e), n)
  {
    var s1 := s.(info := Flagged(s.info, e));
    FlaggedInvariant(s, e, n);
    var s2 := if e.shape.Some? then ShapeScan(s1, e.shape.value) else s1;
    if e.shape.Some? {
      ShapeInvariant(s1, e.shape.value, n);
    }
    assert ScanInvariant(s2, n);
    if background.Some? {
      var context := "Background on slide " + SlideNumber(s.info.index);
      RecordColorValid(s2.colors, background.value, context);
      assert ElementStep(s, background, e) == s2.(colors := RecordColor(s2.colors, background.value, context));
    } else {
      assert ElementStep(s, background, e) == s2;
    }
  }

  /** Setting an element's flag keeps the invariant. */
  lemma FlaggedInvariant(s: Scan, e: PageElement, n: nat)
    requires ScanInvariant(s, n)
    ensures ScanInvariant(s.(info := Flagged(s.info, e)), n)
  {
  }

  lemma {:induction false} ElementsInvariant(s: Scan, background: Option<ColorData>, es: seq<PageElement>, n: nat)
    requires ScanInvariant(s, n)
    ensures ScanInvariant(ElementsScan(s, background, es), n)
  {
    if |es| > 0 {
      ElementsInvariant(s, background, es[..|es| - 1], n);
      ElementStepInvariant(ElementsScan(s, background, es[..|es| - 1]), background, es[|es| - 1], n);
    }
  }

  /** What holds of the aggregate after the loop has seen `n` slides. */
  ghost predicate AggregateInvariant(a: Aggregate, n: nat) {
    && UsageValid(a.colors) && UsageValid(a.fonts) && TextsBounded(a.texts, n)
    && |a.slidesInfo| == n
    && (forall i :: 0 <= i < n ==> a.slidesInfo[i].index == i && HeadingsTyped(a.slidesInfo[i]))
    && (forall c: Category :: c in a.categories && a.categories[c] == EntriesIn(a.slidesInfo, c))
  }

  lemma SlideStepInvariant(a: Aggregate, slide: Page, n: nat)
    requires AggregateInvariant(a, n)
    ensures AggregateInvariant(SlideStep(a, slide, n), n + 1)
  {
    var start := Scan(a.colors, a.fonts, a.fontSizes, a.texts, FreshInfo(slide, n));
    assert TextsBounded(a.texts, n + 1);
    ElementsInvariant(start, slide.background, slide.pageElements, n + 1);
    ElementsKeepSlide(start, slide.background, slide.pageElements);
    var s := SlideScan(a.colors, a.fonts, a.fontSizes, a.texts, slide, n);
    var r := SlideStep(a, slide, n);
    assert r.slidesInfo == a.slidesInfo + [s.info];
    assert r.slidesInfo[..n] == a.slidesInfo;
    forall c: Category
      ensures c in r.categories && r.categories[c] == EntriesIn(r.slidesInfo, c)
    {
    }
  }

  /**
   * After the loop: both registries are well formed, every placeholder
   * text is typed, short and points at a real slide, summary `i` describes
   * slide `i` with its title and subtitle taken from placeholders of that
   * type, and `slide_categories[c]` lists exactly the slides categorised
   * as `c`, in slide order.
   */
  lemma {:induction false} AggregatedInvariant(slides: seq<Page>)
    ensures AggregateInvariant(Aggregated(slides), |slides|)
  {
    if |slides| == 0 {
      forall c: Category
        ensures c in NoEntries() && NoEntries()[c] == EntriesIn([], c)
      {
        assert c in AllCategories by {
          match c
          case Cover => assert AllCategories[0] == c;
          case SectionDivider => assert AllCategories[1] == c;
          case Content => assert AllCategories[2] == c;
          case ImageFocused => assert AllCategories[3] == c;
          case DataVisualization => assert AllCategories[4] == c;
          case Mockup => assert AllCategories[5] == c;
          case Infographic => assert AllCategories[6] == c;
          case Other => assert AllCategories[7] == c;
        }
      }
    } else {
      AggregatedInvariant(slides[..|slides| - 1]);
      SlideStepInvariant(Aggregated(slides[..|slides| - 1]), slides[|slides| - 1], |slides| - 1);
    }
  }

  /** Summary `i` is the scan of slide `i`. */
  lemma {:induction false} AggregatedSummaries(slides: seq<Page>, i: nat)
    requires i < |slides|
    ensures |Aggregated(slides).slidesInfo| == |slides|
    ensures Aggregated(slides).slidesInfo[i].slideId == SlideId(slides[i])
    ensures Aggregated(slides).slidesInfo[i].elementCount == |slides[i].pageElements|
  {
    AggregatedInvariant(slides);
    var prefix := Aggregated(slides[..|slides| - 1]);
    AggregatedInvariant(slides[..|slides| - 1]);
    if i < |slides| - 1 {
      AggregatedSummaries(slides[..|slides| - 1], i);
      assert Aggregated(slides).slidesInfo[i] == prefix.slidesInfo[i];
    } else {
      var start := Scan(prefix.colors, prefix.fonts, prefix.fontSizes, prefix.texts, FreshInfo(slides[i], i));
      ElementsKeepSlide(start, slides[i].background, slides[i].pageElements);
    }
  }

  // ---------------------------------------------------------------------
  // The loop itself
  // ---------------------------------------------------------------------

  /** The locals of `analyze_presentation` that the loop updates in place. */
  class Analyzer {
    const colorsFound: UsageRegistry
    const fontsFound: UsageRegistry
    var fontSizes: map<real, nat>
    var placeholderTexts: seq<PlaceholderText>
    var slideInfo: SlideInfo
    var slidesInfo: seq<SlideInfo>
    var slideCategories: map<Category, seq<CategoryEntry>>

    /** The two registries are two dicts, not one. */
    predicate Separate()
      reads this
    {
      colorsFound != fontsFound
    }

    /** The state the scan of the current slide works on. */
    function Current(): Scan
      reads this, colorsFound, fontsFound
    {
      Scan(colorsFound.Value(), fontsFound.Value(), fontSizes, placeholderTexts, slideInfo)
    }

    /** The state the slide loop works on. */
    function Totals(): Aggregate
      reads this, colorsFound, fontsFound
    {
      Aggregate(colorsFound.Value(), fontsFound.Value(), fontSizes, placeholderTexts, slidesInfo, slideCategories)
    }

    constructor ()
      ensures Separate() && Totals() == InitialAggregate()
      ensures fresh(colorsFound) && fresh(fontsFound)
    {
      colorsFound := new UsageRegistry();
      fontsFound := new UsageRegistry();
      fontSizes := map[];
      placeholderTexts := [];
      slideInfo := SlideInfo("", 0, 0, "", "", false, false, false, []);
      slidesInfo := [];
      slideCategories := NoEntries();
    }

    /** The placeholder part of a non-empty run. */
    method NoteText(placeholderType: Option<string>, content: string)
      modifies this
      ensures Current() == TextNoted(old(Current()), placeholderType, content)
      ensures slidesInfo == old(slidesInfo) && slideCategories == old(slideCategories)
    {
      if placeholderType.Some? && placeholderType.value != "" {
        var i := slideInfo.index;
        if placeholderType.value == "TITLE" {
          slideInfo := slideInfo.(title := content);
        } else if placeholderType.value == "SUBTITLE" {
          slideInfo := slideInfo.(subtitle := content);
        }
        placeholderTexts := placeholderTexts + [PlaceholderText(placeholderType.value, Take(content, 100), i)];
      }
    }

    /** The style part of a non-empty run on slide `i`. */
    method NoteStyle(style: TextStyle, i: nat)
      requires Separate()
      modifies this, colorsFound, fontsFound
      ensures Current() == StyleNoted(old(Current()), style, i)
      ensures slidesInfo == old(slidesInfo) && slideCategories == old(slideCategories)
    {
      if style.fontFamily.Some? && style.fontFamily.value != "" {
        fontsFound.Record(style.fontFamily.value, "Slide " + SlideNumber(i));
      }
      if style.fontSize.Some? && style.fontSize.value != 0.0 {
        fontSizes := Counted(fontSizes, style.fontSize.value);
      }
      ExtractColor(style.foregroundColor, "Text on slide " + SlideNumber(i), colorsFound);
    }

    /** The body of the loop over a shape's text elements. */
    method ScanRun(placeholderType: Option<string>, te: TextElement)
      requires Separate()
      modifies this, colorsFound, fontsFound
      ensures Current() == RunStep(old(Current()), placeholderType, te)
      ensures slidesInfo == old(slidesInfo) && slideCategories == old(slideCategories)
    {
      var content := Strip(RunContent(te));
      if content != "" {
        var i := slideInfo.index;
        NoteText(placeholderType, content);
        NoteStyle(RunStyle(te), i);
      }
    }

    /** The loop over a shape's text elements. */
    method ScanRuns(placeholderType: Option<string>, tes: seq<TextElement>)
      requires Separate()
      modifies this, colorsFound, fontsFound
      ensures Current() == RunsScan(old(Current()), placeholderType, tes)
      ensures slidesInfo == old(slidesInfo) && slideCategories == old(slideCategories)
    {
      var k := 0;
      while k < |tes|
        invariant k <= |tes|
        invariant Current() == RunsScan(old(Current()), placeholderType, tes[..k])
        invariant slidesInfo == old(slidesInfo) && slideCategories == old(slideCategories)
      {
        RunsScanExtends(old(Current()), placeholderType, tes, k);
        ScanRun(placeholderType, tes[k]);
        k := k + 1;
      }
      assert tes[..k] == tes;
    }

    /** The `if shape:` block of the element loop. */
    method ScanShape(shape: Shape)
      requires Separate()
      modifies this, colorsFound, fontsFound
      ensures Current() == ShapeScan(old(Current()), shape)
      ensures slidesInfo == old(slidesInfo) && slideCategories == old(slideCategories)
    {
      var fillContext := "Shape fill on slide " + SlideNumber(slideInfo.index);
      var placeholderType := shape.placeholder.placeholderType;
      if placeholderType.Some? && placeholderType.value != "" {
        slideInfo := slideInfo.(placeholderTypes := slideInfo.placeholderTypes + [placeholderType.value]);
      }
      ScanRuns(placeholderType, shape.textElements);
      if shape.solidFill.Some? {
        ExtractColor(shape.solidFill.value, fillContext, colorsFound);
      }
    }

    /** The body of the loop over a slide's elements. */
    method ScanElement(background: Option<ColorData>, e: PageElement)
      requires Separate()
      modifies this, colorsFound, fontsFound
      ensures Current() == ElementStep(old(Current()), background, e)
      ensures slidesInfo == old(slidesInfo) && slideCategories == old(slideCategories)
    {
      var backgroundContext := "Background on slide " + SlideNumber(slideInfo.index);
      if e.image.Some? {
        slideInfo := slideInfo.(hasImage := true);
      } else if e.sheetsChart.Some? {
        slideInfo := slideInfo.(hasChart := true);
      } else if e.table.Some? {
        slideInfo := slideInfo.(hasTable := true);
      }
      if e.shape.Some? {
        ScanShape(e.shape.value);
      }
      if background.Some? {
        ExtractColor(background.value, backgroundContext, colorsFound);
      }
    }

    /** One pass of the slide loop: scan slide `i`, categorise it, file it. */
    method ScanSlide(slide: Page, i: nat)
      requires Separate()
      modifies this, colorsFound, fontsFound
      ensures Totals() == SlideStep(old(Totals()), slide, i)
    {
      ghost var before := Totals();
      slideInfo := FreshInfo(slide, i);
      ghost var start := Current();
      var es := slide.pageElements;
      var k := 0;
      while k < |es|
        invariant k <= |es|
        invariant Current() == ElementsScan(start, slide.background, es[..k])
        invariant slidesInfo == before.slidesInfo && slideCategories == before.categories
      {
        ScanElement(slide.background, es[k]);
        assert es[..k + 1][..k] == es[..k];
        k := k + 1;
      }
      assert es[..k] == es;
      var category := Categorize(slideInfo);
      var filed := if category in slideCategories then slideCategories[category] else [];
      slideCategories := slideCategories[category := filed + [EntryOf(slideInfo)]];
      slidesInfo := slidesInfo + [slideInfo];
    }
  }

  /** The slide loop of `analyze_presentation`, on fresh registries and tallies. */
  method AnalyzeSlides(slides: seq<Page>) returns (a: Aggregate)
    ensures a == Aggregated(slides)
  {
    var analyzer := new Analyzer();
    var i := 0;
    while i < |slides|
      invariant i <= |slides|
      invariant analyzer.Separate()
      invariant fresh(analyzer) && fresh(analyzer.colorsFound) && fresh(analyzer.fontsFound)
      invariant analyzer.Totals() == Aggregated(slides[..i])
    {
      analyzer.ScanSlide(slides[i], i);
      assert slides[..i + 1][..i] == slides[..i];
      i := i + 1;
    }
    assert slides[..i] == slides;
    a := analyzer.Totals();
  }
}
