/**
 * The slide categories of `analyze_presentation` and the ordered decision
 * list `_categorize_slide` applies to a slide's summary.
 */
module SlideCategories {
  import opened Strings

  /** A slide's summary (`slide_info`) before it is categorised. */
  datatype SlideInfo = SlideInfo(
    slideId: string, index: nat, elementCount: nat,
    title: string, subtitle: string,
    hasImage: bool, hasChart: bool, hasTable: bool,
    placeholderTypes: seq<string>)

  /** The eight keys of `slide_categories`. */
  datatype Category = Cover | SectionDivider | Content | ImageFocused | DataVisualization | Mockup | Infographic | Other {
    function Name(): string {
      match this
      case Cover => "cover"
      case SectionDivider => "section_divider"
      case Content => "content"
      case ImageFocused => "image_focused"
      case DataVisualization => "data_visualization"
      case Mockup => "mockup"
      case Infographic => "infographic"
      case Other => "other"
    }

    /** The position of the category's rule in the decision list. */
    function Priority(): nat {
      match this
      case Cover => 0
      case SectionDivider => 1
      case DataVisualization => 2
      case Infographic => 3
      case Mockup => 4
      case ImageFocused => 5
      case Content => 6
      case Other => 7
    }
  }

  /** The keys of `slide_categories`, in the order the dict is written. */
  const AllCategories: seq<Category> := [Cover, SectionDivider, Content, ImageFocused, DataVisualization, Mockup, Infographic, Other]

  /** `any(kw in title for kw in keywords)`. */
  predicate AnyIn(title: string, keywords: seq<string>) {
    exists k :: k in keywords && Contains(title, k)
  }

  predicate CoverRule(info: SlideInfo) {
    AnyIn(Lower(info.title), ["cover", "title page"])
    || (info.elementCount <= 4 && "TITLE" in info.placeholderTypes && "BODY" in info.placeholderTypes && info.index < 15)
  }

  predicate SectionRule(info: SlideInfo) {
    AnyIn(Lower(info.title), ["section", "divider"])
    || (info.elementCount <= 3 && "TITLE" in info.placeholderTypes
        && ("SUBTITLE" in info.placeholderTypes || info.elementCount == 1))
  }

  predicate ChartRule(info: SlideInfo) {
    info.hasChart || AnyIn(Lower(info.title), ["chart", "graph", "table", "data"])
  }

  predicate InfographicRule(info: SlideInfo) {
    Contains(Lower(info.title), "infographic") || info.elementCount > 15
  }

  predicate MockupRule(info: SlideInfo) {
    AnyIn(Lower(info.title), ["mockup", "phone", "laptop", "device", "smartphone", "notebook"])
  }

  predicate ImageRule(info: SlideInfo) {
    info.hasImage && info.elementCount <= 5
  }

  predicate ContentRule(info: SlideInfo) {
    "BODY" in info.placeholderTypes || info.elementCount >= 3
  }

  /** `_categorize_slide`. */
  function Categorize(info: SlideInfo): (c: Category)
    ensures RuleHolds(c, info)
  {
    if CoverRule(info) then Cover
    else if SectionRule(info) then SectionDivider
    else if ChartRule(info) then DataVisualization
    else if info.hasTable then DataVisualization
    else if InfographicRule(info) then Infographic
    else if MockupRule(info) then Mockup
    else if ImageRule(info) then ImageFocused
    else if ContentRule(info) then Content
    else Other
  }

  /** The condition under which a category's rule fires, on its own. */
  predicate RuleHolds(c: Category, info: SlideInfo) {
    match c
    case Cover => CoverRule(info)
    case SectionDivider => SectionRule(info)
    case DataVisualization => ChartRule(info) || info.hasTable
    case Infographic => InfographicRule(info)
    case Mockup => MockupRule(info)
    case ImageFocused => ImageRule(info)
    case Content => ContentRule(info)
    case Other => true
  }

  /**
   * First match: a slide gets exactly the category whose rule holds while
   * the rule of every category earlier in the list does not.
   */
  lemma CategorizeFirstMatch(info: SlideInfo, c: Category)
    ensures Categorize(info) == c <==>
      RuleHolds(c, info) && forall d: Category :: d.Priority() < c.Priority() ==> !RuleHolds(d, info)
  {
    forall d: Category | Categorize(info) == c && d.Priority() < c.Priority()
      ensures !RuleHolds(d, info)
    {
    }
    if RuleHolds(c, info) && forall d: Category :: d.Priority() < c.Priority() ==> !RuleHolds(d, info) {
      if c.Priority() > 0 { assert !RuleHolds(Cover, info); }
      if c.Priority() > 1 { assert !RuleHolds(SectionDivider, info); }
      if c.Priority() > 2 { assert !RuleHolds(DataVisualization, info); }
      if c.Priority() > 3 { assert !RuleHolds(Infographic, info); }
      if c.Priority() > 4 { assert !RuleHolds(Mockup, info); }
      if c.Priority() > 5 { assert !RuleHolds(ImageFocused, info); }
      if c.Priority() > 6 { assert !RuleHolds(Content, info); }
    }
  }

  /** A title naming a cover makes a cover, whatever the rest of the slide holds. */
  lemma CoverTitle(info: SlideInfo)
    requires info.title == "Title Page"
    ensures Categorize(info) == Cover
  {
    assert Lower(info.title) == "title page";
    assert Contains(Lower(info.title), "title page");
  }

  /** A short early slide with title and body placeholders is a cover. */
  lemma CoverByPlaceholders(info: SlideInfo)
    requires info.title == "" && info.elementCount == 2 && info.index == 0
    requires info.placeholderTypes == ["TITLE", "BODY"]
    ensures Categorize(info) == Cover
  {
  }

  /** From index 15 (the sixteenth slide) on, the same slide is no longer a cover; it is content. */
  lemma LateTitleBodyIsContent(info: SlideInfo)
    requires info.title == "" && info.elementCount == 2 && info.index == 15
    requires !info.hasChart && !info.hasTable && !info.hasImage
    requires info.placeholderTypes == ["TITLE", "BODY"]
    ensures Categorize(info) == Content
  {
    assert Lower(info.title) == "";
    forall k | k in ["section", "divider", "chart", "graph", "table", "data", "infographic",
                     "mockup", "phone", "laptop", "device", "smartphone", "notebook"]
      ensures !Contains("", k)
    {
    }
  }

  /** A table decides the category only after every title keyword of the chart rule. */
  lemma TableIsDataVisualization(info: SlideInfo)
    requires !CoverRule(info) && !SectionRule(info) && info.hasTable
    ensures Categorize(info) == DataVisualization
  {
  }
}
