/**
 * The content tools: placeholder discovery, text replacement by
 * delete-all-then-insert, sparse text styles with their field masks, and
 * the bookkeeping of `update_slide_content`, `update_presentation_content`
 * and `apply_text_style`. Each tool is modelled from the fetched slides to
 * the request list of its single batch and the summary it returns.
 */
module Content {
  import opened Wrappers
  import opened Strings
  import opened Colors
  import opened Slides

  // ---------------------------------------------------------------------
  // Placeholder discovery
  // ---------------------------------------------------------------------

  /** One entry of a placeholder search: `object_id`, `placeholder_type`, `current_text`. */
  datatype PlaceholderHit = PlaceholderHit(objectId: Option<string>, placeholderType: string, currentText: string)

  /** The element's text: all runs concatenated, then stripped. */
  function CurrentText(e: PageElement): (t: string)
    ensures t == [] || (!IsWhitespace(t[0]) && !IsWhitespace(t[|t| - 1]))
  {
    Strip(ConcatRuns(TextElementsOf(e)))
  }

  /** `placeholder.get("type") == placeholder_type`. */
  predicate IsPlaceholderOf(e: PageElement, placeholderType: string) {
    PlaceholderTypeOf(e) == Some(placeholderType)
  }

  /** What one element contributes to a search for `placeholderType`. */
  function HitOf(e: PageElement, placeholderType: string): seq<PlaceholderHit> {
    if IsPlaceholderOf(e, placeholderType) then [PlaceholderHit(e.objectId, placeholderType, CurrentText(e))] else []
  }

  /** `_find_placeholder_elements`, as a specification over the slide's elements. */
  function PlaceholderHits(es: seq<PageElement>, placeholderType: string): seq<PlaceholderHit> {
    if |es| == 0 then [] else PlaceholderHits(es[..|es| - 1], placeholderType) + HitOf(es[|es| - 1], placeholderType)
  }

  /** The search distributes over a split of the elements: it keeps document order. */
  lemma {:induction false} PlaceholderHitsAppend(a: seq<PageElement>, b: seq<PageElement>, placeholderType: string)
    ensures PlaceholderHits(a + b, placeholderType) == PlaceholderHits(a, placeholderType) + PlaceholderHits(b, placeholderType)
  {
    if |b| == 0 {
      assert a + b == a;
    } else {
      var front, x := b[..|b| - 1], b[|b| - 1];
      assert b == front + [x];
      assert a + b == (a + front) + [x];
      PlaceholderHitsAppend(a, front, placeholderType);
      PlaceholderHitsAppendOne(a, front, x, placeholderType);
    }
  }

  /** The inductive step of `PlaceholderHitsAppend`: one more element at the end of the second part. */
  lemma PlaceholderHitsAppendOne(a: seq<PageElement>, front: seq<PageElement>, x: PageElement, placeholderType: string)
    requires PlaceholderHits(a + front, placeholderType) == PlaceholderHits(a, placeholderType) + PlaceholderHits(front, placeholderType)
    ensures PlaceholderHits((a + front) + [x], placeholderType) == PlaceholderHits(a, placeholderType) + PlaceholderHits(front + [x], placeholderType)
  {
    PlaceholderHitsSnoc(a + front, x, placeholderType);
    PlaceholderHitsSnoc(front, x, placeholderType);
    Regroup(PlaceholderHits((a + front) + [x], placeholderType), PlaceholderHits(a + front, placeholderType),
            PlaceholderHits(a, placeholderType), PlaceholderHits(front, placeholderType),
            PlaceholderHits(front + [x], placeholderType), HitOf(x, placeholderType));
  }

  /** Concatenation regrouped: `(r + s) + t == r + (s + t)`, with each side named. */
  lemma Regroup<T>(p: seq<T>, q: seq<T>, r: seq<T>, s: seq<T>, u: seq<T>, t: seq<T>)
    requires p == q + t && q == r + s && u == s + t
    ensures p == r + u
  {
  }

  /** The search over one more element adds that element's hit at the end. */
  lemma PlaceholderHitsSnoc(es: seq<PageElement>, x: PageElement, placeholderType: string)
    ensures PlaceholderHits(es + [x], placeholderType) == PlaceholderHits(es, placeholderType) + HitOf(x, placeholderType)
  {
    assert (es + [x])[..|es|] == es;
  }

  /**
   * One hit per matching element: the search finds nothing exactly when no
   * element has that placeholder type, and every hit carries the type asked
   * for.
   */
  lemma PlaceholderHitsMeaning(es: seq<PageElement>, placeholderType: string)
    ensures |PlaceholderHits(es, placeholderType)| == CountPlaceholders(es, placeholderType)
    ensures PlaceholderHits(es, placeholderType) == [] <==> forall k :: 0 <= k < |es| ==> !IsPlaceholderOf(es[k], placeholderType)
    ensures forall h :: h in PlaceholderHits(es, placeholderType) ==> h.placeholderType == placeholderType
  {
    PlaceholderHitsCounted(es, placeholderType);
    CountPlaceholdersZero(es, placeholderType);
    PlaceholderHitsTyped(es, placeholderType);
  }

  lemma {:induction false} PlaceholderHitsCounted(es: seq<PageElement>, placeholderType: string)
    ensures |PlaceholderHits(es, placeholderType)| == CountPlaceholders(es, placeholderType)
  {
    if |es| > 0 {
      PlaceholderHitsCounted(es[..|es| - 1], placeholderType);
    }
  }

  /** No element matches exactly when the count is zero. */
  lemma {:induction false} CountPlaceholdersZero(es: seq<PageElement>, placeholderType: string)
    ensures CountPlaceholders(es, placeholderType) == 0 <==> forall k :: 0 <= k < |es| ==> !IsPlaceholderOf(es[k], placeholderType)
  {
    if |es| > 0 {
      var init := es[..|es| - 1];
      CountPlaceholdersZero(init, placeholderType);
      assert forall k :: 0 <= k < |init| ==> init[k] == es[k];
    }
  }

  lemma {:induction false} PlaceholderHitsTyped(es: seq<PageElement>, placeholderType: string)
    ensures forall h :: h in PlaceholderHits(es, placeholderType) ==> h.placeholderType == placeholderType
  {
    if |es| > 0 {
      PlaceholderHitsTyped(es[..|es| - 1], placeholderType);
    }
  }

  /** How many elements are placeholders of this type. */
  function CountPlaceholders(es: seq<PageElement>, placeholderType: string): nat {
    if |es| == 0 then 0
    else CountPlaceholders(es[..|es| - 1], placeholderType) + (if IsPlaceholderOf(es[|es| - 1], placeholderType) then 1 else 0)
  }

  lemma PlaceholderHitsStep(es: seq<PageElement>, i: nat, placeholderType: string)
    requires i < |es|
    ensures PlaceholderHits(es[..i + 1], placeholderType) == PlaceholderHits(es[..i], placeholderType) + HitOf(es[i], placeholderType)
  {
    assert es[..i + 1][..i] == es[..i];
  }

  /** The loop of `_find_placeholder_elements`. */
  method FindPlaceholderElements(slide: Page, placeholderType: string) returns (hits: seq<PlaceholderHit>)
    ensures hits == PlaceholderHits(slide.pageElements, placeholderType)
  {
    var es := slide.pageElements;
    hits := [];
    var i := 0;
    while i < |es|
      invariant 0 <= i <= |es|
      invariant hits == PlaceholderHits(es[..i], placeholderType)
    {
      PlaceholderHitsStep(es, i, placeholderType);
      var e := es[i];
      if PlaceholderTypeOf(e) == Some(placeholderType) {
        hits := hits + [PlaceholderHit(e.objectId, placeholderType, CurrentText(e))];
      }
      i := i + 1;
    }
    assert es[..i] == es;
  }

  /** `if placeholder_type:`: the type is present and non-empty. */
  predicate HasPlaceholderType(e: PageElement) {
    PlaceholderTypeOf(e).Some? && PlaceholderTypeOf(e).value != ""
  }

  /** `_find_all_placeholders`, as a specification. */
  function AllPlaceholderHits(es: seq<PageElement>): seq<PlaceholderHit> {
    if |es| == 0 then []
    else
      var e := es[|es| - 1];
      AllPlaceholderHits(es[..|es| - 1])
        + (if HasPlaceholderType(e) then [PlaceholderHit(e.objectId, PlaceholderTypeOf(e).value, CurrentText(e))] else [])
  }

  /**
   * Every typed placeholder is reported under its own type: the search over
   * all types is the per-type search with the element's type.
   */
  lemma AllPlaceholdersAgree(es: seq<PageElement>)
    ensures forall h :: h in AllPlaceholderHits(es) ==> h.placeholderType != ""
    ensures |AllPlaceholderHits(es)| == CountTyped(es)
    ensures forall k :: 0 <= k < |es| && HasPlaceholderType(es[k]) ==>
      PlaceholderHit(es[k].objectId, PlaceholderTypeOf(es[k]).value, CurrentText(es[k])) in AllPlaceholderHits(es)
  {
    AllPlaceholdersTyped(es);
    AllPlaceholdersCounted(es);
    forall k | 0 <= k < |es| && HasPlaceholderType(es[k])
      ensures PlaceholderHit(es[k].objectId, PlaceholderTypeOf(es[k]).value, CurrentText(es[k])) in AllPlaceholderHits(es)
    {
      AllPlaceholdersFound(es, k);
    }
  }

  lemma {:induction false} AllPlaceholdersTyped(es: seq<PageElement>)
    ensures forall h :: h in AllPlaceholderHits(es) ==> h.placeholderType != ""
  {
    if |es| > 0 {
      AllPlaceholdersTyped(es[..|es| - 1]);
    }
  }

  lemma {:induction false} AllPlaceholdersCounted(es: seq<PageElement>)
    ensures |AllPlaceholderHits(es)| == CountTyped(es)
  {
    if |es| > 0 {
      AllPlaceholdersCounted(es[..|es| - 1]);
    }
  }

  lemma {:induction false} AllPlaceholdersFound(es: seq<PageElement>, k: nat)
    requires k < |es| && HasPlaceholderType(es[k])
    ensures PlaceholderHit(es[k].objectId, PlaceholderTypeOf(es[k]).value, CurrentText(es[k])) in AllPlaceholderHits(es)
  {
    var init := es[..|es| - 1];
    if k < |init| {
      AllPlaceholdersFound(init, k);
      assert init[k] == es[k];
    }
  }


  /** How many elements have a non-empty placeholder type. */
  function CountTyped(es: seq<PageElement>): nat {
    if |es| == 0 then 0 else CountTyped(es[..|es| - 1]) + (if HasPlaceholderType(es[|es| - 1]) then 1 else 0)
  }

  /** The loop of `_find_all_placeholders`. */
  method FindAllPlaceholders(slide: Page) returns (hits: seq<PlaceholderHit>)
    ensures hits == AllPlaceholderHits(slide.pageElements)
  {
    var es := slide.pageElements;
    hits := [];
    var i := 0;
    while i < |es|
      invariant 0 <= i <= |es|
      invariant hits == AllPlaceholderHits(es[..i])
    {
      assert es[..i + 1][..i] == es[..i];
      var e := es[i];
      var placeholderType := PlaceholderTypeOf(e);
      if placeholderType.Some? && placeholderType.value != "" {
        hits := hits + [PlaceholderHit(e.objectId, placeholderType.value, CurrentText(e))];
      }
      i := i + 1;
    }
    assert es[..i] == es;
  }

  // ---------------------------------------------------------------------
  // Text replacement
  // ---------------------------------------------------------------------

  /**
   * What a text request does to the text of the shape it targets:
   * `deleteText` over `ALL` empties it, `insertText` splices at the index.
   */
  function ApplyToText(current: string, r: Request): string {
    match r
    case DeleteAllText(_) => ""
    case InsertText(_, text, at) => if 0 <= at <= |current| then current[..at] + text + current[at..] else current
    case _ => current
  }

  /** The requests applied one after the other. */
  function ApplyAllToText(current: string, rs: seq<Request>): string
    decreases |rs|
  {
    if |rs| == 0 then current else ApplyAllToText(ApplyToText(current, rs[0]), rs[1..])
  }

  /** `_build_text_replacement_requests`: two text requests, both aimed at the placeholder. */
  function ReplacementRequests(objectId: Option<string>, text: string): (rs: seq<Request>)
    ensures |rs| == 2
    ensures forall r :: r in rs ==> (r.DeleteAllText? || r.InsertText?) && r.objectId == objectId
  {
    [DeleteAllText(objectId), InsertText(objectId, text, 0)]
  }

  /** Whatever the placeholder held before, the pair leaves it holding exactly the new text. */
  lemma ReplacementReplaces(current: string, objectId: Option<string>, text: string)
    ensures ApplyAllToText(current, ReplacementRequests(objectId, text)) == text
  {
    var rs := ReplacementRequests(objectId, text);
    assert rs[1..] == [InsertText(objectId, text, 0)];
    assert ""[..0] + text + ""[0..] == text;
    calc {
      ApplyAllToText(current, rs);
      ApplyAllToText(ApplyToText(current, rs[0]), rs[1..]);
      ApplyAllToText("", [InsertText(objectId, text, 0)]);
      ApplyAllToText(text, []);
    }
  }

  /** A placeholder value: a string, or a list whose items are joined with newlines. */
  datatype ContentValue = Text(s: string) | Lines(items: seq<string>)

  function Rendered(v: ContentValue): string {
    match v
    case Text(s) => s
    case Lines(items) => Join(items, "\n")
  }

  /** The replacement pairs for every hit, in hit order. */
  function HitRequests(hits: seq<PlaceholderHit>, text: string): (rs: seq<Request>)
    ensures |rs| == 2 * |hits|
  {
    if |hits| == 0 then [] else HitRequests(hits[..|hits| - 1], text) + ReplacementRequests(hits[|hits| - 1].objectId, text)
  }

  /** The loop extending the batch with one replacement pair per hit. */
  method ReplaceHits(hits: seq<PlaceholderHit>, text: string) returns (rs: seq<Request>)
    ensures rs == HitRequests(hits, text)
  {
    rs := [];
    var j := 0;
    while j < |hits|
      invariant 0 <= j <= |hits|
      invariant rs == HitRequests(hits[..j], text)
    {
      assert hits[..j + 1][..j] == hits[..j];
      rs := rs + ReplacementRequests(hits[j].objectId, text);
      j := j + 1;
    }
    assert hits[..j] == hits;
  }

  // ---------------------------------------------------------------------
  // update_slide_content
  // ---------------------------------------------------------------------

  /** The summary of `update_slide_content` and the batch it sends. */
  datatype SlideContentOutcome = SlideContentOutcome(requests: seq<Request>, updated: seq<string>, notFound: seq<string>)

  /** One mapping entry folded into the running outcome. */
  function SlideContentStep(slide: Page, o: SlideContentOutcome, key: string, value: ContentValue): SlideContentOutcome {
    var hits := PlaceholderHits(slide.pageElements, key);
    if |hits| > 0 then o.(requests := o.requests + HitRequests(hits, Rendered(value)), updated := o.updated + [key])
    else o.(notFound := o.notFound + [key])
  }

  /** `update_slide_content` over the placeholder mapping, entries in mapping order. */
  function SlideContent(slide: Page, content: seq<(string, ContentValue)>): SlideContentOutcome {
    if |content| == 0 then SlideContentOutcome([], [], [])
    else
      SlideContentStep(slide, SlideContent(slide, content[..|content| - 1]), content[|content| - 1].0, content[|content| - 1].1)
  }

  /** The number of placeholders the mapping's keys match, counted once per key. */
  function MatchedPlaceholders(slide: Page, content: seq<(string, ContentValue)>): nat {
    if |content| == 0 then 0
    else MatchedPlaceholders(slide, content[..|content| - 1]) + CountPlaceholders(slide.pageElements, content[|content| - 1].0)
  }

  /**
   * Every key lands in exactly one of `updated` and `not_found`, according
   * to whether the slide has a placeholder of that type, and the batch holds
   * two requests per matching placeholder.
   */
  lemma SlideContentPartition(slide: Page, content: seq<(string, ContentValue)>)
    ensures var o := SlideContent(slide, content);
      && |o.updated| + |o.notFound| == |content|
      && (forall k :: k in o.updated ==> CountPlaceholders(slide.pageElements, k) > 0)
      && (forall k :: k in o.notFound ==> CountPlaceholders(slide.pageElements, k) == 0)
      && (forall i :: 0 <= i < |content| ==> content[i].0 in o.updated || content[i].0 in o.notFound)
      && |o.requests| == 2 * MatchedPlaceholders(slide, content)
  {
    SlideContentSizes(slide, content);
    SlideContentFiled(slide, content);
    SlideContentCovers(slide, content);
  }

  /** One entry: filed under `updated` with two requests per match, or under `not_found`. */
  lemma SlideContentStepShape(slide: Page, o: SlideContentOutcome, key: string, value: ContentValue)
    ensures var n := CountPlaceholders(slide.pageElements, key);
      var r := SlideContentStep(slide, o, key, value);
      && r.updated == o.updated + (if n > 0 then [key] else [])
      && r.notFound == o.notFound + (if n > 0 then [] else [key])
      && |r.requests| == |o.requests| + 2 * n
  {
    PlaceholderHitsCounted(slide.pageElements, key);
  }

  lemma {:induction false} SlideContentSizes(slide: Page, content: seq<(string, ContentValue)>)
    ensures var o := SlideContent(slide, content);
      && |o.updated| + |o.notFound| == |content|
      && |o.requests| == 2 * MatchedPlaceholders(slide, content)
  {
    if |content| > 0 {
      var init := content[..|content| - 1];
      SlideContentSizes(slide, init);
      SlideContentStepShape(slide, SlideContent(slide, init), content[|content| - 1].0, content[|content| - 1].1);
    }
  }

  lemma {:induction false} SlideContentFiled(slide: Page, content: seq<(string, ContentValue)>)
    ensures var o := SlideContent(slide, content);
      && (forall k :: k in o.updated ==> CountPlaceholders(slide.pageElements, k) > 0)
      && (forall k :: k in o.notFound ==> CountPlaceholders(slide.pageElements, k) == 0)
  {
    if |content| > 0 {
      var init := content[..|content| - 1];
      SlideContentFiled(slide, init);
      SlideContentStepShape(slide, SlideContent(slide, init), content[|content| - 1].0, content[|content| - 1].1);
    }
  }

  /** Lists that only grow keep covering the earlier keys; the last key needs covering on its own. */
  lemma KeysCoveredExtend(content: seq<(string, ContentValue)>, init: seq<(string, ContentValue)>,
                          u0: seq<string>, n0: seq<string>, u: seq<string>, n: seq<string>)
    requires |content| > 0 && init == content[..|content| - 1] && u0 <= u && n0 <= n
    requires forall i :: 0 <= i < |init| ==> init[i].0 in u0 || init[i].0 in n0
    requires content[|content| - 1].0 in u || content[|content| - 1].0 in n
    ensures forall i :: 0 <= i < |content| ==> content[i].0 in u || content[i].0 in n
  {
    forall i | 0 <= i < |content| - 1
      ensures content[i].0 in u || content[i].0 in n
    {
      assert init[i] == content[i];
      if content[i].0 in u0 {
        var j :| 0 <= j < |u0| && u0[j] == content[i].0;
        assert u[j] == u0[j];
      } else {
        var j :| 0 <= j < |n0| && n0[j] == content[i].0;
        assert n[j] == n0[j];
      }
    }
  }

  lemma {:induction false} SlideContentCovers(slide: Page, content: seq<(string, ContentValue)>)
    ensures var o := SlideContent(slide, content);
      forall i :: 0 <= i < |content| ==> content[i].0 in o.updated || content[i].0 in o.notFound
  {
    if |content| > 0 {
      var init := content[..|content| - 1];
      SlideContentCovers(slide, init);
      var o0, key := SlideContent(slide, init), content[|content| - 1].0;
      SlideContentStepShape(slide, o0, key, content[|content| - 1].1);
      var o := SlideContent(slide, content);
      assert o == SlideContentStep(slide, o0, key, content[|content| - 1].1);
      KeysCoveredExtend(content, init, o0.updated, o0.notFound, o.updated, o.notFound);
    }
  }

  /** The body of the loop of `update_slide_content`, for one entry. */
  method UpdateOneKey(slide: Page, o: SlideContentOutcome, key: string, value: ContentValue) returns (next: SlideContentOutcome)
    ensures next == SlideContentStep(slide, o, key, value)
  {
    var hits := FindPlaceholderElements(slide, key);
    if |hits| > 0 {
      var rs := ReplaceHits(hits, Rendered(value));
      next := o.(requests := o.requests + rs, updated := o.updated + [key]);
    } else {
      next := o.(notFound := o.notFound + [key]);
    }
  }

  /** The loop of `update_slide_content`. */
  method UpdateSlideContent(slide: Page, content: seq<(string, ContentValue)>) returns (o: SlideContentOutcome)
    ensures o == SlideContent(slide, content)
  {
    o := SlideContentOutcome([], [], []);
    var i := 0;
    while i < |content|
      invariant 0 <= i <= |content|
      invariant o == SlideContent(slide, content[..i])
    {
      assert content[..i + 1][..i] == content[..i];
      o := UpdateOneKey(slide, o, content[i].0, content[i].1);
      i := i + 1;
    }
    assert content[..i] == content;
  }

  // ---------------------------------------------------------------------
  // update_presentation_content
  // ---------------------------------------------------------------------

  /** `{slide.get("objectId", ""): slide for slide in slides}`. */
  function SlideMap(slides: seq<Page>): map<string, Page> {
    if |slides| == 0 then map[] else SlideMap(slides[..|slides| - 1])[SlideId(slides[|slides| - 1]) := slides[|slides| - 1]]
  }

  /** A slide id maps to the LAST slide carrying it, and only ids of slides are keys. */
  lemma {:induction false} SlideMapLastWins(slides: seq<Page>, id: string)
    ensures id in SlideMap(slides) <==> exists i :: 0 <= i < |slides| && SlideId(slides[i]) == id
    ensures id in SlideMap(slides) ==>
      (exists i :: 0 <= i < |slides| && SlideId(slides[i]) == id
        && SlideMap(slides)[id] == slides[i] && forall j :: i < j < |slides| ==> SlideId(slides[j]) != id)
  {
    if |slides| > 0 {
      var init, last := slides[..|slides| - 1], slides[|slides| - 1];
      SlideMapLastWins(init, id);
      assert SlideMap(slides) == SlideMap(init)[SlideId(last) := last];
      if SlideId(last) == id {
        assert SlideMap(slides)[id] == slides[|slides| - 1];
      } else if id in SlideMap(init) {
        var i :| 0 <= i < |init| && SlideId(init[i]) == id
          && SlideMap(init)[id] == init[i] && forall j :: i < j < |init| ==> SlideId(init[j]) != id;
        assert slides[i] == init[i];
        forall j | i < j < |slides|
          ensures SlideId(slides[j]) != id
        {
          if j < |init| {
            assert slides[j] == init[j];
          }
        }
      } else {
        forall i | 0 <= i < |slides|
          ensures SlideId(slides[i]) != id
        {
          if i < |init| {
            assert slides[i] == init[i];
          }
        }
      }
    }
  }

  /** The loop building `slide_map`. */
  method BuildSlideMap(slides: seq<Page>) returns (m: map<string, Page>)
    ensures m == SlideMap(slides)
  {
    m := map[];
    var i := 0;
    while i < |slides|
      invariant 0 <= i <= |slides|
      invariant m == SlideMap(slides[..i])
    {
      assert slides[..i + 1][..i] == slides[..i];
      m := m[SlideId(slides[i]) := slides[i]];
      i := i + 1;
    }
    assert slides[..i] == slides;
  }

  /**
   * One entry of `slides`: its `slide_id` value (`None` when the key is
   * absent) and all of its items in order, the `slide_id` item included.
   */
  datatype SlideSpec = SlideSpec(slideId: Option<string>, entries: seq<(string, ContentValue)>)

  const MISSING_SLIDE_ID: string := "Missing slide_id in slide specification"

  function SlideNotFound(id: string): string {
    "Slide " + id + " not found in presentation"
  }

  /** One item of a specification folded into its requests and its count of updated placeholders. */
  function SpecStep(slide: Page, acc: (seq<Request>, nat), key: string, value: ContentValue): (seq<Request>, nat) {
    if key == "slide_id" then acc
    else
      var hits := PlaceholderHits(slide.pageElements, key);
      (acc.0 + HitRequests(hits, Rendered(value)), acc.1 + |hits|)
  }

  /** The requests for one specification's items and how many placeholders they matched. */
  function SpecRequests(slide: Page, entries: seq<(string, ContentValue)>): (r: (seq<Request>, nat))
    ensures |r.0| == 2 * r.1
  {
    if |entries| == 0 then ([], 0)
    else SpecStep(slide, SpecRequests(slide, entries[..|entries| - 1]), entries[|entries| - 1].0, entries[|entries| - 1].1)
  }

  /** The per-item loop of one specification. */
  method CollectSpecRequests(slide: Page, entries: seq<(string, ContentValue)>) returns (rs: seq<Request>, n: nat)
    ensures (rs, n) == SpecRequests(slide, entries)
  {
    rs, n := [], 0;
    var i := 0;
    while i < |entries|
      invariant 0 <= i <= |entries|
      invariant (rs, n) == SpecRequests(slide, entries[..i])
    {
      assert entries[..i + 1][..i] == entries[..i];
      var key := entries[i].0;
      if key != "slide_id" {
        var hits := FindPlaceholderElements(slide, key);
        var more := ReplaceHits(hits, Rendered(entries[i].1));
        rs := rs + more;
        n := n + |hits|;
      }
      i := i + 1;
    }
    assert entries[..i] == entries;
  }

  /** The summary of `update_presentation_content` and the batch it sends. */
  datatype BulkOutcome = BulkOutcome(requests: seq<Request>, slidesUpdated: nat, placeholdersUpdated: nat, errors: seq<string>)

  /** One specification folded into the running outcome. */
  function BulkStep(m: map<string, Page>, o: BulkOutcome, spec: SlideSpec): BulkOutcome {
    if spec.slideId.None? || spec.slideId.value == "" then o.(errors := o.errors + [MISSING_SLIDE_ID])
    else if spec.slideId.value !in m then o.(errors := o.errors + [SlideNotFound(spec.slideId.value)])
    else
      var r := SpecRequests(m[spec.slideId.value], spec.entries);
      BulkOutcome(o.requests + r.0, o.slidesUpdated + (if r.1 > 0 then 1 else 0), o.placeholdersUpdated + r.1, o.errors)
  }

  /** `update_presentation_content` over the specifications, in order. */
  function BulkContent(m: map<string, Page>, specs: seq<SlideSpec>): BulkOutcome {
    if |specs| == 0 then BulkOutcome([], 0, 0, [])
    else BulkStep(m, BulkContent(m, specs[..|specs| - 1]), specs[|specs| - 1])
  }

  /** A specification is refused when its id is missing, empty, or names no slide. */
  predicate Refused(m: map<string, Page>, spec: SlideSpec) {
    spec.slideId.None? || spec.slideId.value == "" || spec.slideId.value !in m
  }

  function CountRefused(m: map<string, Page>, specs: seq<SlideSpec>): nat {
    if |specs| == 0 then 0 else CountRefused(m, specs[..|specs| - 1]) + (if Refused(m, specs[|specs| - 1]) then 1 else 0)
  }

  /**
   * Partial success: one error per refused specification and none for the
   * others (unmatched placeholder keys included), at most one updated slide
   * per accepted specification, and two requests per updated placeholder.
   */
  lemma {:induction false} BulkContentCounts(m: map<string, Page>, specs: seq<SlideSpec>)
    ensures var o := BulkContent(m, specs);
      && |o.errors| == CountRefused(m, specs)
      && o.slidesUpdated + |o.errors| <= |specs|
      && |o.requests| == 2 * o.placeholdersUpdated
      && o.slidesUpdated <= o.placeholdersUpdated
  {
    if |specs| > 0 {
      BulkContentCounts(m, specs[..|specs| - 1]);
    }
  }

  /** Two outcomes one after the other. */
  function Plus(x: BulkOutcome, y: BulkOutcome): BulkOutcome {
    BulkOutcome(x.requests + y.requests, x.slidesUpdated + y.slidesUpdated,
                x.placeholdersUpdated + y.placeholdersUpdated, x.errors + y.errors)
  }

  lemma BulkStepShift(m: map<string, Page>, x: BulkOutcome, y: BulkOutcome, spec: SlideSpec)
    ensures BulkStep(m, Plus(x, y), spec) == Plus(x, BulkStep(m, y, spec))
  {
    if !Refused(m, spec) {
      var r := SpecRequests(m[spec.slideId.value], spec.entries);
      assert (x.requests + y.requests) + r.0 == x.requests + (y.requests + r.0);
    } else {
      assert forall e: string :: (x.errors + y.errors) + [e] == x.errors + (y.errors + [e]);
    }
  }

  /** The specifications are processed independently: the outcome of a concatenation adds up. */
  lemma {:induction false} BulkContentAppend(m: map<string, Page>, a: seq<SlideSpec>, b: seq<SlideSpec>)
    ensures BulkContent(m, a + b) == Plus(BulkContent(m, a), BulkContent(m, b))
  {
    var oa := BulkContent(m, a);
    if |b| == 0 {
      assert a + b == a;
      assert oa.requests + [] == oa.requests;
      assert oa.errors + [] == oa.errors;
    } else {
      var front := b[..|b| - 1];
      var ab := a + b;
      assert ab[..|ab| - 1] == a + front;
      assert ab[|ab| - 1] == b[|b| - 1];
      BulkContentAppend(m, a, front);
      BulkStepShift(m, oa, BulkContent(m, front), b[|b| - 1]);
    }
  }

  /** The loop of `update_presentation_content`. */
  method UpdatePresentationContent(p: Presentation, specs: seq<SlideSpec>) returns (o: BulkOutcome)
    ensures o == BulkContent(SlideMap(p.slides), specs)
  {
    var m := BuildSlideMap(p.slides);
    o := BulkOutcome([], 0, 0, []);
    var i := 0;
    while i < |specs|
      invariant 0 <= i <= |specs|
      invariant o == BulkContent(m, specs[..i])
    {
      assert specs[..i + 1][..i] == specs[..i];
      var spec := specs[i];
      if spec.slideId.None? || spec.slideId.value == "" {
        o := o.(errors := o.errors + [MISSING_SLIDE_ID]);
      } else if spec.slideId.value !in m {
        o := o.(errors := o.errors + [SlideNotFound(spec.slideId.value)]);
      } else {
        var rs, n := CollectSpecRequests(m[spec.slideId.value], spec.entries);
        o := BulkOutcome(o.requests + rs, o.slidesUpdated + (if n > 0 then 1 else 0), o.placeholdersUpdated + n, o.errors);
      }
      i := i + 1;
    }
    assert specs[..i] == specs;
  }

  // ---------------------------------------------------------------------
  // Style requests
  // ---------------------------------------------------------------------

  /** The optional style arguments; `color` is a hex string. */
  datatype StyleArgs = StyleArgs(
    fontSizePt: Option<int>, bold: Option<bool>, italic: Option<bool>,
    fontFamily: Option<string>, color: Option<string>)

  /** The fields a text style request can set, in the order the builder appends them. */
  datatype StyleField = FontSize | Bold | Italic | FontFamily | ForegroundColor {
    function Name(): string {
      match this
      case FontSize => "fontSize"
      case Bold => "bold"
      case Italic => "italic"
      case FontFamily => "fontFamily"
      case ForegroundColor => "foregroundColor"
    }

    function Rank(): nat {
      match this
      case FontSize => 0
      case Bold => 1
      case Italic => 2
      case FontFamily => 3
      case ForegroundColor => 4
    }
  }

  /** The fields the arguments set. */
  function StyleFields(a: StyleArgs): seq<StyleField> {
    (if a.fontSizePt.Some? then [FontSize] else [])
      + (if a.bold.Some? then [Bold] else [])
      + (if a.italic.Some? then [Italic] else [])
      + (if a.fontFamily.Some? then [FontFamily] else [])
      + (if a.color.Some? then [ForegroundColor] else [])
  }

  /** The names that go into the `fields` mask. */
  function FieldNames(fields: seq<StyleField>): (names: seq<string>)
    ensures |names| == |fields|
  {
    seq(|fields|, i requires 0 <= i < |fields| => fields[i].Name())
  }

  /**
   * The mask lists exactly the arguments that are not `None` (so
   * `bold=False` is listed).
   */
  lemma StyleFieldsExact(a: StyleArgs)
    ensures FontSize in StyleFields(a) <==> a.fontSizePt.Some?
    ensures Bold in StyleFields(a) <==> a.bold.Some?
    ensures Italic in StyleFields(a) <==> a.italic.Some?
    ensures FontFamily in StyleFields(a) <==> a.fontFamily.Some?
    ensures ForegroundColor in StyleFields(a) <==> a.color.Some?
  {
  }

  /** The mask lists each field once, in the builder's order. */
  lemma StyleFieldsOrdered(a: StyleArgs)
    ensures RankSorted(StyleFields(a))
  {
    var q1: seq<StyleField> := if a.fontSizePt.Some? then [FontSize] else [];
    var q2 := ExtendSorted(q1, a.bold.Some?, Bold);
    var q3 := ExtendSorted(q2, a.italic.Some?, Italic);
    var q4 := ExtendSorted(q3, a.fontFamily.Some?, FontFamily);
    var q5 := ExtendSorted(q4, a.color.Some?, ForegroundColor);
    assert StyleFields(a) == q5;
  }

  /** Appending a field of a higher rank than all before it keeps the ranks sorted. */
  lemma ExtendSorted(q: seq<StyleField>, present: bool, f: StyleField) returns (r: seq<StyleField>)
    requires RankSorted(q) && RanksIn(q, 0, f.Rank())
    ensures r == q + (if present then [f] else [])
    ensures RankSorted(r) && RanksIn(r, 0, f.Rank() + 1)
  {
    r := q + (if present then [f] else []);
    RankSortedAppend(q, if present then [f] else [], f.Rank(), f.Rank() + 1);
  }


  /** Strictly increasing in the builder's order, hence without repetitions. */
  predicate RankSorted(fs: seq<StyleField>) {
    forall i, j :: 0 <= i < j < |fs| ==> fs[i].Rank() < fs[j].Rank()
  }

  /** Bounds on the ranks of a sequence of fields. */
  predicate RanksIn(fs: seq<StyleField>, low: nat, high: nat) {
    forall i :: 0 <= i < |fs| ==> low <= fs[i].Rank() < high
  }

  lemma RankSortedAppend(s: seq<StyleField>, t: seq<StyleField>, r: nat, high: nat)
    requires r <= high && RankSorted(s) && RankSorted(t) && RanksIn(s, 0, r) && RanksIn(t, r, high)
    ensures RankSorted(s + t) && RanksIn(s + t, 0, high)
  {
    var st := s + t;
    forall i, j | 0 <= i < j < |st|
      ensures st[i].Rank() < st[j].Rank()
    {
      if j < |s| {
        assert st[i] == s[i] && st[j] == s[j];
      } else if i >= |s| {
        assert st[i] == t[i - |s|] && st[j] == t[j - |s|];
      } else {
        assert st[i] == s[i] && st[j] == t[j - |s|];
      }
    }
    forall i | 0 <= i < |st|
      ensures 0 <= st[i].Rank() < high
    {
      if i < |s| {
        assert st[i] == s[i];
      } else {
        assert st[i] == t[i - |s|];
      }
    }
  }

  /** A colour argument that `hex_to_rgb` rejects. */
  predicate BadColor(a: StyleArgs) {
    a.color.Some? && HexToRgb(a.color.value).Err?
  }

  /** `_build_style_request`. */
  function StyleRequest(objectId: Option<string>, a: StyleArgs): (r: Result<Option<Request>, ColorError>)
    ensures r.Err? <==> BadColor(a)
    ensures r.Ok? ==> (r.value.None? <==> StyleFields(a) == [])
    ensures r.Ok? && r.value.Some? ==>
      var q := r.value.value;
      && q.UpdateTextStyle? && q.objectId == objectId
      && q.fields == Join(FieldNames(StyleFields(a)), ",")
      && q.style.fontSize == a.fontSizePt && q.style.bold == a.bold && q.style.italic == a.italic
      && q.style.fontFamily == a.fontFamily
      && q.style.foregroundColor == (if a.color.Some? then Some(HexToRgb(a.color.value).value) else None)
  {
    if BadColor(a) then Err(HexToRgb(a.color.value).error)
    else
      var foreground := if a.color.Some? then Some(HexToRgb(a.color.value).value) else None;
      var fields := StyleFields(a);
      if fields == [] then Ok(None)
      else Ok(Some(UpdateTextStyle(objectId, TextStyleUpdate(a.fontSizePt, a.bold, a.italic, a.fontFamily, foreground),
                                   Join(FieldNames(fields), ","))))
  }

  /** `bold=False` is a set field, not an absent one. */
  lemma BoldFalseIsStyled(objectId: Option<string>)
    ensures StyleRequest(objectId, StyleArgs(None, Some(false), None, None, None))
      == Ok(Some(UpdateTextStyle(objectId, TextStyleUpdate(None, Some(false), None, None, None), "bold")))
  {
    assert StyleFields(StyleArgs(None, Some(false), None, None, None)) == [Bold];
    assert FieldNames([Bold]) == ["bold"];
  }

  /** `_build_paragraph_style_request`. */
  function ParagraphRequest(objectId: Option<string>, alignment: Option<string>): (r: Option<Request>)
    ensures r.None? <==> alignment.None?
    ensures r.Some? ==>
      (r.value.UpdateParagraphStyle? && r.value.objectId == objectId
        && r.value.alignment == alignment.value && r.value.fields == "alignment")
  {
    if alignment.None? then None else Some(UpdateParagraphStyle(objectId, alignment.value, "alignment"))
  }

  function OptionToSeq(o: Option<Request>): (s: seq<Request>)
    ensures |s| == if o.Some? then 1 else 0
  {
    if o.Some? then [o.value] else []
  }

  // ---------------------------------------------------------------------
  // apply_text_style
  // ---------------------------------------------------------------------

  /** The summary of `apply_text_style` and the batch it sends. */
  datatype StyleOutcome = StyleOutcome(requests: seq<Request>, elementsStyled: nat, slidesAffected: seq<string>)

  /** `slide_ids is None or slide_id in slide_ids`. */
  predicate Selected(slide: Page, slideIds: Option<seq<string>>) {
    slideIds.None? || SlideId(slide) in slideIds.value
  }

  /** The requests for one element: the text style first, then the paragraph style. */
  function ElementStyleRequests(objectId: Option<string>, a: StyleArgs, alignment: Option<string>)
    : Result<seq<Request>, ColorError>
  {
    var style :- StyleRequest(objectId, a);
    Ok(OptionToSeq(style) + OptionToSeq(ParagraphRequest(objectId, alignment)))
  }

  /** How many requests each element gets: the same for every element. */
  function PerElement(a: StyleArgs, alignment: Option<string>): nat {
    (if StyleFields(a) != [] then 1 else 0) + (if alignment.Some? then 1 else 0)
  }

  /** The number of requests for `n` elements: `n` times `PerElement`. */
  function RequestsFor(n: nat, a: StyleArgs, alignment: Option<string>): nat {
    (if StyleFields(a) != [] then n else 0) + (if alignment.Some? then n else 0)
  }

  /**
   * The per-element requests fail exactly on a bad colour, otherwise number
   * `PerElement`, and put the text style before the paragraph style.
   */
  lemma ElementStyleRequestsShape(objectId: Option<string>, a: StyleArgs, alignment: Option<string>)
    ensures var r := ElementStyleRequests(objectId, a, alignment);
      && (r.Err? <==> BadColor(a))
      && (r.Ok? ==> |r.value| == PerElement(a, alignment))
      && (r.Ok? && |r.value| == 2 ==> r.value[0].UpdateTextStyle? && r.value[1].UpdateParagraphStyle?)
  {
  }

  /** Styling one hit, folded into the running requests and count. */
  function StyleHitStep(acc: (seq<Request>, nat), h: PlaceholderHit, a: StyleArgs, alignment: Option<string>)
    : Result<(seq<Request>, nat), ColorError>
  {
    var more :- ElementStyleRequests(h.objectId, a, alignment);
    Ok((acc.0 + more, acc.1 + (if |more| > 0 then 1 else 0)))
  }

  /** Styling the hits of one slide: the requests and the number of elements styled. */
  function StyleHits(hits: seq<PlaceholderHit>, a: StyleArgs, alignment: Option<string>)
    : Result<(seq<Request>, nat), ColorError>
  {
    if |hits| == 0 then Ok(([], 0))
    else
      var prev := StyleHits(hits[..|hits| - 1], a, alignment);
      if prev.Err? then prev else StyleHitStep(prev.value, hits[|hits| - 1], a, alignment)
  }

  lemma {:induction false} StyleHitsShape(hits: seq<PlaceholderHit>, a: StyleArgs, alignment: Option<string>)
    ensures var r := StyleHits(hits, a, alignment);
      && (r.Err? <==> |hits| > 0 && BadColor(a))
      && (r.Ok? ==>
            (r.value.1 == (if PerElement(a, alignment) > 0 then |hits| else 0)
              && |r.value.0| == RequestsFor(|hits|, a, alignment)))
  {
    if |hits| > 0 {
      StyleHitsShape(hits[..|hits| - 1], a, alignment);
      ElementStyleRequestsShape(hits[|hits| - 1].objectId, a, alignment);
    }
  }

  lemma {:induction false} StyleHitsErrPrefix(hits: seq<PlaceholderHit>, n: nat, a: StyleArgs, alignment: Option<string>)
    requires n <= |hits|
    requires StyleHits(hits[..n], a, alignment).Err?
    ensures StyleHits(hits, a, alignment) == StyleHits(hits[..n], a, alignment)
    decreases |hits| - n
  {
    if n < |hits| {
      assert hits[..n + 1][..n] == hits[..n];
      StyleHitsErrPrefix(hits, n + 1, a, alignment);
    } else {
      assert hits[..n] == hits;
    }
  }

  /** The inner loop of `apply_text_style`, over the hits of one slide. */
  method StyleElements(hits: seq<PlaceholderHit>, a: StyleArgs, alignment: Option<string>)
    returns (r: Result<(seq<Request>, nat), ColorError>)
    ensures r == StyleHits(hits, a, alignment)
  {
    var rs: seq<Request> := [];
    var n: nat := 0;
    var j := 0;
    while j < |hits|
      invariant 0 <= j <= |hits|
      invariant StyleHits(hits[..j], a, alignment) == Ok((rs, n))
    {
      assert hits[..j + 1][..j] == hits[..j];
      var more := ElementStyleRequests(hits[j].objectId, a, alignment);
      if more.Err? {
        r := Err(more.error);
        StyleHitsErrPrefix(hits, j + 1, a, alignment);
        return;
      }
      rs := rs + more.value;
      if |more.value| > 0 {
        n := n + 1;
      }
      j := j + 1;
    }
    assert hits[..j] == hits;
    r := Ok((rs, n));
  }

  /** One slide folded into the running outcome. */
  function StyleSlideStep(o: StyleOutcome, slide: Page, placeholderType: string, slideIds: Option<seq<string>>,
                          a: StyleArgs, alignment: Option<string>): Result<StyleOutcome, ColorError>
  {
    if !Selected(slide, slideIds) then Ok(o)
    else AddStyledHits(o, SlideId(slide), PlaceholderHits(slide.pageElements, placeholderType), a, alignment)
  }

  /** The hits of one selected slide folded into the running outcome. */
  function AddStyledHits(o: StyleOutcome, slideId: string, hits: seq<PlaceholderHit>,
                         a: StyleArgs, alignment: Option<string>): Result<StyleOutcome, ColorError>
  {
    if |hits| == 0 then Ok(o)
    else
      var r := StyleHits(hits, a, alignment);
      if r.Err? then Err(r.error)
      else Ok(StyleOutcome(o.requests + r.value.0, o.elementsStyled + r.value.1, o.slidesAffected + [slideId]))
  }

  /** `apply_text_style` over the slides, in order. */
  function StyleSlides(slides: seq<Page>, placeholderType: string, slideIds: Option<seq<string>>,
                       a: StyleArgs, alignment: Option<string>): Result<StyleOutcome, ColorError>
  {
    if |slides| == 0 then Ok(StyleOutcome([], 0, []))
    else
      var prev := StyleSlides(slides[..|slides| - 1], placeholderType, slideIds, a, alignment);
      if prev.Err? then prev else StyleSlideStep(prev.value, slides[|slides| - 1], placeholderType, slideIds, a, alignment)
  }

  /** The matching placeholders of the selected slides. */
  function SelectedHits(slides: seq<Page>, placeholderType: string, slideIds: Option<seq<string>>): nat {
    if |slides| == 0 then 0
    else
      var slide := slides[|slides| - 1];
      SelectedHits(slides[..|slides| - 1], placeholderType, slideIds)
        + (if Selected(slide, slideIds) then CountPlaceholders(slide.pageElements, placeholderType) else 0)
  }

  /** Selected slides with at least one matching placeholder, in order. */
  function AffectedSlides(slides: seq<Page>, placeholderType: string, slideIds: Option<seq<string>>): seq<string> {
    if |slides| == 0 then []
    else
      var slide := slides[|slides| - 1];
      AffectedSlides(slides[..|slides| - 1], placeholderType, slideIds)
        + (if Selected(slide, slideIds) && CountPlaceholders(slide.pageElements, placeholderType) > 0
           then [SlideId(slide)] else [])
  }

  lemma StyleSlideStepShape(o: StyleOutcome, slide: Page, placeholderType: string, slideIds: Option<seq<string>>,
                            a: StyleArgs, alignment: Option<string>)
    ensures var r := StyleSlideStep(o, slide, placeholderType, slideIds, a, alignment);
      var here := if Selected(slide, slideIds) then CountPlaceholders(slide.pageElements, placeholderType) else 0;
      && (r.Err? <==> here > 0 && BadColor(a))
      && (r.Ok? ==>
            (r.value.elementsStyled == o.elementsStyled + (if PerElement(a, alignment) > 0 then here else 0)
              && |r.value.requests| == |o.requests| + RequestsFor(here, a, alignment)
              && r.value.slidesAffected == o.slidesAffected + (if here > 0 then [SlideId(slide)] else [])))
  {
    if Selected(slide, slideIds) {
      var hits := PlaceholderHits(slide.pageElements, placeholderType);
      PlaceholderHitsCounted(slide.pageElements, placeholderType);
      AddStyledHitsShape(o, SlideId(slide), hits, a, alignment);
    } else {
      assert o.slidesAffected + [] == o.slidesAffected;
    }
  }

  /** One selected slide's hits: a failure on a bad colour, otherwise the counts grow by the hits. */
  lemma AddStyledHitsShape(o: StyleOutcome, slideId: string, hits: seq<PlaceholderHit>, a: StyleArgs, alignment: Option<string>)
    ensures var r := AddStyledHits(o, slideId, hits, a, alignment);
      && (r.Err? <==> |hits| > 0 && BadColor(a))
      && (r.Ok? ==>
            (r.value.elementsStyled == o.elementsStyled + (if PerElement(a, alignment) > 0 then |hits| else 0)
              && |r.value.requests| == |o.requests| + RequestsFor(|hits|, a, alignment)
              && r.value.slidesAffected == o.slidesAffected + (if |hits| > 0 then [slideId] else [])))
  {
    StyleHitsShape(hits, a, alignment);
    if |hits| == 0 {
      assert o.slidesAffected + [] == o.slidesAffected;
    }
  }

  /** `apply_text_style` fails exactly when the colour is bad and some selected slide has a match. */
  lemma {:induction false} StyleSlidesFails(slides: seq<Page>, placeholderType: string, slideIds: Option<seq<string>>,
                                            a: StyleArgs, alignment: Option<string>)
    ensures StyleSlides(slides, placeholderType, slideIds, a, alignment).Err?
      <==> SelectedHits(slides, placeholderType, slideIds) > 0 && BadColor(a)
  {
    if |slides| > 0 {
      var init := slides[..|slides| - 1];
      StyleSlidesFails(init, placeholderType, slideIds, a, alignment);
      var prev := StyleSlides(init, placeholderType, slideIds, a, alignment);
      if prev.Ok? {
        StyleSlideStepShape(prev.value, slides[|slides| - 1], placeholderType, slideIds, a, alignment);
      }
    }
  }

  /** Otherwise every matching placeholder of a selected slide is counted once if it gets any request. */
  lemma {:induction false} StyleSlidesStyled(slides: seq<Page>, placeholderType: string, slideIds: Option<seq<string>>,
                                             a: StyleArgs, alignment: Option<string>)
    requires StyleSlides(slides, placeholderType, slideIds, a, alignment).Ok?
    ensures StyleSlides(slides, placeholderType, slideIds, a, alignment).value.elementsStyled
      == if PerElement(a, alignment) > 0 then SelectedHits(slides, placeholderType, slideIds) else 0
  {
    if |slides| > 0 {
      var init := slides[..|slides| - 1];
      var prev := StyleSlides(init, placeholderType, slideIds, a, alignment);
      assert prev.Ok?;
      StyleSlidesStyled(init, placeholderType, slideIds, a, alignment);
      StyleSlideStepShape(prev.value, slides[|slides| - 1], placeholderType, slideIds, a, alignment);
    }
  }

  /** ... and every one of them gets the same number of requests. */
  lemma {:induction false} StyleSlidesRequests(slides: seq<Page>, placeholderType: string, slideIds: Option<seq<string>>,
                                               a: StyleArgs, alignment: Option<string>)
    requires StyleSlides(slides, placeholderType, slideIds, a, alignment).Ok?
    ensures |StyleSlides(slides, placeholderType, slideIds, a, alignment).value.requests|
      == RequestsFor(SelectedHits(slides, placeholderType, slideIds), a, alignment)
  {
    if |slides| > 0 {
      var init := slides[..|slides| - 1];
      var slide := slides[|slides| - 1];
      var prev := StyleSlides(init, placeholderType, slideIds, a, alignment);
      assert prev.Ok?;
      StyleSlidesRequests(init, placeholderType, slideIds, a, alignment);
      StyleSlideStepShape(prev.value, slide, placeholderType, slideIds, a, alignment);
      var before := SelectedHits(init, placeholderType, slideIds);
      var here := if Selected(slide, slideIds) then CountPlaceholders(slide.pageElements, placeholderType) else 0;
      assert SelectedHits(slides, placeholderType, slideIds) == before + here;
    }
  }

  /** Every selected slide with a match is listed as affected, even when no style was given. */
  lemma {:induction false} StyleSlidesAffected(slides: seq<Page>, placeholderType: string, slideIds: Option<seq<string>>,
                                               a: StyleArgs, alignment: Option<string>)
    requires StyleSlides(slides, placeholderType, slideIds, a, alignment).Ok?
    ensures StyleSlides(slides, placeholderType, slideIds, a, alignment).value.slidesAffected
      == AffectedSlides(slides, placeholderType, slideIds)
  {
    if |slides| > 0 {
      var init := slides[..|slides| - 1];
      var prev := StyleSlides(init, placeholderType, slideIds, a, alignment);
      assert prev.Ok?;
      StyleSlidesAffected(init, placeholderType, slideIds, a, alignment);
      StyleSlideStepShape(prev.value, slides[|slides| - 1], placeholderType, slideIds, a, alignment);
    }
  }

  lemma {:induction false} StyleSlidesErrPrefix(slides: seq<Page>, n: nat, placeholderType: string,
                                                slideIds: Option<seq<string>>, a: StyleArgs, alignment: Option<string>)
    requires n <= |slides|
    requires StyleSlides(slides[..n], placeholderType, slideIds, a, alignment).Err?
    ensures StyleSlides(slides, placeholderType, slideIds, a, alignment)
      == StyleSlides(slides[..n], placeholderType, slideIds, a, alignment)
    decreases |slides| - n
  {
    if n < |slides| {
      assert slides[..n + 1][..n] == slides[..n];
      StyleSlidesErrPrefix(slides, n + 1, placeholderType, slideIds, a, alignment);
    } else {
      assert slides[..n] == slides;
    }
  }

  /** Styling one more slide is one more step, unless an earlier slide failed. */
  lemma StyleSlidesExtends(slides: seq<Page>, k: nat, placeholderType: string,
                           slideIds: Option<seq<string>>, a: StyleArgs, alignment: Option<string>)
    requires k < |slides|
    requires StyleSlides(slides[..k], placeholderType, slideIds, a, alignment).Ok?
    ensures StyleSlides(slides[..k + 1], placeholderType, slideIds, a, alignment)
      == StyleSlideStep(StyleSlides(slides[..k], placeholderType, slideIds, a, alignment).value, slides[k], placeholderType, slideIds, a, alignment)
  {
    assert slides[..k + 1][..k] == slides[..k];
  }

  /** The body of the loop of `apply_text_style`, for one slide. */
  method StyleSlide(o: StyleOutcome, slide: Page, placeholderType: string, slideIds: Option<seq<string>>,
                    a: StyleArgs, alignment: Option<string>) returns (r: Result<StyleOutcome, ColorError>)
    ensures r == StyleSlideStep(o, slide, placeholderType, slideIds, a, alignment)
  {
    if !Selected(slide, slideIds) {
      r := Ok(o);
    } else {
      var hits := FindPlaceholderElements(slide, placeholderType);
      r := StyleSlideHits(o, SlideId(slide), hits, a, alignment);
    }
  }

  /** The hits of one selected slide: skipped when empty, else styled and the slide recorded. */
  method StyleSlideHits(o: StyleOutcome, slideId: string, hits: seq<PlaceholderHit>,
                        a: StyleArgs, alignment: Option<string>) returns (r: Result<StyleOutcome, ColorError>)
    ensures r == AddStyledHits(o, slideId, hits, a, alignment)
  {
    if |hits| == 0 {
      r := Ok(o);
    } else {
      var styled := StyleElements(hits, a, alignment);
      if styled.Err? {
        r := Err(styled.error);
      } else {
        r := Ok(StyleOutcome(o.requests + styled.value.0, o.elementsStyled + styled.value.1, o.slidesAffected + [slideId]));
      }
    }
  }

  /** The loop of `apply_text_style`. */
  method ApplyTextStyle(p: Presentation, placeholderType: string, slideIds: Option<seq<string>>,
                        a: StyleArgs, alignment: Option<string>) returns (r: Result<StyleOutcome, ColorError>)
    ensures r == StyleSlides(p.slides, placeholderType, slideIds, a, alignment)
  {
    var slides := p.slides;
    var o := StyleOutcome([], 0, []);
    var i := 0;
    while i < |slides|
      invariant 0 <= i <= |slides|
      invariant StyleSlides(slides[..i], placeholderType, slideIds, a, alignment) == Ok(o)
    {
      StyleSlidesExtends(slides, i, placeholderType, slideIds, a, alignment);
      var next := StyleSlide(o, slides[i], placeholderType, slideIds, a, alignment);
      if next.Err? {
        StyleSlidesErrPrefix(slides, i + 1, placeholderType, slideIds, a, alignment);
        return next;
      }
      o := next.value;
      i := i + 1;
    }
    assert slides[..i] == slides;
    r := Ok(o);
  }
}
