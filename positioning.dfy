/**
 * The request computation of the positioning tools: `position_element`,
 * `distribute_elements` and `align_elements`. Each takes the presentation
 * as fetched and yields the `updatePageElementTransform` requests of its
 * single batch, or the error that stops it before any batch is sent.
 */
module Positioning {
  import opened Wrappers
  import opened Units
  import opened Slides
  import opened Transforms

  // ---------------------------------------------------------------------
  // Finding elements
  // ---------------------------------------------------------------------

  /** Every page element of the slides, slide by slide, in document order. */
  function AllElements(slides: seq<Page>): seq<PageElement> {
    if |slides| == 0 then [] else AllElements(slides[..|slides| - 1]) + slides[|slides| - 1].pageElements
  }

  /** The first element of `es` whose `objectId` is `id`. */
  function FirstWithId(es: seq<PageElement>, id: string): (r: Option<PageElement>)
    ensures r.None? <==> forall k :: 0 <= k < |es| ==> !HasId(es[k], id)
    ensures r.Some? ==> exists k :: (0 <= k < |es| && es[k] == r.value && HasId(es[k], id)
      && forall k' :: 0 <= k' < k ==> !HasId(es[k'], id))
  {
    if |es| == 0 then None
    else if HasId(es[0], id) then Some(es[0])
    else
      var r := FirstWithId(es[1..], id);
      assert forall k :: 1 <= k < |es| ==> es[k] == es[1..][k - 1];
      r
  }

  /** The search of `position_element` and `get_element_info`: first match, slides in order. */
  function FindElement(slides: seq<Page>, id: string): Option<PageElement> {
    FirstWithId(AllElements(slides), id)
  }

  /** Searching a concatenation searches the left part first. */
  lemma {:induction false} FirstWithIdAppend(a: seq<PageElement>, b: seq<PageElement>, id: string)
    ensures FirstWithId(a + b, id) == if FirstWithId(a, id).Some? then FirstWithId(a, id) else FirstWithId(b, id)
  {
    if |a| > 0 {
      assert (a + b)[1..] == a[1..] + b;
      FirstWithIdAppend(a[1..], b, id);
    } else {
      assert a + b == b;
    }
  }

  /** The inner loop: scan one slide's elements, stop at the first match. */
  method FindInElements(es: seq<PageElement>, id: string) returns (found: Option<PageElement>)
    ensures found == FirstWithId(es, id)
  {
    found := None;
    var j := 0;
    while j < |es|
      invariant 0 <= j <= |es|
      invariant FirstWithId(es[..j], id) == None
    {
      FirstWithIdAppend(es[..j], [es[j]], id);
      assert es[..j + 1] == es[..j] + [es[j]];
      if HasId(es[j], id) {
        found := Some(es[j]);
        FirstWithIdAppend(es[..j + 1], es[j + 1..], id);
        assert es[..j + 1] + es[j + 1..] == es;
        return;
      }
      j := j + 1;
    }
    assert es[..j] == es;
  }

  lemma AllElementsStep(slides: seq<Page>, i: int)
    requires 0 <= i < |slides|
    ensures AllElements(slides[..i + 1]) == AllElements(slides[..i]) + slides[i].pageElements
  {
    assert slides[..i + 1][..i] == slides[..i];
  }

  /** The nested search loop with its two `break`s. */
  method LocateElement(slides: seq<Page>, id: string) returns (found: Option<PageElement>)
    ensures found == FindElement(slides, id)
  {
    found := None;
    var i := 0;
    while i < |slides|
      invariant 0 <= i <= |slides|
      invariant found.None? && FirstWithId(AllElements(slides[..i]), id) == None
    {
      found := FindInElements(slides[i].pageElements, id);
      AllElementsStep(slides, i);
      FirstWithIdAppend(AllElements(slides[..i]), slides[i].pageElements, id);
      if found.Some? {
        FindRestOfSlides(slides, i + 1, id);
        return;
      }
      i := i + 1;
    }
    assert slides[..i] == slides;
  }

  /** A match among the first `i` slides is the match of the whole presentation. */
  lemma {:induction false} FindRestOfSlides(slides: seq<Page>, i: int, id: string)
    requires 0 <= i <= |slides|
    requires FirstWithId(AllElements(slides[..i]), id).Some?
    ensures FindElement(slides, id) == FirstWithId(AllElements(slides[..i]), id)
    decreases |slides| - i
  {
    if i == |slides| {
      assert slides[..i] == slides;
    } else {
      AllElementsStep(slides, i);
      FirstWithIdAppend(AllElements(slides[..i]), slides[i].pageElements, id);
      FindRestOfSlides(slides, i + 1, id);
    }
  }

  // ---------------------------------------------------------------------
  // Slide size
  // ---------------------------------------------------------------------

  /**
   * The slide size the three tools use: the presentation's `pageSize` when
   * both of its magnitudes are present and non-zero, truncated; otherwise
   * the 16:9 preset.
   */
  function ResolveSlideSize(pageSize: Size): (s: SlideSize)
    ensures pageSize.WidthMagnitude() == 0.0 || pageSize.HeightMagnitude() == 0.0 ==> s == Widescreen
    ensures pageSize.WidthMagnitude() != 0.0 && pageSize.HeightMagnitude() != 0.0 ==>
      s == SlideSize(Trunc(pageSize.WidthMagnitude()), Trunc(pageSize.HeightMagnitude()))
  {
    var w, h := pageSize.WidthMagnitude(), pageSize.HeightMagnitude();
    if w != 0.0 && h != 0.0 then SlideSize(Trunc(w), Trunc(h)) else Widescreen
  }

  /** A page size built from whole, non-zero EMU values is used as is. */
  lemma ResolveBuiltSize(width: int, height: int)
    requires width != 0 && height != 0
    ensures ResolveSlideSize(BuildSize(width, height)) == SlideSize(width, height)
  {
  }

  /** A presentation without a page size is laid out on the 16:9 preset. */
  lemma ResolveMissingSize()
    ensures ResolveSlideSize(Size(None, None)) == Widescreen
    ensures ResolveSlideSize(Size(Some(Dimension(None, Some("EMU"))), Some(Dimension(Some(5.0), None)))) == Widescreen
  {
  }

  // ---------------------------------------------------------------------
  // position_element
  // ---------------------------------------------------------------------

  datatype PositionArgs = PositionArgs(
    x: Option<real>, y: Option<real>,                 // inches
    width: Option<real>, height: Option<real>,        // inches
    horizontal: Option<Align>, vertical: Option<Align>)

  /** Why a positioning tool stops before sending its batch. */
  datatype ToolError =
    | ElementNotFound(id: string)      // "Element {id} not found"
    | Geometry(cause: TransformError)  // `extract_element_bounds` raised
    | TooFewElements                   // "Need at least 2 elements to distribute"
    | NoElementsFound                  // "No elements found"

  /** The requests of the batch and the element's new position and size, in EMU. */
  datatype Placed = Placed(requests: seq<Request>, x: int, y: int, width: int, height: int)

  /** `new / current if current else 1`. */
  function ScaleFactor(target: int, current: int): (s: real)
    ensures current != 0 ==> s * current as real == target as real
    ensures current == 0 ==> s == 1.0
  {
    if current != 0 then target as real / current as real else 1.0
  }

  /** `inches_to_emu(v) if v is not None else current`. */
  function EmuOr(inches: Option<real>, current: int): int {
    if inches.Some? then InchesToEmu(inches.value) else current
  }

  /** The new position: alignment first (the other axis then 0), explicit coordinates override. */
  function TargetPosition(slide: SlideSize, current: Bounds, width: int, height: int, args: PositionArgs): (int, int) {
    if args.horizontal.Some? || args.vertical.Some? then
      var (ax, ay) := AlignmentPosition(slide, width, height, args.horizontal, args.vertical, 0);
      (EmuOr(args.x, ax), EmuOr(args.y, ay))
    else
      (EmuOr(args.x, current.x), EmuOr(args.y, current.y))
  }

  /**
   * What the batch of `position_element` does to an element whose current
   * bounds are `current`: one request moves it to (`x`, `y`); when a width
   * or height is given a second one scales it so that its size becomes
   * (`width`, `height`), keeping the new position and a scale of 1 on an
   * axis whose current extent is 0.
   */
  predicate Realizes(pl: Placed, id: string, current: Bounds, args: PositionArgs) {
    var resized := args.width.Some? || args.height.Some?;
    && |pl.requests| == (if resized then 2 else 1)
    && pl.requests[0] == UpdatePageElementTransform(id, Placement(pl.x, pl.y))
    && pl.width == EmuOr(args.width, current.width)
    && pl.height == EmuOr(args.height, current.height)
    && (resized ==>
          && pl.requests[1].UpdatePageElementTransform?
          && pl.requests[1].elementId == id
          && var t := pl.requests[1].transform;
          && t.shearX == 0.0 && t.shearY == 0.0
          && t.translateX == pl.x && t.translateY == pl.y
          && (current.width != 0 ==> t.scaleX * current.width as real == pl.width as real)
          && (current.width == 0 ==> t.scaleX == 1.0)
          && (current.height != 0 ==> t.scaleY * current.height as real == pl.height as real)
          && (current.height == 0 ==> t.scaleY == 1.0))
  }

  /** The requests for an element found with bounds `current`. */
  function Place(slide: SlideSize, current: Bounds, id: string, args: PositionArgs): (pl: Placed)
    ensures Realizes(pl, id, current, args)
    ensures (pl.x, pl.y) == TargetPosition(slide, current, pl.width, pl.height, args)
  {
    var width := EmuOr(args.width, current.width);
    var height := EmuOr(args.height, current.height);
    var (x, y) := TargetPosition(slide, current, width, height, args);
    var move := UpdatePageElementTransform(id, Placement(x, y));
    var resize := UpdatePageElementTransform(id, AffineTransform(
      ScaleFactor(width, current.width), ScaleFactor(height, current.height), 0.0, 0.0, x, y));
    var requests := if args.width.Some? || args.height.Some? then [move, resize] else [move];
    Placed(requests, x, y, width, height)
  }

  /** `position_element`. */
  function PositionElement(p: Presentation, id: string, args: PositionArgs): (r: Result<Placed, ToolError>)
    ensures FindElement(p.slides, id).None? ==> r == Err(ElementNotFound(id))
    ensures FindElement(p.slides, id).Some? ==>
      (r.Err? <==> ExtractElementBounds(FindElement(p.slides, id).value).Err?)
    ensures r.Ok? ==>
      var current := ExtractElementBounds(FindElement(p.slides, id).value).value;
      && Realizes(r.value, id, current, args)
      && (r.value.x, r.value.y)
         == TargetPosition(ResolveSlideSize(p.pageSize), current, r.value.width, r.value.height, args)
  {
    var found := FindElement(p.slides, id);
    if found.None? then Err(ElementNotFound(id))
    else
      var bounds := ExtractElementBounds(found.value);
      if bounds.Err? then Err(Geometry(bounds.error))
      else Ok(Place(ResolveSlideSize(p.pageSize), bounds.value, id, args))
  }

  /** An explicit coordinate always wins, with or without alignment. */
  lemma PositionExplicitWins(p: Presentation, id: string, args: PositionArgs)
    requires PositionElement(p, id, args).Ok?
    ensures args.x.Some? ==> PositionElement(p, id, args).value.x == InchesToEmu(args.x.value)
    ensures args.y.Some? ==> PositionElement(p, id, args).value.y == InchesToEmu(args.y.value)
  {
  }

  /** With no alignment, an axis without an explicit coordinate keeps the current one. */
  lemma PositionKeepsUnmentioned(p: Presentation, id: string, args: PositionArgs)
    requires PositionElement(p, id, args).Ok?
    requires args.horizontal.None? && args.vertical.None?
    ensures var current := ExtractElementBounds(FindElement(p.slides, id).value).value;
      && (args.x.None? ==> PositionElement(p, id, args).value.x == current.x)
      && (args.y.None? ==> PositionElement(p, id, args).value.y == current.y)
  {
  }

  /**
   * An aligned axis without an explicit coordinate lands inside the slide
   * when the element fits; with only the other axis aligned it goes to 0.
   */
  lemma {:induction false} PositionAlignedInsideSlide(p: Presentation, id: string, args: PositionArgs)
    requires PositionElement(p, id, args).Ok?
    requires args.horizontal.Some? && args.x.None?
    requires 0 <= PositionElement(p, id, args).value.width <= ResolveSlideSize(p.pageSize).widthEmu
    ensures 0 <= PositionElement(p, id, args).value.x
      <= ResolveSlideSize(p.pageSize).widthEmu - PositionElement(p, id, args).value.width
  {
    var r := PositionElement(p, id, args).value;
    var slide := ResolveSlideSize(p.pageSize);
    AxisPositionInBounds(slide.widthEmu, r.width, args.horizontal.value, 0);
  }

  /** Aligning only vertically sends the element to the left edge. */
  lemma PositionOtherAxisZero(p: Presentation, id: string, args: PositionArgs)
    requires PositionElement(p, id, args).Ok?
    requires args.horizontal.None? && args.vertical.Some? && args.x.None?
    ensures PositionElement(p, id, args).value.x == 0
  {
  }

  // ---------------------------------------------------------------------
  // distribute_elements
  // ---------------------------------------------------------------------

  /** An element taking part in a distribution or an alignment, with its bounds. */
  datatype Item = Item(id: string, bounds: Bounds)

  datatype Direction = Horizontal | Vertical

  /** `"even"`, or a fixed gap in inches. */
  datatype Spacing = Even | Fixed(inches: real)

  /** `page_element.get("objectId") in element_ids`. */
  predicate Named(e: PageElement, ids: seq<string>) {
    e.objectId.Some? && e.objectId.value in ids
  }

  /**
   * The elements named in `ids`, in document order, with their bounds; the
   * first of them whose bounds cannot be read stops the collection.
   */
  function NamedItems(es: seq<PageElement>, ids: seq<string>): Result<seq<Item>, TransformError> {
    if |es| == 0 then Ok([])
    else
      var last := es[|es| - 1];
      var prefix := NamedItems(es[..|es| - 1], ids);
      if prefix.Err? then Err(prefix.error)
      else if Named(last, ids) then
        var b := ExtractElementBounds(last);
        if b.Err? then Err(b.error) else Ok(prefix.value + [Item(last.objectId.value, b.value)])
      else Ok(prefix.value)
  }

  /**
   * The collection succeeds exactly when every named element has bounds,
   * yields only listed ids, and otherwise reports the failure of a named
   * element.
   */
  lemma {:induction false} NamedItemsMeaning(es: seq<PageElement>, ids: seq<string>)
    ensures NamedItems(es, ids).Ok? <==> forall k :: 0 <= k < |es| && Named(es[k], ids) ==> ExtractElementBounds(es[k]).Ok?
    ensures NamedItems(es, ids).Ok? ==> var items := NamedItems(es, ids).value;
      |items| <= |es| && forall k :: 0 <= k < |items| ==> items[k].id in ids
    ensures NamedItems(es, ids).Err? ==> exists k :: (0 <= k < |es| && Named(es[k], ids)
      && ExtractElementBounds(es[k]) == Err(NamedItems(es, ids).error))
  {
    if |es| > 0 {
      var init := es[..|es| - 1];
      NamedItemsMeaning(init, ids);
      assert forall k :: 0 <= k < |init| ==> init[k] == es[k];
      var prefix := NamedItems(init, ids);
      if prefix.Err? {
        var k :| 0 <= k < |init| && Named(init[k], ids) && ExtractElementBounds(init[k]) == Err(prefix.error);
        assert es[k] == init[k];
      }
    }
  }

  /** Once the collection has failed on a prefix, it fails the same way on the whole. */
  lemma {:induction false} NamedItemsErrPrefix(es: seq<PageElement>, n: nat, ids: seq<string>)
    requires n <= |es|
    requires NamedItems(es[..n], ids).Err?
    ensures NamedItems(es, ids) == NamedItems(es[..n], ids)
    decreases |es| - n
  {
    if n < |es| {
      assert es[..n + 1][..n] == es[..n];
      NamedItemsErrPrefix(es, n + 1, ids);
    } else {
      assert es[..n] == es;
    }
  }

  lemma {:induction false} AllElementsPrefix(slides: seq<Page>, i: nat)
    requires i <= |slides|
    ensures AllElements(slides[..i]) <= AllElements(slides)
    decreases |slides| - i
  {
    if i < |slides| {
      AllElementsStep(slides, i);
      AllElementsPrefix(slides, i + 1);
    } else {
      assert slides[..i] == slides;
    }
  }

  /** One more element: the collection extends by it, or fails on it. */
  lemma NamedItemsSnoc(prefix: seq<PageElement>, e: PageElement, ids: seq<string>)
    ensures NamedItems(prefix + [e], ids)
      == if NamedItems(prefix, ids).Err? then NamedItems(prefix, ids)
         else if !Named(e, ids) then NamedItems(prefix, ids)
         else if ExtractElementBounds(e).Err? then Err(ExtractElementBounds(e).error)
         else Ok(NamedItems(prefix, ids).value + [Item(e.objectId.value, ExtractElementBounds(e).value)])
  {
    assert (prefix + [e])[..|prefix|] == prefix;
  }

  /** A failure inside slide `i` is the failure of the whole collection. */
  lemma NamedItemsFailsInSlide(slides: seq<Page>, i: nat, j: nat, ids: seq<string>)
    requires i < |slides| && j <= |slides[i].pageElements|
    requires NamedItems(AllElements(slides[..i]) + slides[i].pageElements[..j], ids).Err?
    ensures NamedItems(AllElements(slides), ids)
      == NamedItems(AllElements(slides[..i]) + slides[i].pageElements[..j], ids)
  {
    var part := AllElements(slides[..i]) + slides[i].pageElements[..j];
    AllElementsStep(slides, i);
    AllElementsPrefix(slides, i + 1);
    var whole := AllElements(slides);
    assert whole[..|part|] == part;
    NamedItemsErrPrefix(whole, |part|, ids);
  }

  lemma PrefixSnoc<T>(done: seq<T>, es: seq<T>, j: nat)
    requires j < |es|
    ensures done + es[..j + 1] == (done + es[..j]) + [es[j]]
  {
    assert es[..j + 1] == es[..j] + [es[j]];
  }

  /** The collection loop of `distribute_elements`: slides, then their elements. */
  method CollectNamed(slides: seq<Page>, ids: seq<string>) returns (r: Result<seq<Item>, TransformError>)
    ensures r == NamedItems(AllElements(slides), ids)
  {
    var acc: seq<Item> := [];
    var i := 0;
    while i < |slides|
      invariant 0 <= i <= |slides|
      invariant NamedItems(AllElements(slides[..i]), ids) == Ok(acc)
    {
      var done := AllElements(slides[..i]);
      var es := slides[i].pageElements;
      var j := 0;
      assert done + es[..j] == done;
      while j < |es|
        invariant 0 <= j <= |es|
        invariant NamedItems(done + es[..j], ids) == Ok(acc)
      {
        var e := es[j];
        PrefixSnoc(done, es, j);
        NamedItemsSnoc(done + es[..j], e, ids);
        if Named(e, ids) {
          var b := ExtractElementBounds(e);
          if b.Err? {
            r := Err(b.error);
            NamedItemsFailsInSlide(slides, i, j + 1, ids);
            return;
          }
          acc := acc + [Item(e.objectId.value, b.value)];
        }
        j := j + 1;
      }
      assert es[..j] == es;
      AllElementsStep(slides, i);
      i := i + 1;
    }
    assert slides[..i] == slides;
    r := Ok(acc);
  }

  /** `{id_: i for i, id_ in enumerate(element_ids)}.get(id, 0)`. */
  function KeyOf(ids: seq<string>, id: string): nat {
    if |ids| == 0 then 0
    else if ids[|ids| - 1] == id then |ids| - 1
    else KeyOf(ids[..|ids| - 1], id)
  }

  /** The key of a listed id is its LAST index (later entries overwrite); an unlisted id gets 0. */
  lemma {:induction false} KeyOfIsLastIndex(ids: seq<string>, id: string)
    ensures id in ids ==> (KeyOf(ids, id) < |ids| && ids[KeyOf(ids, id)] == id
      && forall j :: KeyOf(ids, id) < j < |ids| ==> ids[j] != id)
    ensures id !in ids ==> KeyOf(ids, id) == 0
  {
    if |ids| > 0 && ids[|ids| - 1] != id {
      var init := ids[..|ids| - 1];
      KeyOfIsLastIndex(init, id);
      assert id in ids <==> id in init by {
        assert ids == init + [ids[|ids| - 1]];
      }
    }
  }

  /** A key is below the length of the list (or 0). */
  lemma {:induction false} KeyOfBound(ids: seq<string>, id: string)
    ensures KeyOf(ids, id) < KeyBound(ids)
  {
    if |ids| > 0 && ids[|ids| - 1] != id {
      KeyOfBound(ids[..|ids| - 1], id);
    }
  }

  /** Every key is below this bound. */
  function KeyBound(ids: seq<string>): nat {
    if |ids| == 0 then 1 else |ids|
  }

  /** The items whose key is `k`, in their original order. */
  function WithKey(items: seq<Item>, ids: seq<string>, k: nat): seq<Item> {
    if |items| == 0 then []
    else
      var last := items[|items| - 1];
      WithKey(items[..|items| - 1], ids, k) + (if KeyOf(ids, last.id) == k then [last] else [])
  }

  /** The items whose key is below `n`, in their original order. */
  function KeyBelow(items: seq<Item>, ids: seq<string>, n: nat): seq<Item> {
    if |items| == 0 then []
    else
      var last := items[|items| - 1];
      KeyBelow(items[..|items| - 1], ids, n) + (if KeyOf(ids, last.id) < n then [last] else [])
  }

  /** The key classes `0 .. n-1`, one after the other. */
  function ByKeyUpTo(items: seq<Item>, ids: seq<string>, n: nat): seq<Item> {
    if n == 0 then [] else ByKeyUpTo(items, ids, n - 1) + WithKey(items, ids, n - 1)
  }

  /** `elements.sort(key=lambda e: id_order.get(e["id"], 0))`: Python's sort is stable. */
  function OrderByIds(items: seq<Item>, ids: seq<string>): seq<Item> {
    ByKeyUpTo(items, ids, KeyBound(ids))
  }

  /** The keys never decrease along `out`. */
  predicate SortedByKey(out: seq<Item>, ids: seq<string>) {
    forall i, j :: 0 <= i < j < |out| ==> KeyOf(ids, out[i].id) <= KeyOf(ids, out[j].id)
  }

  /** The keys never decrease along the result. */
  lemma {:induction false} OrderByIdsSorted(items: seq<Item>, ids: seq<string>)
    ensures SortedByKey(OrderByIds(items, ids), ids)
  {
    ByKeyUpToSorted(items, ids, KeyBound(ids));
  }

  /** Every item of `r` has key `k`. */
  predicate KeysAre(r: seq<Item>, ids: seq<string>, k: nat) {
    forall i :: 0 <= i < |r| ==> KeyOf(ids, r[i].id) == k
  }

  /** Every item of `r` has a key below `n`. */
  predicate KeysBelow(r: seq<Item>, ids: seq<string>, n: nat) {
    forall i :: 0 <= i < |r| ==> KeyOf(ids, r[i].id) < n
  }

  lemma {:induction false} WithKeyKeys(items: seq<Item>, ids: seq<string>, k: nat)
    ensures KeysAre(WithKey(items, ids, k), ids, k)
  {
    if |items| > 0 {
      WithKeyKeys(items[..|items| - 1], ids, k);
    }
  }

  lemma {:induction false} ByKeyUpToKeys(items: seq<Item>, ids: seq<string>, n: nat)
    ensures KeysBelow(ByKeyUpTo(items, ids, n), ids, n)
  {
    if n > 0 {
      ByKeyUpToKeys(items, ids, n - 1);
      WithKeyKeys(items, ids, n - 1);
      var a, b := ByKeyUpTo(items, ids, n - 1), WithKey(items, ids, n - 1);
      var out: seq<Item> := a + b;
      assert ByKeyUpTo(items, ids, n) == out;
      forall i | 0 <= i < |out|
        ensures KeyOf(ids, out[i].id) < n
      {
        if i < |a| {
          assert out[i] == a[i];
          assert KeyOf(ids, a[i].id) < n - 1;
        } else {
          assert out[i] == b[i - |a|];
          assert KeyOf(ids, b[i - |a|].id) == n - 1;
        }
      }
    }
  }

  lemma {:induction false} ByKeyUpToSorted(items: seq<Item>, ids: seq<string>, n: nat)
    ensures SortedByKey(ByKeyUpTo(items, ids, n), ids)
  {
    if n > 0 {
      ByKeyUpToSorted(items, ids, n - 1);
      var a, b := ByKeyUpTo(items, ids, n - 1), WithKey(items, ids, n - 1);
      ByKeyUpToKeys(items, ids, n - 1);
      WithKeyKeys(items, ids, n - 1);
      var out: seq<Item> := a + b;
      assert ByKeyUpTo(items, ids, n) == out;
      forall i, j | 0 <= i < j < |out|
        ensures KeyOf(ids, out[i].id) <= KeyOf(ids, out[j].id)
      {
        if j < |a| {
          assert out[i] == a[i] && out[j] == a[j];
          assert KeyOf(ids, a[i].id) <= KeyOf(ids, a[j].id);
        } else if i < |a| {
          assert out[i] == a[i] && out[j] == b[j - |a|];
          assert KeyOf(ids, a[i].id) < n - 1;
          assert KeyOf(ids, b[j - |a|].id) == n - 1;
        } else {
          assert out[i] == b[i - |a|] && out[j] == b[j - |a|];
          assert KeyOf(ids, b[i - |a|].id) == n - 1;
          assert KeyOf(ids, b[j - |a|].id) == n - 1;
        }
      }
    }
  }

  lemma {:induction false} KeyBelowStep(items: seq<Item>, ids: seq<string>, n: nat)
    requires n > 0
    ensures multiset(KeyBelow(items, ids, n)) == multiset(KeyBelow(items, ids, n - 1)) + multiset(WithKey(items, ids, n - 1))
  {
    if |items| > 0 {
      KeyBelowStep(items[..|items| - 1], ids, n);
    }
  }

  lemma {:induction false} KeyBelowAll(items: seq<Item>, ids: seq<string>)
    ensures KeyBelow(items, ids, KeyBound(ids)) == items
  {
    if |items| > 0 {
      var init, last := items[..|items| - 1], items[|items| - 1];
      KeyOfBound(ids, last.id);
      KeyBelowAll(init, ids);
      assert KeyBelow(items, ids, KeyBound(ids)) == KeyBelow(init, ids, KeyBound(ids)) + [last];
      assert init + [last] == items;
    }
  }

  lemma ByKeyUpToUnfold(items: seq<Item>, ids: seq<string>, n: nat)
    requires n > 0
    ensures multiset(ByKeyUpTo(items, ids, n))
      == multiset(ByKeyUpTo(items, ids, n - 1)) + multiset(WithKey(items, ids, n - 1))
  {
  }

  lemma {:induction false} ByKeyUpToPerm(items: seq<Item>, ids: seq<string>, n: nat)
    ensures multiset(ByKeyUpTo(items, ids, n)) == multiset(KeyBelow(items, ids, n))
  {
    if n == 0 {
      KeyBelowNone(items, ids);
    } else {
      ByKeyUpToPerm(items, ids, n - 1);
      KeyBelowStep(items, ids, n);
      ByKeyUpToUnfold(items, ids, n);
    }
  }

  lemma {:induction false} KeyBelowNone(items: seq<Item>, ids: seq<string>)
    ensures KeyBelow(items, ids, 0) == []
  {
    if |items| > 0 {
      KeyBelowNone(items[..|items| - 1], ids);
    }
  }

  /** The ordering is a permutation of the collected elements. */
  lemma OrderByIdsPermutation(items: seq<Item>, ids: seq<string>)
    ensures multiset(OrderByIds(items, ids)) == multiset(items)
  {
    ByKeyUpToPerm(items, ids, KeyBound(ids));
    KeyBelowAll(items, ids);
  }

  lemma {:induction false} WithKeyAppend(a: seq<Item>, b: seq<Item>, ids: seq<string>, k: nat)
    ensures WithKey(a + b, ids, k) == WithKey(a, ids, k) + WithKey(b, ids, k)
  {
    if |b| == 0 {
      assert a + b == a;
    } else {
      assert (a + b)[..|a + b| - 1] == a + b[..|b| - 1];
      WithKeyAppend(a, b[..|b| - 1], ids, k);
    }
  }

  lemma {:induction false} WithKeyTwice(items: seq<Item>, ids: seq<string>, j: nat, k: nat)
    ensures WithKey(WithKey(items, ids, j), ids, k) == if j == k then WithKey(items, ids, k) else []
  {
    if |items| > 0 {
      var last := items[|items| - 1];
      WithKeyTwice(items[..|items| - 1], ids, j, k);
      WithKeyAppend(WithKey(items[..|items| - 1], ids, j), if KeyOf(ids, last.id) == j then [last] else [], ids, k);
      if KeyOf(ids, last.id) == j {
        assert WithKey([last], ids, k) == WithKey([], ids, k) + (if j == k then [last] else []) by {
          assert [last][..0] == [];
        }
      }
    }
  }

  lemma ByKeyUpToStableStep(items: seq<Item>, ids: seq<string>, n: nat, k: nat)
    requires n > 0
    requires WithKey(ByKeyUpTo(items, ids, n - 1), ids, k) == if k < n - 1 then WithKey(items, ids, k) else []
    ensures WithKey(ByKeyUpTo(items, ids, n), ids, k) == if k < n then WithKey(items, ids, k) else []
  {
    ByKeyUpToSplit(items, ids, n, k);
    WithKeyTwice(items, ids, n - 1, k);
    JoinAtMostOne(WithKey(ByKeyUpTo(items, ids, n), ids, k), WithKey(ByKeyUpTo(items, ids, n - 1), ids, k),
                  WithKey(WithKey(items, ids, n - 1), ids, k), WithKey(items, ids, k), k < n - 1, k == n - 1);
  }

  /** One more key splits the elements of key `k` into those seen before and those of the new key. */
  lemma ByKeyUpToSplit(items: seq<Item>, ids: seq<string>, n: nat, k: nat)
    requires n > 0
    ensures WithKey(ByKeyUpTo(items, ids, n), ids, k)
         == WithKey(ByKeyUpTo(items, ids, n - 1), ids, k) + WithKey(WithKey(items, ids, n - 1), ids, k)
  {
    WithKeyAppend(ByKeyUpTo(items, ids, n - 1), WithKey(items, ids, n - 1), ids, k);
  }

  /** Of two parts each either `w` or empty, at most one being `w`, the join is `w` or empty. */
  lemma JoinAtMostOne<T>(whole: seq<T>, x: seq<T>, y: seq<T>, w: seq<T>, inX: bool, inY: bool)
    requires !(inX && inY) && whole == x + y
    requires x == (if inX then w else []) && y == (if inY then w else [])
    ensures whole == if inX || inY then w else []
  {
    if inX {
      assert y == [];
    } else {
      assert x == [];
    }
  }

  lemma {:induction false} ByKeyUpToStable(items: seq<Item>, ids: seq<string>, n: nat, k: nat)
    ensures WithKey(ByKeyUpTo(items, ids, n), ids, k) == if k < n then WithKey(items, ids, k) else []
  {
    if n > 0 {
      ByKeyUpToStable(items, ids, n - 1, k);
      ByKeyUpToStableStep(items, ids, n, k);
    }
  }

  /** Stability: elements with equal keys keep their document order. */
  lemma OrderByIdsStable(items: seq<Item>, ids: seq<string>, k: nat)
    requires k < KeyBound(ids)
    ensures WithKey(OrderByIds(items, ids), ids, k) == WithKey(items, ids, k)
  {
    ByKeyUpToStable(items, ids, KeyBound(ids), k);
  }

  /** The extent of an element along the direction of distribution. */
  function Extent(b: Bounds, d: Direction): int {
    if d == Horizontal then b.width else b.height
  }

  /** `sum(e["width"] for e in elements)` (or heights). */
  function TotalExtent(items: seq<Item>, d: Direction): int {
    if |items| == 0 then 0 else TotalExtent(items[..|items| - 1], d) + Extent(items[|items| - 1].bounds, d)
  }

  /** The slide's extent along the direction. */
  function Span(slide: SlideSize, d: Direction): int {
    if d == Horizontal then slide.widthEmu else slide.heightEmu
  }

  /** The gap: the free space shared among `n + 1` gaps, or the fixed spacing in EMU. */
  function Gap(slide: SlideSize, items: seq<Item>, d: Direction, spacing: Spacing): (g: real)
    ensures spacing.Even? ==>
      (|items| + 1) as real * g + TotalExtent(items, d) as real == Span(slide, d) as real
  {
    match spacing
    case Even => (Span(slide, d) - TotalExtent(items, d)) as real / (|items| + 1) as real
    case Fixed(inches) => InchesToEmu(inches) as real
  }

  /** The request placing `item` at `along` on the direction's axis, the other axis kept. */
  function Moved(item: Item, d: Direction, along: int): Request {
    UpdatePageElementTransform(item.id,
      if d == Horizontal then Placement(along, item.bounds.y) else Placement(item.bounds.x, along))
  }

  /** Where the `i`-th element starts: `i + 1` gaps and the extents of the elements before it. */
  function Offset(items: seq<Item>, d: Direction, step: int, i: nat): int
    requires i <= |items|
  {
    (i + 1) * step + TotalExtent(items[..i], d)
  }

  /** The requests of a distribution, in closed form. */
  function DistributedRequests(items: seq<Item>, d: Direction, gap: real): (rs: seq<Request>)
    ensures |rs| == |items|
  {
    seq(|items|, i requires 0 <= i < |items| => Moved(items[i], d, Offset(items, d, Trunc(gap), i)))
  }

  /** The placement loop: `current` starts at `int(gap)` and advances by extent plus `int(gap)`. */
  method LayOut(items: seq<Item>, d: Direction, gap: real) returns (requests: seq<Request>)
    ensures requests == DistributedRequests(items, d, gap)
  {
    var step := Trunc(gap);
    var current := step;
    requests := [];
    var i := 0;
    while i < |items|
      invariant 0 <= i <= |items| && |requests| == i
      invariant current == Offset(items, d, step, i)
      invariant forall k :: 0 <= k < i ==> requests[k] == Moved(items[k], d, Offset(items, d, step, k))
    {
      requests := requests + [Moved(items[i], d, current)];
      OffsetStep(items, d, step, i);
      current := current + Extent(items[i].bounds, d) + step;
      i := i + 1;
    }
  }

  /** The next element starts one extent and one gap after this one. */
  lemma OffsetStep(items: seq<Item>, d: Direction, step: int, i: nat)
    requires i < |items|
    ensures Offset(items, d, step, i + 1) == Offset(items, d, step, i) + Extent(items[i].bounds, d) + step
  {
    assert items[..i + 1][..i] == items[..i];
    assert (i + 2) * step == (i + 1) * step + step;
  }

  /** Consecutive elements are separated by exactly `int(gap)`, the first one starts there. */
  lemma {:induction false} DistributionGaps(items: seq<Item>, d: Direction, step: int, i: nat)
    requires i + 1 < |items|
    ensures Offset(items, d, step, 0) == step
    ensures Offset(items, d, step, i + 1) - (Offset(items, d, step, i) + Extent(items[i].bounds, d)) == step
  {
    assert items[..i + 1][..i] == items[..i];
    assert items[..0] == [];
  }

  /**
   * With even spacing and room to spare, the last element ends at least
   * `int(gap)` before the far edge of the slide: truncation only shrinks gaps.
   */
  lemma {:induction false} EvenDistributionFits(slide: SlideSize, items: seq<Item>, d: Direction)
    requires |items| > 0
    requires TotalExtent(items, d) <= Span(slide, d)
    ensures var step := Trunc(Gap(slide, items, d, Even));
      Offset(items, d, step, |items| - 1) + Extent(items[|items| - 1].bounds, d) + step <= Span(slide, d)
  {
    var g := Gap(slide, items, d, Even);
    var step := Trunc(g);
    var n := |items|;
    assert 0.0 <= g;
    assert items[..n - 1] == items[..n][..n - 1];
    assert items[..n] == items;
    assert (n + 1) as real * step as real <= (n + 1) as real * g;
  }

  /** `distribute_elements`: the batch it sends, or why it sends none. */
  function Distribution(p: Presentation, ids: seq<string>, d: Direction, spacing: Spacing): (r: Result<seq<Request>, ToolError>)
    ensures var collected := NamedItems(AllElements(p.slides), ids);
      && (collected.Err? ==> r == Err(Geometry(collected.error)))
      && (r == Err(TooFewElements) <==> collected.Ok? && |collected.value| < 2)
      && (r.Ok? ==> collected.Ok? && 2 <= |r.value| == |collected.value|)
      && (r.Ok? ==> var items := OrderByIds(collected.value, ids);
            r.value == DistributedRequests(items, d, Gap(ResolveSlideSize(p.pageSize), items, d, spacing)))
  {
    var collected := NamedItems(AllElements(p.slides), ids);
    if collected.Err? then Err(Geometry(collected.error))
    else
      var items := OrderByIds(collected.value, ids);
      OrderByIdsPermutation(collected.value, ids);
      assert |items| == |collected.value| by {
        assert |multiset(items)| == |multiset(collected.value)|;
      }
      if |items| < 2 then Err(TooFewElements)
      else Ok(DistributedRequests(items, d, Gap(ResolveSlideSize(p.pageSize), items, d, spacing)))
  }

  /** The body of `distribute_elements` between fetching and sending. */
  method DistributeElements(p: Presentation, ids: seq<string>, d: Direction, spacing: Spacing)
    returns (r: Result<seq<Request>, ToolError>)
    ensures r == Distribution(p, ids, d, spacing)
  {
    var slide := ResolveSlideSize(p.pageSize);
    var collected := CollectNamed(p.slides, ids);
    if collected.Err? {
      return Err(Geometry(collected.error));
    }
    var items := OrderByIds(collected.value, ids);
    OrderByIdsPermutation(collected.value, ids);
    assert |multiset(items)| == |multiset(collected.value)|;
    if |items| < 2 {
      return Err(TooFewElements);
    }
    var requests := LayOut(items, d, Gap(slide, items, d, spacing));
    r := Ok(requests);
  }

  // ---------------------------------------------------------------------
  // align_elements
  // ---------------------------------------------------------------------

  datatype Alignment = Left | HCenter | Right | Top | Middle | Bottom {
    predicate IsHorizontal() { this == Left || this == HCenter || this == Right }
  }

  /** `"first"`, `"last"` or `"slide"`. */
  datatype Reference = First | Last | SlideRef

  /**
   * The elements of `align_elements`, for one id: in every slide, the first
   * element carrying it (the `break` only leaves the slide's loop). The
   * first element whose bounds cannot be read stops the collection.
   */
  function ItemsForId(slides: seq<Page>, id: string): Result<seq<Item>, TransformError> {
    if |slides| == 0 then Ok([])
    else
      var prefix := ItemsForId(slides[..|slides| - 1], id);
      var found := FirstWithId(slides[|slides| - 1].pageElements, id);
      if prefix.Err? then prefix
      else if found.None? then prefix
      else
        var b := ExtractElementBounds(found.value);
        if b.Err? then Err(b.error) else Ok(prefix.value + [Item(id, b.value)])
  }

  /** All ids in the order given. */
  function AlignItems(slides: seq<Page>, ids: seq<string>): Result<seq<Item>, TransformError> {
    if |ids| == 0 then Ok([])
    else
      var prefix := AlignItems(slides, ids[..|ids| - 1]);
      var more := ItemsForId(slides, ids[|ids| - 1]);
      if prefix.Err? then prefix
      else if more.Err? then Err(more.error)
      else Ok(prefix.value + more.value)
  }

  /**
   * The items of one id are exactly the slides holding it, in slide order:
   * one item per such slide, every one of them carrying the id.
   */
  lemma {:induction false} ItemsForIdMeaning(slides: seq<Page>, id: string)
    ensures ItemsForId(slides, id).Ok? ==> var items := ItemsForId(slides, id).value;
      && |items| == CountHolding(slides, id)
      && forall k :: 0 <= k < |items| ==> items[k].id == id
  {
    if |slides| > 0 {
      ItemsForIdMeaning(slides[..|slides| - 1], id);
    }
  }

  /** How many slides hold an element with this id. */
  function CountHolding(slides: seq<Page>, id: string): nat {
    if |slides| == 0 then 0
    else CountHolding(slides[..|slides| - 1], id) + (if FirstWithId(slides[|slides| - 1].pageElements, id).Some? then 1 else 0)
  }

  /** The collection keeps the order of `ids`: the items of a later id come after those of an earlier one. */
  lemma {:induction false} AlignItemsFollowIds(slides: seq<Page>, ids: seq<string>)
    requires AlignItems(slides, ids).Ok?
    ensures |ids| > 0 ==> (AlignItems(slides, ids[..|ids| - 1]).Ok? && ItemsForId(slides, ids[|ids| - 1]).Ok?
      && AlignItems(slides, ids).value
         == AlignItems(slides, ids[..|ids| - 1]).value + ItemsForId(slides, ids[|ids| - 1]).value)
    ensures |ids| == 0 ==> AlignItems(slides, ids).value == []
    ensures forall k :: 0 <= k < |AlignItems(slides, ids).value| ==> AlignItems(slides, ids).value[k].id in ids
  {
    if |ids| > 0 {
      var init := ids[..|ids| - 1];
      AlignItemsFollowIds(slides, init);
      ItemsForIdMeaning(slides, ids[|ids| - 1]);
      var a, b := AlignItems(slides, init).value, ItemsForId(slides, ids[|ids| - 1]).value;
      var out: seq<Item> := a + b;
      forall k | 0 <= k < |out|
        ensures out[k].id in ids
      {
        if k < |a| {
          assert out[k] == a[k] && a[k].id in init;
        } else {
          assert out[k] == b[k - |a|];
        }
      }
    }
  }

  lemma {:induction false} ItemsForIdErrPrefix(slides: seq<Page>, n: nat, id: string)
    requires n <= |slides|
    requires ItemsForId(slides[..n], id).Err?
    ensures ItemsForId(slides, id) == ItemsForId(slides[..n], id)
    decreases |slides| - n
  {
    if n < |slides| {
      assert slides[..n + 1][..n] == slides[..n];
      ItemsForIdErrPrefix(slides, n + 1, id);
    } else {
      assert slides[..n] == slides;
    }
  }

  lemma {:induction false} AlignItemsErrPrefix(slides: seq<Page>, ids: seq<string>, n: nat)
    requires n <= |ids|
    requires AlignItems(slides, ids[..n]).Err?
    ensures AlignItems(slides, ids) == AlignItems(slides, ids[..n])
    decreases |ids| - n
  {
    if n < |ids| {
      assert ids[..n + 1][..n] == ids[..n];
      AlignItemsErrPrefix(slides, ids, n + 1);
    } else {
      assert ids[..n] == ids;
    }
  }

  /** A failure while collecting the `i`-th id is the failure of the whole collection. */
  lemma AlignItemsFailsAt(slides: seq<Page>, ids: seq<string>, i: nat, s: nat)
    requires i < |ids| && s <= |slides|
    requires AlignItems(slides, ids[..i]).Ok?
    requires ItemsForId(slides[..s], ids[i]).Err?
    ensures AlignItems(slides, ids) == Err(ItemsForId(slides[..s], ids[i]).error)
  {
    ItemsForIdErrPrefix(slides, s, ids[i]);
    assert ids[..i + 1][..i] == ids[..i];
    AlignItemsErrPrefix(slides, ids, i + 1);
  }

  /** The collection loop of `align_elements`: ids, then slides, then the slide's elements. */
  method CollectAligned(slides: seq<Page>, ids: seq<string>) returns (r: Result<seq<Item>, TransformError>)
    ensures r == AlignItems(slides, ids)
  {
    var acc: seq<Item> := [];
    var i := 0;
    while i < |ids|
      invariant 0 <= i <= |ids|
      invariant AlignItems(slides, ids[..i]) == Ok(acc)
    {
      var id := ids[i];
      var more: seq<Item> := [];
      var s := 0;
      while s < |slides|
        invariant 0 <= s <= |slides|
        invariant ItemsForId(slides[..s], id) == Ok(more)
      {
        assert slides[..s + 1][..s] == slides[..s];
        var found := FindInElements(slides[s].pageElements, id);
        if found.Some? {
          var b := ExtractElementBounds(found.value);
          if b.Err? {
            r := Err(b.error);
            AlignItemsFailsAt(slides, ids, i, s + 1);
            return;
          }
          more := more + [Item(id, b.value)];
        }
        s := s + 1;
      }
      assert slides[..s] == slides;
      assert ids[..i + 1][..i] == ids[..i];
      acc := acc + more;
      i := i + 1;
    }
    assert ids[..i] == ids;
    r := Ok(acc);
  }

  /** The element every other one is aligned to. */
  function ReferenceBounds(items: seq<Item>, reference: Reference, slide: SlideSize): Bounds
    requires |items| > 0
  {
    match reference
    case First => items[0].bounds
    case Last => items[|items| - 1].bounds
    case SlideRef => Bounds(0, 0, slide.widthEmu, slide.heightEmu)
  }

  /** The new (x, y) of an element; centres use floor division by 2. */
  function AlignedPosition(b: Bounds, alignment: Alignment, ref: Bounds): (pos: (int, int))
    ensures alignment.IsHorizontal() ==> pos.1 == b.y
    ensures !alignment.IsHorizontal() ==> pos.0 == b.x
    ensures alignment == Right ==> pos.0 + b.width == ref.x + ref.width
    ensures alignment == Bottom ==> pos.1 + b.height == ref.y + ref.height
    ensures alignment == HCenter ==> pos.0 + b.width / 2 == ref.x + ref.width / 2
    ensures alignment == Middle ==> pos.1 + b.height / 2 == ref.y + ref.height / 2
  {
    match alignment
    case Left => (ref.x, b.y)
    case HCenter => (ref.x + ref.width / 2 - b.width / 2, b.y)
    case Right => (ref.x + ref.width - b.width, b.y)
    case Top => (b.x, ref.y)
    case Middle => (b.x, ref.y + ref.height / 2 - b.height / 2)
    case Bottom => (b.x, ref.y + ref.height - b.height)
  }

  /** The reference element does not move, whatever the alignment. */
  lemma ReferenceStaysPut(b: Bounds, alignment: Alignment)
    ensures AlignedPosition(b, alignment, b) == (b.x, b.y)
  {
  }

  /** Aligning an aligned element again to the same reference moves it no further. */
  lemma AlignIdempotent(b: Bounds, alignment: Alignment, ref: Bounds)
    ensures var (x, y) := AlignedPosition(b, alignment, ref);
      AlignedPosition(Bounds(x, y, b.width, b.height), alignment, ref) == (x, y)
  {
  }

  /** Centring on the slide leaves margins on both sides that differ by at most one EMU. */
  lemma {:induction false} CenterOnSlideBalanced(b: Bounds, slide: SlideSize)
    ensures var x := AlignedPosition(b, HCenter, Bounds(0, 0, slide.widthEmu, slide.heightEmu)).0;
      -1 <= (slide.widthEmu - (x + b.width)) - x <= 1
  {
    var w, W := b.width, slide.widthEmu;
    assert W == 2 * (W / 2) + W % 2;
    assert w == 2 * (w / 2) + w % 2;
  }

  /** The requests of an alignment, one per collected element, in collection order. */
  function AlignedRequests(items: seq<Item>, alignment: Alignment, ref: Bounds): (rs: seq<Request>)
    ensures |rs| == |items|
  {
    seq(|items|, i requires 0 <= i < |items| =>
      var (x, y) := AlignedPosition(items[i].bounds, alignment, ref);
      UpdatePageElementTransform(items[i].id, Placement(x, y)))
  }

  /** `align_elements`: the batch it sends, or why it sends none. */
  function AlignmentBatch(p: Presentation, ids: seq<string>, alignment: Alignment, reference: Reference)
    : (r: Result<seq<Request>, ToolError>)
    ensures var collected := AlignItems(p.slides, ids);
      && (collected.Err? ==> r == Err(Geometry(collected.error)))
      && (r == Err(NoElementsFound) <==> collected.Ok? && |collected.value| == 0)
      && (r.Ok? ==> collected.Ok? && 1 <= |r.value| == |collected.value|)
      && (r.Ok? ==> r.value == AlignedRequests(collected.value, alignment,
                                 ReferenceBounds(collected.value, reference, ResolveSlideSize(p.pageSize))))
  {
    var collected := AlignItems(p.slides, ids);
    if collected.Err? then Err(Geometry(collected.error))
    else if |collected.value| < 1 then Err(NoElementsFound)
    else
      var ref := ReferenceBounds(collected.value, reference, ResolveSlideSize(p.pageSize));
      Ok(AlignedRequests(collected.value, alignment, ref))
  }

  /** The body of `align_elements` between fetching and sending. */
  method AlignElements(p: Presentation, ids: seq<string>, alignment: Alignment, reference: Reference)
    returns (r: Result<seq<Request>, ToolError>)
    ensures r == AlignmentBatch(p, ids, alignment, reference)
  {
    var slide := ResolveSlideSize(p.pageSize);
    var collected := CollectAligned(p.slides, ids);
    if collected.Err? {
      return Err(Geometry(collected.error));
    }
    var items := collected.value;
    if |items| < 1 {
      return Err(NoElementsFound);
    }
    var ref := ReferenceBounds(items, reference, slide);
    var requests: seq<Request> := [];
    var i := 0;
    while i < |items|
      invariant 0 <= i <= |items| && |requests| == i
      invariant forall k :: 0 <= k < i ==> requests[k] == AlignedRequests(items, alignment, ref)[k]
    {
      var request := AlignOne(items[i], alignment, ref);
      requests := requests + [request];
      i := i + 1;
    }
    assert requests == AlignedRequests(items, alignment, ref);
    r := Ok(requests);
  }

  /** The body of the alignment loop: the new position of one element. */
  method AlignOne(item: Item, alignment: Alignment, ref: Bounds) returns (request: Request)
    ensures var (x, y) := AlignedPosition(item.bounds, alignment, ref);
      request == UpdatePageElementTransform(item.id, Placement(x, y))
  {
    var b := item.bounds;
    var newX, newY := b.x, b.y;
    match alignment {
      case Left => newX := ref.x;
      case HCenter => newX := ref.x + ref.width / 2 - b.width / 2;
      case Right => newX := ref.x + ref.width - b.width;
      case Top => newY := ref.y;
      case Middle => newY := ref.y + ref.height / 2 - b.height / 2;
      case Bottom => newY := ref.y + ref.height - b.height;
    }
    request := UpdatePageElementTransform(item.id, Placement(newX, newY));
  }

  /** With the first element as reference, the first request leaves it where it is. */
  lemma AlignFirstKeepsReference(p: Presentation, ids: seq<string>, alignment: Alignment)
    requires AlignmentBatch(p, ids, alignment, First).Ok?
    ensures var items := AlignItems(p.slides, ids).value;
      AlignmentBatch(p, ids, alignment, First).value[0]
        == UpdatePageElementTransform(items[0].id, Placement(items[0].bounds.x, items[0].bounds.y))
  {
    ReferenceStaysPut(AlignItems(p.slides, ids).value[0].bounds, alignment);
  }
}
