# google-slides-mcp in Dafny

google-slides-mcp is a Model Context Protocol server. It lets an agent edit
Google Slides presentations in human units (inches, points, hex colours,
alignment keywords, placeholder types) rather than in the Slides API's EMU
lengths and affine transforms. This project models the deterministic core of
the server: the computations that turn a tool call, and the presentation JSON
it has already fetched, into the request list of its single `batchUpdate`
call and the summary the tool returns, apart from the inch positions listed
under "Left out".

The modules follow the source files:

- `Units`, `Colors` and `Transforms` cover the utilities: unit conversions, hex colour parsing and formatting, slide presets, alignment, transforms and element bounds.
- `Slides` holds the fragment of the API's JSON that the tools read, and the requests they emit.
- `Positioning`, `Content`, `Creation` and `Utility` cover the tools that position, fill, style, create and inspect page elements.
- `SlideCategories`, `Analysis` and `AnalysisReport` cover `analyze_presentation`:
  - the first-match categorisation;
  - the per-slide aggregation loop with its in-place colour and font registries;
  - the placeholder patterns, recommendations and key-slide choice.
- `Templates` and `Drive` cover template copying, placeholder replacement, presentation search, and the `files.copy` and `files.list` parameters.
- `TokenStore` covers the in-memory credential store, the file store's choice of file name, and the store factory.
- `Strings` and `Wrappers` hold the few Python string operations used, and Option and Result values. Result stands in for a raised exception.

Conventions:

- A network call is not modelled. What it returns is a parameter, and what a tool sends is the value its method returns.
- An id drawn from `uuid4` is a parameter.
- State the source updates in place is a class with `modifies` clauses:
  - the colour and font registries of the analysis;
  - the in-memory token store and the file store's directory.
- Loops that build lists become methods with loop invariants. Each method is proved equal to a specification function, and the properties are proved about that function.

Two copies of `templates.py` exist. Their `replace_placeholders` and `replace_placeholder_with_image` are the same code, so one set of members models both:

- the older file, `src/google_slides_mcp/tools/templates.py`, at lines 86-105 and 137-154;
- the newer file, under `packages/python/`, whose lines the table cites.

Only the older `copy_template` differs; it is `Templates.LegacyCopyTemplate`.

Three behaviours of the code are modelled as written:

- Conversions into EMU truncate toward zero with `int()`. They do not round to the nearest EMU.
- `extract_element_bounds` reports the raw size magnitudes. It does not multiply them by the transform's scale.
- `rgb_to_hex` rounds with Python's `round()`, so ties go to the even integer.

## Model

| member | source | states |
|---|---|---|
| Strings.Strip | packages/python/src/google_slides_mcp/tools/content.py:39 | `str.strip()`: the result is a contiguous part of the text with no whitespace at either end, and is empty iff the text is all whitespace |
| Strings.Upper | src/google_slides_mcp/tools/creation.py:69 | `str.upper()` maps the text character by character and keeps its length |
| Units.Trunc | src/google_slides_mcp/utils/units.py:34 | Python's `int()` on a float: the result is the integer next to `x` on the side of zero, within one unit |
| Units.PixelsToEmu | src/google_slides_mcp/utils/units.py:99-111 | fails exactly when `dpi == 0` (Python's ZeroDivisionError); otherwise the result is `int(pixels * 914400 / dpi)`, whichever branch ran |
| Units.EmuToPixels | src/google_slides_mcp/utils/units.py:114-126 | the 96-dpi fast path and the general branch both give `emu * dpi / 914400` |
| Units.ToEmuRoundTrip | src/google_slides_mcp/utils/units.py:25-96 | converting any unit into EMU and back loses less than one EMU, always toward zero |
| Units.FromEmuRoundTrip | src/google_slides_mcp/utils/units.py:25-96 | converting EMU out to a unit and back in gives the same EMU |
| Units.InchesRoundTrip | src/google_slides_mcp/utils/units.py:25-46 | `0 <= v - emu_to_inches(inches_to_emu(v)) < 1/914400` for `v >= 0`, and a second conversion changes nothing |
| Units.PointsRoundTrip | src/google_slides_mcp/utils/units.py:49-72 | `0 <= p - emu_to_points(points_to_emu(p)) < 1/12700` for `p >= 0` |
| Units.CmRoundTrip | src/google_slides_mcp/utils/units.py:75-96 | `0 <= c - emu_to_cm(cm_to_emu(c)) < 1/360000` for `c >= 0` |
| Units.ConversionExamples | tests/test_utils/test_units.py:20-54 | the unit tests' values: 1 in = 914400, 0.5 in = 457200, 10 in = 9144000, 72 pt = 72*12700, 12700 EMU = 1 pt, 5.5 in and 18 pt round-trip exactly |
| Units.PixelFastPathAgrees | src/google_slides_mcp/utils/units.py:109-111 | at 96 dpi the fast path `int(px * 9525)` is the general formula, since 9525 * 96 == 914400 |
| Units.SlideConstantsInInches | src/google_slides_mcp/utils/units.py:15-22 | the slide constants are 10, 5.625, 7.5 and 6.25 inches exactly |
| Colors.StripHashes | src/google_slides_mcp/utils/colors.py:22 | `lstrip("#")`: the result is a suffix of the input, every dropped character is `#`, and the result does not start with `#` |
| Colors.ExpandShorthand | src/google_slides_mcp/utils/colors.py:24-26 | a 3-character body has each character doubled; any other length is left alone |
| Colors.PairValue | src/google_slides_mcp/utils/colors.py:32-34 | a two-digit hex group is a byte, below 256 |
| Colors.HexToRgb | src/google_slides_mcp/utils/colors.py:8-38 | succeeds iff the body after `#` stripping and shorthand expansion is six hex digits; every channel then lies in [0, 1] |
| Colors.RoundHalfEven | src/google_slides_mcp/utils/colors.py:63-65 | Python's `round()`: the result is within one half of the argument |
| Colors.RgbToHex | src/google_slides_mcp/utils/colors.py:41-67 | succeeds iff every channel, missing ones read as 0, lies in [0, 1]; the result is `#` and six upper-case hex digits |
| Colors.HexTriple | src/google_slides_mcp/utils/colors.py:67 | three bytes print as six upper-case hex digits |
| Colors.ByteOf | src/google_slides_mcp/utils/colors.py:63-65 | `int(round(c * 255))` of a channel in range is a byte within one half of `c * 255` |
| Colors.RgbaToSolidFill | src/google_slides_mcp/utils/colors.py:70-86 | fails exactly when `hex_to_rgb` fails, and otherwise embeds its result and the given alpha unchanged |
| Colors.ParseBody | src/google_slides_mcp/utils/colors.py:22-38 | a valid six-digit body parses to its three pairs over 255, with or without one leading `#` |
| Colors.ByteOfParsed | src/google_slides_mcp/utils/colors.py:32-65 | a byte read as `v / 255` rounds back to `v` |
| Colors.PairPrintsBack | src/google_slides_mcp/utils/colors.py:32-67 | two upper-case digits read as a byte print back as the same two digits |
| Colors.PrintBytes | src/google_slides_mcp/utils/colors.py:63-67 | channels that are whole bytes over 255 print as those bytes |
| Colors.HexRoundTrip | tests/test_utils/test_colors.py:65-71 | for every upper-case `#RRGGBB`, `rgb_to_hex(hex_to_rgb(h)) == h` |
| Colors.ParsePrinted | src/google_slides_mcp/utils/colors.py:22-67 | a printed byte triple parses back to the same bytes over 255 |
| Colors.PrintedPairs | src/google_slides_mcp/utils/colors.py:32-67 | each two-digit group of a printed triple reads back as its byte |
| Colors.RgbRoundTrip | src/google_slides_mcp/utils/colors.py:41-67 | for every in-range colour, printing then parsing moves each channel by at most 1/510 |
| Colors.ChannelWithinHalfStep | src/google_slides_mcp/utils/colors.py:63-65 | a channel rounded to a byte and read back moves by at most 1/510 |
| Colors.HashIsOptional | src/google_slides_mcp/utils/colors.py:22 | a leading `#` never changes the result (`"FF0000"` and `"#FF0000"` agree) |
| Colors.ShorthandExpands | src/google_slides_mcp/utils/colors.py:24-26 | a 3-digit body parses like its doubled 6-digit form |
| Colors.RedBody | tests/test_utils/test_colors.py:11-15 | `FF0000` is a valid body whose channels are 1, 0, 0 |
| Colors.ParseExamples | tests/test_utils/test_colors.py:11-20 | `"FF0000"` and `"#FF0000"` both parse to red = 1, green = 0, blue = 0 |
| Colors.ShorthandExample | tests/test_utils/test_colors.py:22-25 | `"#F00"` parses to pure red |
| Colors.RejectExamples | tests/test_utils/test_colors.py:32-37 | `"invalid"`, `"#GG0000"` and `"ZZZZZZ"` are refused |
| Colors.RangeExamples | src/google_slides_mcp/utils/colors.py:57-60 | channels 1.5, -0.1 and 2.0 are refused, naming the first channel out of range |
| Colors.FormatExample | tests/test_utils/test_colors.py:41-59 | red = 1 with the other channels missing prints as `#FF0000` |
| Colors.UpperDigitRoundTrip | src/google_slides_mcp/utils/colors.py:32-67 | an upper-case hex digit's value prints back as that digit |
| Colors.DigitValueRoundTrip | src/google_slides_mcp/utils/colors.py:32-67 | a printed digit reads back as its value |
| Colors.HexValue | src/google_slides_mcp/utils/colors.py:32-34 | one hex digit is worth less than 16 |
| Transforms.PresetsInInches | src/google_slides_mcp/utils/transforms.py:18-45 | the three presets are exactly `16:9`, `4:3` and `16:10`, all 10 inches wide and 5.625, 7.5 and 6.25 inches high |
| Transforms.AxisPosition | src/google_slides_mcp/utils/transforms.py:89-107 | left/top sits `margin` from the start edge, right/bottom sits `margin` from the end edge, center leaves gaps on both sides that differ by at most one EMU, and no alignment gives 0 |
| Transforms.CenterPosition | src/google_slides_mcp/utils/transforms.py:48-65 | the gaps left and right (and above and below) of the centred element differ by at most one EMU |
| Transforms.CenterIsCenterAlignment | src/google_slides_mcp/utils/transforms.py:63-103 | `calculate_center_position` equals `calculate_alignment_position` with center on both axes, for any margin |
| Transforms.AxesIndependent | src/google_slides_mcp/utils/transforms.py:89-109 | changing the horizontal alignment never moves `y`, and changing the vertical alignment never moves `x` |
| Transforms.AxisPositionInBounds | src/google_slides_mcp/utils/transforms.py:89-107 | if `0 <= size <= extent` and `0 <= margin <= extent - size`, every alignment keeps the element inside `[0, extent - size]` |
| Transforms.StartEndMirror | src/google_slides_mcp/utils/transforms.py:90-95 | left and right with the same margin are mirror images: their positions add up to `extent - size` |
| Transforms.BuildAbsoluteTransform | src/google_slides_mcp/utils/transforms.py:112-149 | fails iff the rotation is non-zero; otherwise the shears are 0 and scale and translation are passed through unchanged |
| Transforms.AbsoluteTransformDefaults | src/google_slides_mcp/utils/transforms.py:112-118 | with the default scale 1 and rotation 0 the transform is the plain placement at `(x, y)` |
| Transforms.ExtractElementBounds | src/google_slides_mcp/utils/transforms.py:168-191 | fails iff the transform or the size is missing or empty; otherwise each field is truncated, a missing one read as 0 |
| Transforms.BoundsOfBuiltGeometry | src/google_slides_mcp/utils/transforms.py:141-191 | an element carrying a transform and a size built here reports back exactly that translation and that size |
| Transforms.BoundsIgnoreScale | src/google_slides_mcp/utils/transforms.py:186-189 | changing the scale factors never changes the bounds: the size is the raw magnitude |
| Positioning.FirstWithId | packages/python/src/google_slides_mcp/tools/positioning.py:72-76 | None iff no element of the list has the id; otherwise the element returned has the id and no earlier one does |
| Positioning.FirstWithIdAppend | packages/python/src/google_slides_mcp/tools/positioning.py:72-78 | searching a concatenation finds the match of the left part if there is one, and otherwise the match of the right part |
| Positioning.FindInElements | packages/python/src/google_slides_mcp/tools/positioning.py:73-76 | the inner loop with its `break` returns the first element of the slide carrying the id |
| Positioning.LocateElement | packages/python/src/google_slides_mcp/tools/positioning.py:71-78 | the nested loop with its two `break`s returns the first element carrying the id, slides in order |
| Positioning.FindRestOfSlides | packages/python/src/google_slides_mcp/tools/positioning.py:71-78 | once a match is found among the first `i` slides, the later slides do not change the result |
| Positioning.AllElementsStep | packages/python/src/google_slides_mcp/tools/positioning.py:72-73 | the elements of one more slide come after those of the slides before it |
| Positioning.ResolveSlideSize | packages/python/src/google_slides_mcp/tools/positioning.py:93-101 | a page size with a missing or zero width or height gives the 16:9 preset; with both non-zero the slide is their `int()` truncations |
| Positioning.ResolveBuiltSize | packages/python/src/google_slides_mcp/tools/positioning.py:93-101 | a page size of whole, non-zero EMU values is used as it is |
| Positioning.ResolveMissingSize | packages/python/src/google_slides_mcp/tools/positioning.py:93-101 | a presentation without a page size, or with a magnitude missing, is laid out on the 16:9 preset |
| Positioning.ScaleFactor | packages/python/src/google_slides_mcp/tools/positioning.py:142-145 | `new / current` scales the current extent to exactly the new one; a current extent of 0 gives scale 1 |
| Positioning.Place | packages/python/src/google_slides_mcp/tools/positioning.py:83-155 | the requests move the element to the target position and, when a width or height is given, scale it to the new size |
| Positioning.PositionElement | packages/python/src/google_slides_mcp/tools/positioning.py:67-155 | an unknown id is ElementNotFound before any batch; unreadable bounds are an error; otherwise the requests move the element to the computed position and give it the requested size |
| Positioning.PositionExplicitWins | packages/python/src/google_slides_mcp/tools/positioning.py:112-119 | an explicit `x` or `y` is always the new coordinate, with or without alignment |
| Positioning.PositionKeepsUnmentioned | packages/python/src/google_slides_mcp/tools/positioning.py:117-119 | with no alignment, an axis without an explicit coordinate keeps the current position |
| Positioning.PositionAlignedInsideSlide | packages/python/src/google_slides_mcp/tools/positioning.py:104-111 | an aligned axis without an explicit coordinate keeps an element that fits inside the slide |
| Positioning.PositionOtherAxisZero | packages/python/src/google_slides_mcp/tools/positioning.py:104-111 | when only the vertical alignment is given and no `x`, the element goes to `x = 0` |
| Positioning.NamedItemsMeaning | packages/python/src/google_slides_mcp/tools/positioning.py:218-231 | collection succeeds iff every named element has readable bounds; it yields only listed ids; a failure is the failure of a named element |
| Positioning.NamedItemsErrPrefix | packages/python/src/google_slides_mcp/tools/positioning.py:218-231 | once collection has failed on a prefix, the rest of the elements do not change the error |
| Positioning.NamedItemsSnoc | packages/python/src/google_slides_mcp/tools/positioning.py:218-231 | one more element extends the collection by itself when it is named, or fails on its bounds |
| Positioning.NamedItemsFailsInSlide | packages/python/src/google_slides_mcp/tools/positioning.py:218-231 | a failure inside slide `i` is the failure of the whole collection |
| Positioning.AllElementsPrefix | packages/python/src/google_slides_mcp/tools/positioning.py:218-219 | the elements of the first `i` slides are a prefix of all the elements |
| Positioning.CollectNamed | packages/python/src/google_slides_mcp/tools/positioning.py:218-231 | the loop over slides and their elements collects exactly the named elements, with their bounds, in document order |
| Positioning.KeyOfIsLastIndex | packages/python/src/google_slides_mcp/tools/positioning.py:233-234 | the sort key of a listed id is its LAST index in `element_ids` (later entries overwrite); an unlisted id gets 0 |
| Positioning.KeyOfBound | packages/python/src/google_slides_mcp/tools/positioning.py:233 | every key is below the length of `element_ids` |
| Positioning.OrderByIdsSorted | packages/python/src/google_slides_mcp/tools/positioning.py:234 | the keys never decrease along the sorted list |
| Positioning.OrderByIdsPermutation | packages/python/src/google_slides_mcp/tools/positioning.py:234 | sorting is a permutation of the collected elements |
| Positioning.OrderByIdsStable | packages/python/src/google_slides_mcp/tools/positioning.py:234 | Python's sort is stable: elements with equal keys keep their document order |
| Positioning.WithKeyKeys | packages/python/src/google_slides_mcp/tools/positioning.py:234 | the elements of one key class all have that key |
| Positioning.ByKeyUpToKeys | packages/python/src/google_slides_mcp/tools/positioning.py:234 | the first `n` key classes together hold only keys below `n` |
| Positioning.ByKeyUpToSorted | packages/python/src/google_slides_mcp/tools/positioning.py:234 | the key classes laid out one after another are sorted by key |
| Positioning.ByKeyUpToPerm | packages/python/src/google_slides_mcp/tools/positioning.py:234 | the first `n` key classes together are a permutation of the elements whose key is below `n` |
| Positioning.ByKeyUpToStable | packages/python/src/google_slides_mcp/tools/positioning.py:234 | picking one key class out of the sorted list gives that class in document order |
| Positioning.Gap | packages/python/src/google_slides_mcp/tools/positioning.py:243-249 | the even gap times `n + 1`, plus the extents of the elements, is exactly the slide's extent |
| Positioning.DistributedRequests | packages/python/src/google_slides_mcp/tools/positioning.py:251-298 | one request per element, in sorted order |
| Positioning.LayOut | packages/python/src/google_slides_mcp/tools/positioning.py:251-298 | the placement loop gives exactly the closed-form requests: element `i` starts after `i + 1` truncated gaps and the extents before it, and its other axis is unchanged |
| Positioning.DistributionGaps | packages/python/src/google_slides_mcp/tools/positioning.py:251-270 | the first element starts at `int(gap)`, and consecutive elements are exactly `int(gap)` apart |
| Positioning.EvenDistributionFits | packages/python/src/google_slides_mcp/tools/positioning.py:245-270 | with even spacing and elements that fit, the last one ends at least `int(gap)` before the far edge of the slide |
| Positioning.Distribution | packages/python/src/google_slides_mcp/tools/positioning.py:206-303 | a bounds error of a named element is the result; `TooFewElements` exactly when fewer than two elements are collected; otherwise one request per collected element, and the batch is the placements of the elements in id order at the running offsets with the even or fixed gap on the resolved slide |
| Positioning.DistributeElements | packages/python/src/google_slides_mcp/tools/positioning.py:206-303 | the collection, sort and placement loops together compute exactly the distribution |
| Positioning.ItemsForIdMeaning | packages/python/src/google_slides_mcp/tools/positioning.py:358-372 | for one id there is one element per slide that holds it, in slide order, and every one carries the id |
| Positioning.AlignItemsFollowIds | packages/python/src/google_slides_mcp/tools/positioning.py:358-372 | collection follows the order of `element_ids`: the elements of a later id come after those of an earlier one, and only listed ids appear |
| Positioning.ItemsForIdErrPrefix | packages/python/src/google_slides_mcp/tools/positioning.py:358-372 | once collection for one id has failed on some slides, the later slides do not change the error |
| Positioning.AlignItemsErrPrefix | packages/python/src/google_slides_mcp/tools/positioning.py:358-372 | once collection has failed on some ids, the later ids do not change the error |
| Positioning.AlignItemsFailsAt | packages/python/src/google_slides_mcp/tools/positioning.py:358-372 | a failure while collecting the `i`-th id is the failure of the whole collection |
| Positioning.CollectAligned | packages/python/src/google_slides_mcp/tools/positioning.py:358-372 | the loop over ids, slides and elements, with the `break` that leaves only a slide's loop, computes exactly the collection |
| Positioning.AlignedPosition | packages/python/src/google_slides_mcp/tools/positioning.py:394-413 | a horizontal alignment keeps `y` and a vertical one keeps `x`; right and bottom edges meet the reference's; centres agree up to floor division by 2 |
| Positioning.ReferenceStaysPut | packages/python/src/google_slides_mcp/tools/positioning.py:394-413 | an element aligned to itself does not move, whatever the alignment |
| Positioning.AlignIdempotent | packages/python/src/google_slides_mcp/tools/positioning.py:394-413 | aligning an aligned element again to the same reference moves it no further |
| Positioning.CenterOnSlideBalanced | packages/python/src/google_slides_mcp/tools/positioning.py:383-402 | centring on the slide leaves margins on both sides that differ by at most one EMU |
| Positioning.AlignedRequests | packages/python/src/google_slides_mcp/tools/positioning.py:394-431 | one request per collected element, in collection order |
| Positioning.AlignmentBatch | packages/python/src/google_slides_mcp/tools/positioning.py:374-436 | a bounds error of a named element is the result; `NoElementsFound` exactly when no element is collected; otherwise one request per collected element, each the element moved by the alignment rule against the first, the last or the slide as reference |
| Positioning.AlignElements | packages/python/src/google_slides_mcp/tools/positioning.py:341-436 | the collection loop and the request loop compute exactly the alignment batch |
| Positioning.AlignOne | packages/python/src/google_slides_mcp/tools/positioning.py:395-424 | the request for one element moves it to the position the alignment rule computes from the reference bounds, keeping the other coordinate |
| Positioning.AlignFirstKeepsReference | packages/python/src/google_slides_mcp/tools/positioning.py:378-431 | with the first element as reference, the first request leaves it where it is |
| Content.CurrentText | packages/python/src/google_slides_mcp/tools/content.py:31-39 | the runs concatenated and stripped: the text neither starts nor ends with whitespace |
| Content.PlaceholderHitsAppend | packages/python/src/google_slides_mcp/tools/content.py:26-42 | searching a concatenation finds the matches of the first part, then those of the second: document order is kept |
| Content.PlaceholderHitsMeaning | packages/python/src/google_slides_mcp/tools/content.py:26-42 | one entry per element whose placeholder type equals the argument exactly; an empty result iff there is no such element; every entry carries the type |
| Content.PlaceholderHitsStep | packages/python/src/google_slides_mcp/tools/content.py:26-42 | one more element adds its own match, if any, at the end |
| Content.FindPlaceholderElements | packages/python/src/google_slides_mcp/tools/content.py:15-42 | the loop over the slide's elements computes exactly the search |
| Content.AllPlaceholdersAgree | packages/python/src/google_slides_mcp/tools/content.py:55-71 | an entry for exactly the elements with a non-empty placeholder type, each with that type |
| Content.FindAllPlaceholders | packages/python/src/google_slides_mcp/tools/content.py:45-71 | the loop over the slide's elements computes exactly the search for every typed placeholder |
| Content.ReplacementRequests | packages/python/src/google_slides_mcp/tools/content.py:74-87 | exactly two requests, a delete of all text and an insert, both aimed at the same object |
| Content.ReplacementReplaces | packages/python/src/google_slides_mcp/tools/content.py:74-87 | whatever the placeholder held before, applying the pair leaves it holding exactly the new text |
| Content.HitRequests | packages/python/src/google_slides_mcp/tools/content.py:228-233 | two requests per matching placeholder |
| Content.ReplaceHits | packages/python/src/google_slides_mcp/tools/content.py:229-233 | the loop appends one replacement pair per match, in match order |
| Content.SlideContentPartition | packages/python/src/google_slides_mcp/tools/content.py:218-241 | every key lands in `updated` if the slide has a placeholder of that type and in `not_found` otherwise; the batch holds two requests per matching placeholder |
| Content.UpdateOneKey | packages/python/src/google_slides_mcp/tools/content.py:219-235 | one mapping entry: list values are joined with newlines, then replaced or recorded as not found |
| Content.UpdateSlideContent | packages/python/src/google_slides_mcp/tools/content.py:179-241 | the loop over the mapping computes exactly the outcome |
| Content.SlideMapLastWins | packages/python/src/google_slides_mcp/tools/content.py:280-282 | a slide id is a key iff some slide carries it, and it maps to the LAST slide carrying it |
| Content.BuildSlideMap | packages/python/src/google_slides_mcp/tools/content.py:279-282 | the loop computes exactly that map |
| Content.SpecRequests | packages/python/src/google_slides_mcp/tools/content.py:301-318 | two requests per updated placeholder of one specification |
| Content.CollectSpecRequests | packages/python/src/google_slides_mcp/tools/content.py:301-318 | the per-item loop skips `slide_id` and computes exactly those requests and that count |
| Content.BulkContentCounts | packages/python/src/google_slides_mcp/tools/content.py:288-322 | one error per refused specification and none for the others; at most one updated slide per accepted specification; two requests per updated placeholder |
| Content.BulkStepShift | packages/python/src/google_slides_mcp/tools/content.py:288-322 | a specification's effect does not depend on what came before it |
| Content.BulkContentAppend | packages/python/src/google_slides_mcp/tools/content.py:288-322 | specifications are processed independently: the outcome of a concatenation is the sum of the outcomes |
| Content.UpdatePresentationContent | packages/python/src/google_slides_mcp/tools/content.py:244-333 | the loop over specifications computes exactly the outcome, skipping refused ones and going on |
| Content.FieldNames | packages/python/src/google_slides_mcp/tools/content.py:114-130 | one mask name per field set |
| Content.StyleFieldsExact | packages/python/src/google_slides_mcp/tools/content.py:114-130 | the mask lists a field iff its argument is given (`bold=False` counts as given) |
| Content.StyleFieldsOrdered | packages/python/src/google_slides_mcp/tools/content.py:114-130 | the mask lists each field once, in the order fontSize, bold, italic, fontFamily, foregroundColor |
| Content.RankSortedAppend | packages/python/src/google_slides_mcp/tools/content.py:114-130 | two ordered groups of fields, the second ranked above the first, are ordered together |
| Content.StyleRequest | packages/python/src/google_slides_mcp/tools/content.py:90-142 | fails iff the colour is not a valid hex colour; None iff no argument is given; otherwise one text-style request whose mask is exactly the given fields and whose style carries exactly the given values, the foreground being the parsed colour |
| Content.BoldFalseIsStyled | packages/python/src/google_slides_mcp/tools/content.py:117-119 | `bold=False` alone gives a request with mask `bold` |
| Content.ParagraphRequest | packages/python/src/google_slides_mcp/tools/content.py:145-168 | None iff no alignment; otherwise a paragraph-style request with mask `alignment` |
| Content.OptionToSeq | packages/python/src/google_slides_mcp/tools/content.py:407-413 | a request is appended only when one was built |
| Content.ElementStyleRequestsShape | packages/python/src/google_slides_mcp/tools/content.py:396-416 | the requests for one element fail exactly on a bad colour, otherwise have the same number for every element, the text style first |
| Content.StyleHitsShape | packages/python/src/google_slides_mcp/tools/content.py:395-416 | styling a slide's matches fails iff there is a match and the colour is bad; otherwise every match gets the same number of requests and is counted iff it gets any |
| Content.StyleHitsErrPrefix | packages/python/src/google_slides_mcp/tools/content.py:395-416 | after a failure, further matches do not change the error |
| Content.StyleElements | packages/python/src/google_slides_mcp/tools/content.py:395-416 | the inner loop computes exactly the styling of one slide's matches |
| Content.StyleSlideStepShape | packages/python/src/google_slides_mcp/tools/content.py:382-416 | one slide adds its matches' requests and count, and is listed as affected iff it is selected and has a match |
| Content.StyleSlidesFails | packages/python/src/google_slides_mcp/tools/content.py:382-416 | `apply_text_style` fails iff the colour is bad and some selected slide has a match |
| Content.StyleSlidesStyled | packages/python/src/google_slides_mcp/tools/content.py:382-416 | `elements_styled` is the number of matching placeholders of the selected slides, or 0 when no style is given |
| Content.StyleSlidesRequests | packages/python/src/google_slides_mcp/tools/content.py:382-416 | every matching placeholder of a selected slide gets the same number of requests |
| Content.StyleSlidesAffected | packages/python/src/google_slides_mcp/tools/content.py:386-393 | every selected slide with a match is listed as affected, in order, even when no style was given |
| Content.StyleSlidesErrPrefix | packages/python/src/google_slides_mcp/tools/content.py:382-416 | after a failure, further slides do not change the error |
| Content.StyleSlide | packages/python/src/google_slides_mcp/tools/content.py:382-393 | one iteration of the slide loop: unselected slides are skipped |
| Content.StyleSlideHits | packages/python/src/google_slides_mcp/tools/content.py:392-416 | the matches of a selected slide: skipped when there are none, otherwise styled and the slide recorded |
| Content.ApplyTextStyle | packages/python/src/google_slides_mcp/tools/content.py:335-426 | the slide loop computes exactly the outcome |
| SlideCategories.CategorizeFirstMatch | packages/python/src/google_slides_mcp/tools/analysis.py:320-363 | the decision list is first-match: a slide gets category `c` iff the rule of `c` holds and the rule of every earlier category does not |
| SlideCategories.Categorize | packages/python/src/google_slides_mcp/tools/analysis.py:320-363 | the rule of the chosen category holds for the slide |
| SlideCategories.CoverTitle | packages/python/src/google_slides_mcp/tools/analysis.py:327-331 | a title `Title Page` makes a cover whatever else the slide holds (the match is case-insensitive) |
| SlideCategories.CoverByPlaceholders | packages/python/src/google_slides_mcp/tools/analysis.py:327-331 | the first slide, with TITLE and BODY placeholders and two elements, is a cover |
| SlideCategories.LateTitleBodyIsContent | packages/python/src/google_slides_mcp/tools/analysis.py:327-361 | the same slide at index 15 is no longer early enough for a cover and falls through to content |
| SlideCategories.TableIsDataVisualization | packages/python/src/google_slides_mcp/tools/analysis.py:341-345 | a table makes a data visualisation once the cover and section rules do not hold |
| Analysis.RecordedMeaning | packages/python/src/google_slides_mcp/tools/analysis.py:314-317 | recording keeps the registry well formed, files the context under the key exactly once, appends a new key at the end, and touches no other key |
| Analysis.RecordedIdempotent | packages/python/src/google_slides_mcp/tools/analysis.py:314-317 | recording the same context twice is the same as recording it once |
| Analysis.RecordedMeaning2 | packages/python/src/google_slides_mcp/tools/analysis.py:314-317 | after recording, the context is filed under the key |
| Analysis.UsageRegistry.constructor | packages/python/src/google_slides_mcp/tools/analysis.py:66-67 | a registry starts empty |
| Analysis.UsageRegistry.Record | packages/python/src/google_slides_mcp/tools/analysis.py:314-317 | the dict updated in place holds exactly the recorded value afterwards |
| Analysis.ColorKey | packages/python/src/google_slides_mcp/tools/analysis.py:299-312 | a non-empty theme colour gives `theme:<name>`; no key iff there is neither a theme colour nor an rgb colour |
| Analysis.Channel255Byte | packages/python/src/google_slides_mcp/tools/analysis.py:307-309 | `int(c * 255)` of a channel in [0, 1] is a byte |
| Analysis.Channel255Loss | packages/python/src/google_slides_mcp/tools/analysis.py:307-309 | that byte over 255 is at most one step of 1/255 below the channel |
| Analysis.RgbKeyParses | packages/python/src/google_slides_mcp/tools/analysis.py:307-310 | an rgb key is `#` and six lower-case digits, and `hex_to_rgb` reads it back as each channel truncated to a multiple of 1/255 |
| Analysis.LowerKeyParses | packages/python/src/google_slides_mcp/tools/analysis.py:310 | `#` and three lower-case byte pairs parse back as those bytes over 255 |
| Analysis.LowerPairs | packages/python/src/google_slides_mcp/tools/analysis.py:310 | each two-digit group of a lower-case triple reads back as its byte |
| Analysis.ThemeColorWins | packages/python/src/google_slides_mcp/tools/analysis.py:303-306 | a theme colour wins over an rgb colour given beside it |
| Analysis.ExtractColor | packages/python/src/google_slides_mcp/tools/analysis.py:299-317 | the registry afterwards holds exactly the colour recorded under its key, or is unchanged when there is no key |
| Analysis.EntriesIn | packages/python/src/google_slides_mcp/tools/analysis.py:200-207 | a category's list has at most one entry per slide |
| Analysis.EntriesPartition | packages/python/src/google_slides_mcp/tools/analysis.py:200-207 | every slide is filed in exactly one category's list: the list lengths add up to the number of slides |
| Analysis.FlaggedExclusive | packages/python/src/google_slides_mcp/tools/analysis.py:126-131 | the `if/elif/elif` chain raises at most one flag per element, an image first |
| Analysis.ImageHidesTable | packages/python/src/google_slides_mcp/tools/analysis.py:126-131 | an element with both an image and a table is seen only as an image |
| Analysis.RecordedKeepsFiled | packages/python/src/google_slides_mcp/tools/analysis.py:314-317 | recording never removes a filed context |
| Analysis.RecordColorKeepsFiled | packages/python/src/google_slides_mcp/tools/analysis.py:299-317 | extracting a colour never removes a filed context |
| Analysis.RunsKeepFiled | packages/python/src/google_slides_mcp/tools/analysis.py:146-181 | scanning a shape's runs never removes a filed colour context |
| Analysis.ShapeKeepsFiled | packages/python/src/google_slides_mcp/tools/analysis.py:135-189 | scanning a shape never removes a filed colour context |
| Analysis.ElementKeepsFiled | packages/python/src/google_slides_mcp/tools/analysis.py:124-197 | scanning an element never removes a filed colour context |
| Analysis.RunsKeepSlide | packages/python/src/google_slides_mcp/tools/analysis.py:146-181 | scanning runs keeps the summary describing the same slide |
| Analysis.RunStepKeepsSlide | packages/python/src/google_slides_mcp/tools/analysis.py:146-181 | one run keeps the summary describing the same slide |
| Analysis.ElementsKeepSlide | packages/python/src/google_slides_mcp/tools/analysis.py:124-197 | scanning the elements keeps the summary describing the same slide |
| Analysis.ElementStepKeepsSlide | packages/python/src/google_slides_mcp/tools/analysis.py:124-197 | one element keeps the summary describing the same slide |
| Analysis.ShapeKeepsSlide | packages/python/src/google_slides_mcp/tools/analysis.py:135-189 | a shape keeps the summary describing the same slide |
| Analysis.BackgroundNeedsElements | packages/python/src/google_slides_mcp/tools/analysis.py:124-197 | the background is read inside the element loop: a slide with elements files its background colour, a slide without elements leaves the colour registry as it was |
| Analysis.EmptySlideScansNothing | packages/python/src/google_slides_mcp/tools/analysis.py:105-124 | a slide without elements adds only its fresh summary |
| Analysis.RecordColorValid | packages/python/src/google_slides_mcp/tools/analysis.py:299-317 | extracting a colour keeps the registry well formed |
| Analysis.RunStepInvariant | packages/python/src/google_slides_mcp/tools/analysis.py:146-181 | one run keeps the scan invariant (well-formed registries, typed, short placeholder texts pointing at a real slide) and the placeholder types |
| Analysis.RunsInvariant | packages/python/src/google_slides_mcp/tools/analysis.py:146-181 | the run loop keeps the scan invariant and the placeholder types |
| Analysis.ShapeInvariant | packages/python/src/google_slides_mcp/tools/analysis.py:135-189 | a shape keeps the scan invariant |
| Analysis.ElementStepInvariant | packages/python/src/google_slides_mcp/tools/analysis.py:124-197 | one element keeps the scan invariant |
| Analysis.ElementsInvariant | packages/python/src/google_slides_mcp/tools/analysis.py:124-197 | the element loop keeps the scan invariant |
| Analysis.SlideStepInvariant | packages/python/src/google_slides_mcp/tools/analysis.py:105-207 | one slide keeps the aggregate invariant and files the slide under its category |
| Analysis.AggregatedInvariant | packages/python/src/google_slides_mcp/tools/analysis.py:105-207 | after the loop both registries are well formed, placeholder texts are typed, at most 100 characters and point at a real slide, titles and subtitles come from placeholders of that type, and `slide_categories[c]` lists exactly the slides categorised as `c`, in slide order |
| Analysis.AggregatedSummaries | packages/python/src/google_slides_mcp/tools/analysis.py:105-207 | there is one summary per slide, and summary `i` carries slide `i`'s id and element count |
| Analysis.Analyzer.constructor | packages/python/src/google_slides_mcp/tools/analysis.py:64-79 | fresh, separate registries and the initial tallies |
| Analysis.Analyzer.NoteText | packages/python/src/google_slides_mcp/tools/analysis.py:151-164 | the placeholder part of a non-empty run, updating the slide's summary and `placeholder_texts` in place |
| Analysis.Analyzer.NoteStyle | packages/python/src/google_slides_mcp/tools/analysis.py:165-181 | the style part of a non-empty run: font registry, size tally and text colour, in place |
| Analysis.Analyzer.ScanRun | packages/python/src/google_slides_mcp/tools/analysis.py:146-181 | the body of the run loop, exactly one run step |
| Analysis.Analyzer.ScanRuns | packages/python/src/google_slides_mcp/tools/analysis.py:146-181 | the run loop, exactly the run scan |
| Analysis.Analyzer.ScanShape | packages/python/src/google_slides_mcp/tools/analysis.py:135-189 | the `if shape:` block, exactly the shape scan |
| Analysis.Analyzer.ScanElement | packages/python/src/google_slides_mcp/tools/analysis.py:124-197 | the body of the element loop, exactly one element step |
| Analysis.Analyzer.ScanSlide | packages/python/src/google_slides_mcp/tools/analysis.py:105-207 | one pass of the slide loop: scan, categorise and file the slide |
| Analysis.AnalyzeSlides | packages/python/src/google_slides_mcp/tools/analysis.py:64-207 | the slide loop on fresh registries computes exactly the aggregate |
| AnalysisReport.BodySample | packages/python/src/google_slides_mcp/tools/analysis.py:399-400 | a text of at most 50 characters is kept; a longer one becomes its first 50 characters and `...` |
| AnalysisReport.TextsOf | packages/python/src/google_slides_mcp/tools/analysis.py:382-387 | the texts of a pattern list, position by position |
| AnalysisReport.DeduplicatedTexts | packages/python/src/google_slides_mcp/tools/analysis.py:381-389 | a date or name pattern is added only when its text is not listed yet |
| AnalysisReport.TypedTexts | packages/python/src/google_slides_mcp/tools/analysis.py:391-400 | the texts of the items of one placeholder type, at most one per item |
| AnalysisReport.FirstN | packages/python/src/google_slides_mcp/tools/analysis.py:392-400 | a prefix of at most `n` elements |
| AnalysisReport.Samples | packages/python/src/google_slides_mcp/tools/analysis.py:399-400 | every body text is cut as above |
| AnalysisReport.CappedIsFirstN | packages/python/src/google_slides_mcp/tools/analysis.py:392-400 | appending under a cap keeps the list equal to the first `cap` elements of everything offered |
| AnalysisReport.TitlesAreFirstTen | packages/python/src/google_slides_mcp/tools/analysis.py:391-396 | the title and subtitle samples are the first ten TITLE and SUBTITLE texts |
| AnalysisReport.BodiesAreFirstFive | packages/python/src/google_slides_mcp/tools/analysis.py:397-400 | the body samples are the first five BODY texts, each cut to 50 characters plus `...` |
| AnalysisReport.PatternsDistinct | packages/python/src/google_slides_mcp/tools/analysis.py:381-389 | no text is listed twice among the date patterns, nor among the name patterns |
| AnalysisReport.DatePatternsExact | packages/python/src/google_slides_mcp/tools/analysis.py:381-384 | a text is a date pattern iff some item carries it and contains one of `MM.DD`, `YYYY`, `mm/dd`, `date` (case-sensitive) |
| AnalysisReport.NamePatternsExact | packages/python/src/google_slides_mcp/tools/analysis.py:386-389 | a text is a name pattern iff some item carries it and its lower-cased form contains `full name`, `name //` or `job title` |
| AnalysisReport.AnalyzePlaceholderPatterns | packages/python/src/google_slides_mcp/tools/analysis.py:366-402 | the loop appending to the five lists in place computes exactly the patterns |
| AnalysisReport.NotePlaceholder | packages/python/src/google_slides_mcp/tools/analysis.py:376-400 | one iteration of the loop leaves the five lists exactly as one pattern step from the previous lists |
| AnalysisReport.InsertByUsage | packages/python/src/google_slides_mcp/tools/analysis.py:451 | inserting a key adds exactly that key |
| AnalysisReport.RankedByUsage | packages/python/src/google_slides_mcp/tools/analysis.py:451 | the ranking is a permutation of the keys |
| AnalysisReport.InsertByUsageSorted | packages/python/src/google_slides_mcp/tools/analysis.py:451 | inserting into a list ordered by usage, most used first, keeps it ordered |
| AnalysisReport.RankedByUsageSorted | packages/python/src/google_slides_mcp/tools/analysis.py:451 | the ranking is a permutation of the keys, most used first |
| AnalysisReport.MostUsedIndex | packages/python/src/google_slides_mcp/tools/analysis.py:444 | `max` by usage: no key is used more, and every earlier key is used strictly less (the first maximum wins) |
| AnalysisReport.NumberTexts | packages/python/src/google_slides_mcp/tools/analysis.py:418-425 | one printed number per slide number |
| AnalysisReport.InCategory | packages/python/src/google_slides_mcp/tools/analysis.py:415-422 | the summaries of one category, at most one per slide |
| AnalysisReport.SlideNumbers | packages/python/src/google_slides_mcp/tools/analysis.py:418-425 | the 1-based number `index + 1` of each summary |
| AnalysisReport.When | packages/python/src/google_slides_mcp/tools/analysis.py:416-423 | a line is added only when its condition holds |
| AnalysisReport.SlideAdvice | packages/python/src/google_slides_mcp/tools/analysis.py:414-427 | at most a cover line then a section line; the cover line is there iff there are cover slides |
| AnalysisReport.PatternAdvice | packages/python/src/google_slides_mcp/tools/analysis.py:429-440 | only date and name lines |
| AnalysisReport.StyleAdvice | packages/python/src/google_slides_mcp/tools/analysis.py:442-454 | only font and colour lines; with fonts found, the first line keeps the most used font |
| AnalysisReport.RecommendationsShape | packages/python/src/google_slides_mcp/tools/analysis.py:405-461 | the workflow line always comes last and only there; a cover line is given iff there are cover slides, and then only first |
| AnalysisReport.CoverAdvice | packages/python/src/google_slides_mcp/tools/analysis.py:415-420 | the cover line lists the numbers of at most the first four cover slides, with the full count |
| AnalysisReport.FontAdvice | packages/python/src/google_slides_mcp/tools/analysis.py:443-447 | the font advised is the first of the fonts used in the most contexts |
| AnalysisReport.ColorAdvice | packages/python/src/google_slides_mcp/tools/analysis.py:450-454 | the brand colours are at most three registry keys, most used first, and no key left out is used more |
| AnalysisReport.AppendSlideAdvice | packages/python/src/google_slides_mcp/tools/analysis.py:414-427 | appends exactly the cover and section lines |
| AnalysisReport.AppendPatternAdvice | packages/python/src/google_slides_mcp/tools/analysis.py:429-440 | appends exactly the date and name lines |
| AnalysisReport.AppendStyleAdvice | packages/python/src/google_slides_mcp/tools/analysis.py:442-454 | appends exactly the font and colour lines |
| AnalysisReport.GenerateRecommendations | packages/python/src/google_slides_mcp/tools/analysis.py:405-461 | the appends compute exactly the recommendations |
| AnalysisReport.FirstOf | packages/python/src/google_slides_mcp/tools/analysis.py:475-479 | the slide found belongs to the deck and has the category; none is found only when no slide has it |
| AnalysisReport.OptionSeq | packages/python/src/google_slides_mcp/tools/analysis.py:476-477 | at most one slide is taken per category |
| AnalysisReport.SliceTo | packages/python/src/google_slides_mcp/tools/analysis.py:488 | `key_slides[:max_count]` is a prefix, a negative count counting from the end |
| AnalysisReport.PerCategoryBounded | packages/python/src/google_slides_mcp/tools/analysis.py:472-479 | the first phase extends what it was given, stays within `max_count`, and adds only slides of the deck |
| AnalysisReport.FillUpBounded | packages/python/src/google_slides_mcp/tools/analysis.py:482-486 | the second phase extends what it was given, stays within `max_count`, and adds only slides of the deck |
| AnalysisReport.KeyPriorityDistinct | packages/python/src/google_slides_mcp/tools/analysis.py:470 | the priority order lists each category once |
| AnalysisReport.PerCategoryDistinct | packages/python/src/google_slides_mcp/tools/analysis.py:472-479 | the first phase picks no slide twice |
| AnalysisReport.FillUpDistinct | packages/python/src/google_slides_mcp/tools/analysis.py:482-486 | the second phase picks no slide twice |
| AnalysisReport.FillUpComplete | packages/python/src/google_slides_mcp/tools/analysis.py:482-486 | the second phase stops short of `max_count` only once every slide is in |
| AnalysisReport.KeySlidesBounded | packages/python/src/google_slides_mcp/tools/analysis.py:464-488 | at most `max_count` slides (none when it is zero or less), all from the deck, none twice; the final slice cuts nothing off |
| AnalysisReport.KeySlidesStartPerCategory | packages/python/src/google_slides_mcp/tools/analysis.py:464-488 | the slides of the first phase start the answer |
| AnalysisReport.KeySlidesComplete | packages/python/src/google_slides_mcp/tools/analysis.py:464-488 | fewer than `max_count` slides are returned only when every slide of the deck is among them |
| AnalysisReport.KeySlidesOpenWithFirsts | packages/python/src/google_slides_mcp/tools/analysis.py:470-479 | with room for six, the answer opens with the first cover, section divider, content, chart, mockup and infographic slide that exist, in that order |
| AnalysisReport.PerCategoryPicksBelow | packages/python/src/google_slides_mcp/tools/analysis.py:472-479 | while there is room, the first phase takes the first slide of each category in priority order |
| AnalysisReport.PerCategoryStep | packages/python/src/google_slides_mcp/tools/analysis.py:472-479 | one category of the first phase: its first slide is taken while there is room |
| AnalysisReport.SelectKeySlides | packages/python/src/google_slides_mcp/tools/analysis.py:464-488 | the two loops and the final slice compute exactly the key slides |
| AnalysisReport.PickPerCategory | packages/python/src/google_slides_mcp/tools/analysis.py:472-479 | the first loop, with `categories_seen` and its breaks, computes exactly the first phase |
| AnalysisReport.FillRemaining | packages/python/src/google_slides_mcp/tools/analysis.py:482-486 | the second loop computes exactly the second phase |
| AnalysisReport.FirstInCategory | packages/python/src/google_slides_mcp/tools/analysis.py:475-479 | the inner search finds the first slide of a category not seen yet |
| Creation.NewObjectId | src/google_slides_mcp/tools/creation.py:74 | a new object id is the prefix followed by at most eight hex digits of the uuid |
| Creation.FirstMatching | src/google_slides_mcp/tools/creation.py:67-71 | the first layout whose upper-cased name equals the requested layout, and no earlier one; None iff no layout matches |
| Creation.SlideRequestLayout | src/google_slides_mcp/tools/creation.py:76-89 | the new slide refers to the presentation's own layout iff the first layout of that name has an id, and otherwise names the predefined layout; the insertion index is passed through |
| Creation.SlideRequest | src/google_slides_mcp/tools/creation.py:76-89 | one slide creation with the new id and the insertion index given, naming the predefined layout asked for or the non-empty id of the matching layout |
| Creation.FindLayout | src/google_slides_mcp/tools/creation.py:65-71 | the search loop, ended by the first match, leaves exactly that layout's id |
| Creation.PlaceholderIdsKeys | src/google_slides_mcp/tools/creation.py:93-98 | a placeholder type is a key iff some element with a non-empty placeholder has it (`UNKNOWN` when the type is missing) |
| Creation.PlaceholderIds | src/google_slides_mcp/tools/creation.py:93-98 | every entry maps a placeholder type to the id of some element with a placeholder of that type |
| Creation.PlaceholderIdsLastWins | src/google_slides_mcp/tools/creation.py:93-98 | the last element of a type wins: its id is the one kept |
| Creation.CollectPlaceholderIds | src/google_slides_mcp/tools/creation.py:93-98 | the loop fills exactly that map |
| Creation.CreateSlideTool | src/google_slides_mcp/tools/creation.py:37-104 | one `createSlide` request with id `slide_` and eight hex digits, then the new slide's id and its placeholder ids as read back |
| Creation.CreatedGeometryReadsBack | src/google_slides_mcp/tools/creation.py:154-175 | an element created at given inches reads back, through `extract_element_bounds`, the truncated EMU position and size, within 1/914400 inch of what was asked |
| Creation.TextBoxShape | src/google_slides_mcp/tools/creation.py:106-216 | an invalid colour fails before anything is sent; otherwise four requests, all on the new element: create the text box at the EMU conversions of the size and position asked for, insert the text at 0, style all five style fields with the given font, size, bold, italic and the parsed colour, then set the paragraph alignment asked for |
| Creation.TextBoxRequests | src/google_slides_mcp/tools/creation.py:150-216 | fails exactly when the colour does not parse; otherwise four requests, the first creating the new element |
| Creation.TextBoxReadsBack | src/google_slides_mcp/tools/creation.py:154-175 | the text box created by the first request reads back through `extract_element_bounds` at the EMU conversions of the inches asked for, within one EMU of them |
| Creation.DefaultTextBoxRequests | src/google_slides_mcp/tools/creation.py:106-150 | with the defaults the box is 4 by 1 inches at (1, 1), in black 18-point Arial, left-aligned |
| Creation.ParseExamplesBlack | src/google_slides_mcp/tools/creation.py:118 | the default colour `#000000` parses to black |
| Creation.ImageRequestPlacement | src/google_slides_mcp/tools/creation.py:263-300 | the size defaults to 4 by 3 inches; with an alignment the position is resolved on the 16:9 slide with no margin, an axis without alignment going to 0 and explicit coordinates ignored; without one the position is the given inches, 1 inch by default |
| Creation.ImageRequest | src/google_slides_mcp/tools/creation.py:263-300 | one image creation on the new element and slide with the URL given, 4 by 3 inches unless sizes are given |
| Creation.AlignedDefaultImageInside | src/google_slides_mcp/tools/creation.py:263-300 | a default-sized image aligned on both axes lies inside the 16:9 slide |
| Creation.ShapeRequestsShape | src/google_slides_mcp/tools/creation.py:356-412 | a colour that does not parse fails the call, the fill's error first; otherwise the shape is created, and a properties update follows iff a fill or an outline is given; it carries the parsed fill and outline colours and the given weight, and its mask is exactly `shapeBackgroundFill,outline` restricted to the parts it sets, fill before outline |
| Creation.OutlineNamed | src/google_slides_mcp/tools/creation.py:393-400 | a mask with an outline names it |
| Creation.ContainsSuffix | src/google_slides_mcp/tools/creation.py:400 | a text contains whatever any of its suffixes starts with |
| Creation.DefaultShapeRequests | src/google_slides_mcp/tools/creation.py:315-412 | by default the shape gets a black 1-point outline and no fill |
| Creation.JoinedFields | src/google_slides_mcp/tools/creation.py:387-405 | the mask is `shapeBackgroundFill`, `outline` or both joined by a comma |
| Creation.AddShape | src/google_slides_mcp/tools/creation.py:356-412 | building the properties and the mask part by part gives exactly those requests |
| Creation.ShapeRequests | src/google_slides_mcp/tools/creation.py:356-412 | fails exactly when a given fill or outline colour does not parse; otherwise one or two requests, the first creating the new shape |
| Utility.FirstNonBlankIndex | src/google_slides_mcp/tools/utility.py:58-63 | an index found is a position of the run list |
| Utility.FirstNonBlankIndexSpec | src/google_slides_mcp/tools/utility.py:58-63 | the index found is the first run that does not strip to empty; none is found only when every run is blank |
| Utility.FirstTitle | src/google_slides_mcp/tools/utility.py:53-56 | an index found is a position of the element list |
| Utility.FirstTitleSpec | src/google_slides_mcp/tools/utility.py:53-64 | the index found is the first `TITLE` placeholder; none is found only when there is none |
| Utility.TitleSource | src/google_slides_mcp/tools/utility.py:53-64 | a non-empty title is the stripped text of the first non-blank run of the slide's first `TITLE` placeholder, and has no surrounding whitespace |
| Utility.TitleEmpty | src/google_slides_mcp/tools/utility.py:53-64 | the title is empty iff the slide has no `TITLE` placeholder or its first one is blank throughout, whatever later ones hold |
| Utility.FirstNonBlankRun | src/google_slides_mcp/tools/utility.py:58-63 | the run loop with its `break` yields exactly the first non-blank run, stripped |
| Utility.FirstNonBlankAt | src/google_slides_mcp/tools/utility.py:58-63 | a non-blank run with only blank runs before it is the one found |
| Utility.SlideTitle | src/google_slides_mcp/tools/utility.py:53-64 | the element loop, ended by the first `TITLE` placeholder, yields exactly the title |
| Utility.FirstTitleAt | src/google_slides_mcp/tools/utility.py:53-64 | a `TITLE` placeholder with none before it is the one found |
| Utility.ListSlides | src/google_slides_mcp/tools/utility.py:21-75 | one listing per slide, in order, the `i`-th carrying slide `i`'s index, id, title and element count |
| Utility.ListSlide | src/google_slides_mcp/tools/utility.py:48-73 | the entry for one slide carries its id, its position, its title and its element count |
| Utility.TypePrecedence | src/google_slides_mcp/tools/utility.py:139-190 | the type follows the precedence shape, image, table, line, video, chart: each is reported iff its key is present and no earlier one is, `unknown` otherwise |
| Utility.DetailsOf | src/google_slides_mcp/tools/utility.py:139-190 | shape details iff the element is a shape, image details iff it is an image and no shape, table details iff a table and neither |
| Utility.ShapeFieldsPresent | src/google_slides_mcp/tools/utility.py:139-158 | a shape's `text` is present iff its runs hold a non-blank character, and is then their stripped concatenation; `placeholder_type` is present iff the placeholder is not empty |
| Utility.ElementInfoBounds | src/google_slides_mcp/tools/utility.py:115-137 | an unknown id and an element without geometry are errors; otherwise the bounds are reported in inches, each converting back to the EMU bounds exactly |
| Utility.CreatedElementReportedSize | src/google_slides_mcp/tools/utility.py:126-137 | an element created from inches and read back is reported at those inches to within one EMU |
| Utility.CollectText | src/google_slides_mcp/tools/utility.py:145-150 | `text_content += content` run by run is the concatenation of the runs |
| Utility.GetElementInfo | src/google_slides_mcp/tools/utility.py:78-192 | the search, the bounds and the type dispatch compute exactly the summary |
| Utility.ElementInfoOf | src/google_slides_mcp/tools/utility.py:78-192 | not found exactly when no element has the id; otherwise the summary is of the first element with the id and carries its details |
| Drive.CopyFileBody | src/google_slides_mcp/services/drive_service.py:29-61 | the copy body always names the new file; `parents` is `[parent_folder_id]` exactly when a folder is given, `mimeType` the target type exactly when one is given |
| Drive.EscapeQuery | src/google_slides_mcp/services/drive_service.py:131-134 | the escaped query is never shorter than the query (the corrected escaping, see Findings) |
| Drive.ReadEscaped | src/google_slides_mcp/services/drive_service.py:133 | reading a literal passes over an escape pair `\\c` and yields `c` |
| Drive.ReadPlain | src/google_slides_mcp/services/drive_service.py:133 | reading a literal passes over an ordinary character unchanged |
| Drive.EscapeQueryRoundTrip | src/google_slides_mcp/services/drive_service.py:131-134 | the escaped query followed by the closing quote reads back as exactly the query, and the reader stops right after that quote |
| Drive.QuotesOnlySuffices | src/google_slides_mcp/services/drive_service.py:131-134 | for a query without backslashes, escaping only quotes, as written, equals the full escaping |
| Drive.QuotesOnlyCounterexample | src/google_slides_mcp/services/drive_service.py:131-134 | as written, the query `\'` is read back as a lone backslash with the query's quote left over after the literal |
| Drive.EscapeQuotesOnly | src/google_slides_mcp/services/drive_service.py:133 | the escaping as written: every quote of the result is preceded by a backslash, and the result is never shorter than the query |
| Drive.NameClause | src/google_slides_mcp/services/drive_service.py:131-134 | the clause the tool sends opens with `name contains '` and ends with the closing quote, with only quotes escaped in between |
| Drive.CorrectedNameClause | src/google_slides_mcp/services/drive_service.py:131-134 | the corrected clause of the Finding has the same frame as the clause the tool sends |
| Drive.MimeConditions | src/google_slides_mcp/services/drive_service.py:136-140 | one `mimeType = '…'` condition per MIME type, in order |
| Drive.Ranks | src/google_slides_mcp/services/drive_service.py:128-146 | one rank per clause, giving its kind |
| Drive.RanksAppend | src/google_slides_mcp/services/drive_service.py:128-146 | ranks of appended clause lists are the appended ranks |
| Drive.ClauseRanks | src/google_slides_mcp/services/drive_service.py:128-146 | the clause kinds present are name, MIME, folder, trash, each exactly when its argument is given |
| Drive.ClausesInOrder | src/google_slides_mcp/services/drive_service.py:128-146 | the clause kinds are strictly increasing: name, then MIME types, then folder, then trash; each is present iff its argument is given (trash iff trashed files are excluded) |
| Drive.Clauses | src/google_slides_mcp/services/drive_service.py:128-146 | at most four clauses, none exactly when no filter applies and trashed files are included; the name clause first when a search text is given, `trashed = false` last when trashed files are excluded |
| Drive.NameClauseReadsBack | src/google_slides_mcp/services/drive_service.py:131-134 | for a search text without backslashes, the clause the tool sends is `name contains '` followed by a literal that reads back as exactly the search text |
| Drive.NameClauseMisreads | src/google_slides_mcp/services/drive_service.py:131-134 | for the search text `\'` the clause the tool sends reads back as a lone backslash, with a quote left over |
| Drive.CorrectedNameClauseReadsBack | src/google_slides_mcp/services/drive_service.py:131-134 | the corrected half of the Finding: with backslashes escaped as well, the clause reads back as exactly the search text |
| Drive.ClampPageSize | src/google_slides_mcp/services/drive_service.py:151-152 | the page size is within 1..100, kept when already inside, 1 below and 100 above |
| Drive.ListFilesParamsOptional | src/google_slides_mcp/services/drive_service.py:148-162 | `q` is omitted exactly when no clause applies; `pageToken` is passed exactly when given; the fields list is fixed |
| Drive.ListFilesParams | src/google_slides_mcp/services/drive_service.py:148-162 | the page size is within 1..100, the fields are fixed, and a query is sent exactly when some clause applies |
| Drive.DefaultQuery | src/google_slides_mcp/services/drive_service.py:145-149 | with no filters and trashed files excluded, the query is exactly `trashed = false` |
| Drive.QueryClauses | src/google_slides_mcp/services/drive_service.py:128-146 | the clauses appended step by step are the clause list of the specification |
| Drive.ListFiles | src/google_slides_mcp/services/drive_service.py:101-164 | the request parameters built are those of the specification, so the clamp, the clause order and the optional fields carry over |
| Templates.ReplaceRequests | packages/python/src/google_slides_mcp/tools/templates.py:99-108 | one `replaceAllText` request per placeholder, in mapping order, case-sensitive, carrying that placeholder and its replacement |
| Templates.TotalAppend | packages/python/src/google_slides_mcp/tools/templates.py:119 | the total of appended count lists is the sum of their totals |
| Templates.TotalBounds | packages/python/src/google_slides_mcp/tools/templates.py:119 | with non-negative counts, each count lies between 0 and the total |
| Templates.TotalNonNegative | packages/python/src/google_slides_mcp/tools/templates.py:119 | non-negative counts have a non-negative total |
| Templates.SummaryMatchesRequests | packages/python/src/google_slides_mcp/tools/templates.py:112-119 | the summary fails iff there are fewer replies than placeholders; otherwise it has one count per request sent, for the same placeholder, read from the reply at the same index, and `total` is their sum |
| Templates.Summary | packages/python/src/google_slides_mcp/tools/templates.py:112-119 | fails exactly when there are fewer replies than placeholders; otherwise one count per placeholder, and the total is their sum |
| Templates.EmptyMappingSummary | packages/python/src/google_slides_mcp/tools/templates.py:112-119 | an empty mapping reads no reply and reports a total of 0 |
| Templates.CountReplacements | packages/python/src/google_slides_mcp/tools/templates.py:112-119 | the counting loop yields exactly the summary, including the failure when a reply is missing |
| Templates.ReplacePlaceholders | packages/python/src/google_slides_mcp/tools/templates.py:74-119 | the tool sends the requests of the mapping and reports the summary read from the replies |
| Templates.ImageRequests | packages/python/src/google_slides_mcp/tools/templates.py:150-158 | a single case-sensitive `replaceAllShapesWithImage` request for the placeholder text and image URL, carrying the replace method the caller passed (`CENTER_INSIDE` or `CENTER_CROP`) |
| Templates.ShapesReplaced | packages/python/src/google_slides_mcp/tools/templates.py:163-168 | reading the count fails iff the reply list is present and empty; a missing reply list counts 0 |
| Templates.ShapesReplacedFromFirstReply | packages/python/src/google_slides_mcp/tools/templates.py:163-168 | with replies, the count is that of the first reply, and 0 when that reply has no count |
| Templates.PresentationUrl | packages/python/src/google_slides_mcp/tools/templates.py:69 | the URL is the fixed presentation prefix followed by the id |
| Templates.PresentationUrlRoundTrip | packages/python/src/google_slides_mcp/tools/templates.py:69 | the id is read back from the URL, and distinct ids give distinct URLs |
| Templates.CopyTemplate | packages/python/src/google_slides_mcp/tools/templates.py:23-71 | the copy is of the template under the new name, into the given folder only when one is given, converted to Google Slides iff requested; the result names the copy, links to it, and reports the conversion flag |
| Templates.LegacyCopyTemplate | src/google_slides_mcp/tools/templates.py:23-57 | the older tool copies the template under the new name, into the given folder only when given, never converting, and links to the copy |
| Templates.EntryOfFile | packages/python/src/google_slides_mcp/tools/templates.py:227-240 | an entry keeps the file's id, name, type and times, links to the file, and carries `owner` iff the file has owners, as the first owner's email |
| Templates.SearchMimeClause | packages/python/src/google_slides_mcp/tools/templates.py:211-219 | the search's MIME clause names exactly Google Slides and PowerPoint presentations |
| Templates.SearchFiltersPresentations | packages/python/src/google_slides_mcp/tools/templates.py:217-223 | the search always filters on presentation type and excludes trashed files, so a query is always sent, with a page size within 1..100 |
| Templates.SearchParams | packages/python/src/google_slides_mcp/tools/templates.py:211-223 | the search always sends a query, with a page size within 1..100 |
| Templates.SearchPresentations | packages/python/src/google_slides_mcp/tools/templates.py:171-246 | the list call has the search's parameters; the result has one entry per file, in order, each the file's entry; the page token is passed through and `total_returned` is the number of entries |
| TokenStore.Lookup | src/google_slides_mcp/auth/token_store.py:59-61 | `get` returns a value iff the key is stored, and then the stored value |
| TokenStore.InMemoryTokenStore.constructor | src/google_slides_mcp/auth/token_store.py:52-53 | a new in-memory store is empty |
| TokenStore.InMemoryTokenStore.Store | src/google_slides_mcp/auth/token_store.py:55-57 | the entry for the user is set to the credentials, overwriting any earlier one, and no other entry changes |
| TokenStore.InMemoryTokenStore.Retrieve | src/google_slides_mcp/auth/token_store.py:59-61 | the user's credentials when stored, None otherwise |
| TokenStore.InMemoryTokenStore.Delete | src/google_slides_mcp/auth/token_store.py:63-65 | the user's entry is removed; deleting an absent user changes nothing |
| TokenStore.RetrieveAfterStore | src/google_slides_mcp/auth/token_store.py:55-61 | a retrieve right after a store returns what was stored |
| TokenStore.OtherKeysUnchanged | src/google_slides_mcp/auth/token_store.py:55-65 | a store or delete for one key leaves every other key's lookup as it was |
| TokenStore.RetrieveAfterDelete | src/google_slides_mcp/auth/token_store.py:59-65 | after a delete the key is absent, and deleting an absent key leaves the store unchanged |
| TokenStore.SafeId | src/google_slides_mcp/auth/token_store.py:90-93 | the sanitised id has the id's length, keeps each alphanumeric character and turns every other into `_` |
| TokenStore.LegacyFileName | src/google_slides_mcp/auth/token_store.py:90-94 | the file name, as written, is the sanitised id followed by `.json` |
| TokenStore.LegacyFileNameCollision | src/google_slides_mcp/auth/token_store.py:90-116 | as written, the users `a@b` and `a_b` share one file, so a store for one is retrieved for the other |
| TokenStore.HexFixed | src/google_slides_mcp/auth/token_store.py:90-94 | a code written in the fixed width of lower-case hex digits, all of them file-name characters |
| TokenStore.HexFixedValue | src/google_slides_mcp/auth/token_store.py:90-94 | a string of hex digits denotes a number below 16 to its length |
| TokenStore.HexFixedRoundTrip | src/google_slides_mcp/auth/token_store.py:90-94 | reading the hex digits back gives the code written |
| TokenStore.EscapeChar | src/google_slides_mcp/auth/token_store.py:93 | one character of the corrected encoding uses only letters, digits and `_` |
| TokenStore.EncodeUserId | src/google_slides_mcp/auth/token_store.py:93 | the corrected encoding of an id uses only letters, digits and `_` |
| TokenStore.EncodeUserIdRoundTrip | src/google_slides_mcp/auth/token_store.py:90-94 | the encoding of an id decodes back to exactly that id (the corrected file naming, see Findings) |
| TokenStore.EncodeAgreesOnAlnum | src/google_slides_mcp/auth/token_store.py:90-94 | for ids of letters and digits only, the corrected encoding, the sanitiser and the id itself coincide, so their credential files keep their names |
| TokenStore.FileNameShape | src/google_slides_mcp/auth/token_store.py:90-94 | the corrected file name is letters, digits and `_` followed by `.json` |
| TokenStore.FileNameInjective | src/google_slides_mcp/auth/token_store.py:90-94 | the corrected half of the Finding: different users never share a credentials file |
| TokenStore.FileTokenStore.constructor | src/google_slides_mcp/auth/token_store.py:75-88 | the store opens a directory with the files it already holds |
| TokenStore.FileTokenStore.Store | src/google_slides_mcp/auth/token_store.py:96-102 | the file `_get_path` names, the sanitised id followed by `.json`, is written with the credentials and no other file changes |
| TokenStore.FileTokenStore.Retrieve | src/google_slides_mcp/auth/token_store.py:104-110 | the contents of the file `_get_path` names for the user when it exists, None otherwise |
| TokenStore.FileTokenStore.Delete | src/google_slides_mcp/auth/token_store.py:112-116 | the file `_get_path` names for the user is removed if it exists and no other file changes |
| TokenStore.StoreMirrors | src/google_slides_mcp/auth/token_store.py:90-110 | among users whose sanitised ids differ, a store on both stores keeps the file store answering each of them as the in-memory store does |
| TokenStore.DeleteMirrors | src/google_slides_mcp/auth/token_store.py:90-116 | among users whose sanitised ids differ, a delete on both stores keeps the file store answering each of them as the in-memory store does |
| TokenStore.LegacyFileNameSeparates | src/google_slides_mcp/auth/token_store.py:90-94 | two users share a file only when their sanitised ids are equal |
| TokenStore.AlnumSeparated | src/google_slides_mcp/auth/token_store.py:90-94 | users whose ids are letters and digits only never share a file |
| TokenStore.CollisionBreaksMirror | src/google_slides_mcp/auth/token_store.py:90-116 | for `a@b` and `a_b` the sanitiser does not keep the users apart: after a store for `a@b` the file store answers `a_b` with those credentials, where the in-memory store answers None |
| TokenStore.CorrectedStoreMirrors | src/google_slides_mcp/auth/token_store.py:90-94 | the corrected half of the Finding: with the injective names, a store keeps the two stores in step for every user |
| TokenStore.CorrectedDeleteMirrors | src/google_slides_mcp/auth/token_store.py:90-94 | the corrected half of the Finding: with the injective names, a delete keeps the two stores in step for every user |
| TokenStore.GetTokenStore | src/google_slides_mcp/auth/token_store.py:119-136 | `"file"` gives the file store, `"memory"` the in-memory store, and any other name a ValueError naming it |
| TokenStore.DefaultIsFileStore | src/google_slides_mcp/auth/token_store.py:119-136 | the default store type selects the file store |

## Left out

- Network and API clients are not modelled. This covers credential extraction, `SlidesService` and `DriveService` calls, `export_thumbnail`, and the thumbnail fetches of `analyze_presentation` with the exceptions they swallow. Fetched data is a parameter. What a tool submits is its returned request list.
- `uuid4` ids are parameters, because they are nondeterministic.
- `FileTokenStore` file I/O is not modelled: `open`, `json` encoding, `chmod`, `mkdir`, and the `CREDENTIALS_DIR` environment variable with its default directory. The directory is a map from file name to credentials.
- Server wiring, configuration, low-level passthrough tools, the OAuth helper script and the static prompt texts are not modelled: they have no behaviour of their own.
- Floating point is not modelled. Lengths and channels are exact reals. Neither IEEE rounding nor the formatting of floats (`round(..., 2)`, `f"{ratio:.2f}"`) is modelled.
- The aspect-ratio label of `analyze_presentation` is not modelled, because it depends on float formatting.
- The palette, typography and layout summaries of `analyze_presentation`, and the sorts that build them, are not modelled. The brand colours and key slides they feed are modelled.
- The font-size tally is not modelled as ordered. It is kept as a map, because the order of its keys is only seen through the left-out summaries.
- `int(s, 16)` is not modelled in full. Python also accepts signs, surrounding whitespace and underscores in the digit pair. The model accepts only two hex digits, so such a colour is an error here where Python might parse it.
- `str.isalnum`, `str.strip`, `str.upper` and `str.lower` are modelled on ASCII. Python's Unicode letters, digits, whitespace and case mappings beyond ASCII are not modelled.
- The inch positions that `position_element`, `distribute_elements` and `align_elements` return with the batch (`position` and `new_positions`) are not modelled. They are `emu_to_inches` of the placements in the requests, which are modelled.
- Concurrency and `async` scheduling are not modelled. Each tool call is one sequential computation.
- Drive.EscapeQuotesOnly: its own contract states only that every quote it emits is escaped and a length bound. What it does wrong is stated by `Drive.QuotesOnlyCounterexample`, and when it is harmless by `Drive.QuotesOnlySuffices`.

## Findings

| source | as written | input that shows it | evidently intended | confidence | as-written member | corrected member |
|---|---|---|---|---|---|---|
| src/google_slides_mcp/services/drive_service.py:131-134 | only `'` is escaped, as `\'`. A backslash in the search text is left alone. | the search text `\'` becomes `\\'`, so the literal reads as a lone backslash and the query's own quote closes it early | the literal reads back as exactly the search text, which needs `\` escaped as `\\` as well | not executed | Drive.QuotesOnlyCounterexample | Drive.EscapeQueryRoundTrip |
| src/google_slides_mcp/auth/token_store.py:90-94 | every non-alphanumeric character of the user id becomes `_` | the users `a@b` and `a_b` both get `a_b.json`. A store for one is retrieved for the other. | distinct users get distinct credential files | not executed | TokenStore.LegacyFileNameCollision | TokenStore.FileNameInjective |

The tools are modelled as written:

- `Drive.ListFiles` sends `Drive.NameClause`, which escapes only quotes. The corrected clause is `Drive.CorrectedNameClause`, with its read-back `Drive.CorrectedNameClauseReadsBack`.
- `TokenStore.FileTokenStore` names files by `TokenStore.LegacyFileName`. Its agreement with the in-memory store, `TokenStore.StoreMirrors` and `TokenStore.DeleteMirrors`, holds only among users whose sanitised ids differ. The corrected naming keeps the two stores in step for every user: `TokenStore.CorrectedStoreMirrors` and `TokenStore.CorrectedDeleteMirrors`.

The corrected query escaping is `Drive.EscapeQuery`, and its round trip is `Drive.EscapeQueryRoundTrip`.

The corrected file naming, `TokenStore.EncodeUserId`, works as follows:

- Letters and digits are kept.
- Every other character becomes `_` followed by its code point in six hex digits. This includes `_` itself.

Ids made of letters and digits keep the file name the code gives them (`TokenStore.EncodeAgreesOnAlnum`).
