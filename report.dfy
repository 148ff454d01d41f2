/**
 * What `analyze_presentation` derives from the aggregation: placeholder
 * patterns, usage rankings, the recommendation lines and the choice of
 * key slides for thumbnails.
 */
module AnalysisReport {
  import opened Wrappers
  import opened Strings
  import opened SlideCategories
  import opened Analysis

  // ---------------------------------------------------------------------
  // Placeholder patterns
  // ---------------------------------------------------------------------

  /** An entry of `date_patterns` or `name_patterns`. */
  datatype TextPattern = TextPattern(text: string, placeholderType: string)

  /** The five lists `_analyze_placeholder_patterns` returns. */
  datatype Patterns = Patterns(
    titles: seq<string>, subtitles: seq<string>, bodies: seq<string>,
    dates: seq<TextPattern>, names: seq<TextPattern>)

  const NoPatterns := Patterns([], [], [], [], [])

  /** The date markers are looked for case-sensitively. */
  predicate IsDateText(text: string) {
    AnyIn(text, ["MM.DD", "YYYY", "mm/dd", "date"])
  }

  /** The name markers are looked for in the lower-cased text. */
  predicate IsNameText(text: string) {
    AnyIn(Lower(text), ["full name", "name //", "job title"])
  }

  function TextsOf(ps: seq<TextPattern>): (r: seq<string>)
    ensures |r| == |ps| && forall i :: 0 <= i < |ps| ==> r[i] == ps[i].text
  {
    seq(|ps|, i requires 0 <= i < |ps| => ps[i].text)
  }

  /** `text[:50] + "..."` when longer than 50, else the text. */
  function BodySample(text: string): (r: string)
    ensures |r| <= 53
    ensures |text| <= 50 ==> r == text
    ensures |text| > 50 ==> |r| == 53 && r[..50] == text[..50] && r[50..] == "..."
  {
    if |text| > 50 then text[..50] + "..." else text
  }

  /** Append `x` unless `cap` entries are already there. */
  function Capped<T>(s: seq<T>, x: T, cap: nat): seq<T> {
    if |s| < cap then s + [x] else s
  }

  /** Append a pattern unless one with the same text is already there. */
  function Deduplicated(ps: seq<TextPattern>, p: TextPattern): seq<TextPattern> {
    if p.text in TextsOf(ps) then ps else ps + [p]
  }

  lemma DeduplicatedTexts(ps: seq<TextPattern>, p: TextPattern)
    ensures TextsOf(Deduplicated(ps, p)) == if p.text in TextsOf(ps) then TextsOf(ps) else TextsOf(ps) + [p.text]
  {
  }

  /** One item of `placeholder_texts`. */
  function PatternStep(p: Patterns, item: PlaceholderText): Patterns {
    var text, t := item.text, item.placeholderType;
    var found := TextPattern(text, t);
    Patterns(
      if t == "TITLE" then Capped(p.titles, text, 10) else p.titles,
      if t == "SUBTITLE" then Capped(p.subtitles, text, 10) else p.subtitles,
      if t == "BODY" then Capped(p.bodies, BodySample(text), 5) else p.bodies,
      if IsDateText(text) then Deduplicated(p.dates, found) else p.dates,
      if IsNameText(text) then Deduplicated(p.names, found) else p.names)
  }

  /** `_analyze_placeholder_patterns`. */
  function PatternsOf(items: seq<PlaceholderText>): Patterns {
    if |items| == 0 then NoPatterns else PatternStep(PatternsOf(items[..|items| - 1]), items[|items| - 1])
  }

  /** The texts of the items of one placeholder type, in order. */
  function TypedTexts(items: seq<PlaceholderText>, t: string): (r: seq<string>)
    ensures |r| <= |items|
  {
    if |items| == 0 then []
    else TypedTexts(items[..|items| - 1], t) + (if items[|items| - 1].placeholderType == t then [items[|items| - 1].text] else [])
  }

  /** The first `n` elements, or all of them. */
  function FirstN<T>(s: seq<T>, n: nat): (r: seq<T>)
    ensures |r| <= n && r <= s
  {
    if |s| <= n then s else s[..n]
  }

  function Samples(texts: seq<string>): (r: seq<string>)
    ensures |r| == |texts| && forall i :: 0 <= i < |texts| ==> r[i] == BodySample(texts[i])
  {
    seq(|texts|, i requires 0 <= i < |texts| => BodySample(texts[i]))
  }

  lemma CappedIsFirstN<T>(s: seq<T>, x: T, cap: nat, all: seq<T>)
    requires s == FirstN(all, cap)
    ensures Capped(s, x, cap) == FirstN(all + [x], cap)
  {
    if |all| < cap {
      assert FirstN(all + [x], cap) == all + [x];
    } else {
      assert (all + [x])[..cap] == all[..cap];
    }
  }

  /** The title samples are the first ten TITLE texts. */
  lemma {:induction false} TitlesAreFirstTen(items: seq<PlaceholderText>)
    ensures PatternsOf(items).titles == FirstN(TypedTexts(items, "TITLE"), 10)
    ensures PatternsOf(items).subtitles == FirstN(TypedTexts(items, "SUBTITLE"), 10)
  {
    if |items| > 0 {
      var front, last := items[..|items| - 1], items[|items| - 1];
      TitlesAreFirstTen(front);
      var p := PatternsOf(front);
      if last.placeholderType == "TITLE" {
        CappedIsFirstN(p.titles, last.text, 10, TypedTexts(front, "TITLE"));
      }
      if last.placeholderType == "SUBTITLE" {
        CappedIsFirstN(p.subtitles, last.text, 10, TypedTexts(front, "SUBTITLE"));
      }
    }
  }

  /** The body samples are the first five BODY texts, each cut to 50 characters plus "...". */
  lemma {:induction false} BodiesAreFirstFive(items: seq<PlaceholderText>)
    ensures PatternsOf(items).bodies == Samples(FirstN(TypedTexts(items, "BODY"), 5))
  {
    if |items| > 0 {
      var front, last := items[..|items| - 1], items[|items| - 1];
      BodiesAreFirstFive(front);
      var p := PatternsOf(front);
      var all := TypedTexts(front, "BODY");
      if last.placeholderType == "BODY" {
        if |all| < 5 {
          assert FirstN(all + [last.text], 5) == FirstN(all, 5) + [last.text];
        } else {
          assert FirstN(all + [last.text], 5) == FirstN(all, 5);
        }
      }
    }
  }

  /** No text is listed twice among the date or the name patterns. */
  lemma {:induction false} PatternsDistinct(items: seq<PlaceholderText>)
    ensures Distinct(TextsOf(PatternsOf(items).dates))
    ensures Distinct(TextsOf(PatternsOf(items).names))
  {
    if |items| > 0 {
      PatternsDistinct(items[..|items| - 1]);
    }
  }

  /** The date and name lists after one more item. */
  lemma PatternsOfLast(items: seq<PlaceholderText>)
    requires |items| > 0
    ensures var front, last := items[..|items| - 1], items[|items| - 1];
      var found := TextPattern(last.text, last.placeholderType);
      && PatternsOf(items).dates == (if IsDateText(last.text) then Deduplicated(PatternsOf(front).dates, found) else PatternsOf(front).dates)
      && PatternsOf(items).names == (if IsNameText(last.text) then Deduplicated(PatternsOf(front).names, found) else PatternsOf(front).names)
  {
  }

  /** A text is among the date patterns exactly when some item carries it and a date marker. */
  lemma {:induction false} DatePatternsExact(items: seq<PlaceholderText>, text: string)
    ensures text in TextsOf(PatternsOf(items).dates) <==> exists i :: 0 <= i < |items| && items[i].text == text && IsDateText(text)
  {
    if |items| > 0 {
      var front, last := items[..|items| - 1], items[|items| - 1];
      var before, after := TextsOf(PatternsOf(front).dates), TextsOf(PatternsOf(items).dates);
      assert IsDateText(last.text) ==> (text in after <==> text in before || text == last.text) by {
        PatternsOfLast(items);
        DeduplicatedHas(PatternsOf(front).dates, TextPattern(last.text, last.placeholderType), text);
      }
      assert !IsDateText(last.text) ==> after == before by {
        PatternsOfLast(items);
      }
      assert items == front + [last];
      DatePatternsExact(front, text);
      ListedExactStep(items, front, last, text, before, after, IsDateText(text), IsDateText(last.text));
    }
  }

  /** A text is among the name patterns exactly when some item carries it and a name marker. */
  lemma {:induction false} NamePatternsExact(items: seq<PlaceholderText>, text: string)
    ensures text in TextsOf(PatternsOf(items).names) <==> exists i :: 0 <= i < |items| && items[i].text == text && IsNameText(text)
  {
    if |items| > 0 {
      var front, last := items[..|items| - 1], items[|items| - 1];
      var before, after := TextsOf(PatternsOf(front).names), TextsOf(PatternsOf(items).names);
      assert IsNameText(last.text) ==> (text in after <==> text in before || text == last.text) by {
        PatternsOfLast(items);
        DeduplicatedHas(PatternsOf(front).names, TextPattern(last.text, last.placeholderType), text);
      }
      assert !IsNameText(last.text) ==> after == before by {
        PatternsOfLast(items);
      }
      assert items == front + [last];
      NamePatternsExact(front, text);
      ListedExactStep(items, front, last, text, before, after, IsNameText(text), IsNameText(last.text));
    }
  }

  /**
   * The inductive step shared by the date and the name lists, over their
   * texts: `marked` says whether the text carries the marker, `lastMarked`
   * whether the last item's text does; a marked last item adds its text.
   */
  lemma ListedExactStep(items: seq<PlaceholderText>, front: seq<PlaceholderText>, last: PlaceholderText, text: string,
                        before: seq<string>, after: seq<string>, marked: bool, lastMarked: bool)
    requires items == front + [last] && (last.text == text ==> lastMarked == marked)
    requires text in before <==> exists i :: 0 <= i < |front| && front[i].text == text && marked
    requires lastMarked ==> (text in after <==> text in before || text == last.text)
    requires !lastMarked ==> after == before
    ensures text in after <==> exists i :: 0 <= i < |items| && items[i].text == text && marked
  {
    if text in after {
      if text in before {
        var i :| 0 <= i < |front| && front[i].text == text && marked;
        assert items[i] == front[i];
      } else {
        assert items[|front|] == last;
      }
    }
    if exists i :: 0 <= i < |items| && items[i].text == text && marked {
      var i :| 0 <= i < |items| && items[i].text == text && marked;
      if i < |front| {
        assert front[i] == items[i];
      }
    }
  }

  /** The texts of a list after the deduplicated append of one pattern. */
  lemma DeduplicatedHas(ps: seq<TextPattern>, p: TextPattern, text: string)
    ensures text in TextsOf(Deduplicated(ps, p)) <==> text in TextsOf(ps) || text == p.text
  {
    DeduplicatedTexts(ps, p);
    if p.text !in TextsOf(ps) {
      assert TextsOf(ps + [p])[|ps|] == p.text;
    }
  }

  /** `_analyze_placeholder_patterns`, appending to the five lists in place. */
  method AnalyzePlaceholderPatterns(items: seq<PlaceholderText>) returns (p: Patterns)
    ensures p == PatternsOf(items)
  {
    var titles, subtitles, bodies: seq<string> := [], [], [];
    var dates, names: seq<TextPattern> := [], [];
    var k := 0;
    while k < |items|
      invariant k <= |items|
      invariant Patterns(titles, subtitles, bodies, dates, names) == PatternsOf(items[..k])
    {
      PatternsOfExtends(items, k);
      titles, subtitles, bodies, dates, names := NotePlaceholder(titles, subtitles, bodies, dates, names, items[k]);
      k := k + 1;
    }
    assert items[..k] == items;
    p := Patterns(titles, subtitles, bodies, dates, names);
  }

  lemma PatternsOfExtends(items: seq<PlaceholderText>, k: nat)
    requires k < |items|
    ensures PatternsOf(items[..k + 1]) == PatternStep(PatternsOf(items[..k]), items[k])
  {
    assert items[..k + 1][..k] == items[..k];
  }

  /** The body of the pattern loop: one placeholder text appended where it belongs. */
  method NotePlaceholder(titles0: seq<string>, subtitles0: seq<string>, bodies0: seq<string>,
                         dates0: seq<TextPattern>, names0: seq<TextPattern>, item: PlaceholderText)
    returns (titles: seq<string>, subtitles: seq<string>, bodies: seq<string>, dates: seq<TextPattern>, names: seq<TextPattern>)
    ensures Patterns(titles, subtitles, bodies, dates, names)
      == PatternStep(Patterns(titles0, subtitles0, bodies0, dates0, names0), item)
  {
    titles, subtitles, bodies, dates, names := titles0, subtitles0, bodies0, dates0, names0;
    var text, t := item.text, item.placeholderType;
    if IsDateText(text) && text !in TextsOf(dates) {
      dates := dates + [TextPattern(text, t)];
    }
    if IsNameText(text) && text !in TextsOf(names) {
      names := names + [TextPattern(text, t)];
    }
    if t == "TITLE" {
      if |titles| < 10 {
        titles := titles + [text];
      }
    } else if t == "SUBTITLE" {
      if |subtitles| < 10 {
        subtitles := subtitles + [text];
      }
    } else if t == "BODY" {
      if |bodies| < 5 {
        bodies := bodies + [if |text| > 50 then text[..50] + "..." else text];
      }
    }
  }

  // ---------------------------------------------------------------------
  // Ranking registry keys by usage
  // ---------------------------------------------------------------------

  /** `len(d[key])`. */
  function UsageCount(u: Usage, key: string): nat {
    if key in u.contexts then |u.contexts[key]| else 0
  }

  /** Most used first. */
  predicate ByUsageDesc(u: Usage, s: seq<string>) {
    forall i, j :: 0 <= i < j < |s| ==> UsageCount(u, s[i]) >= UsageCount(u, s[j])
  }

  /** Place `key` after every key used at least as often: later keys stay behind their ties. */
  function InsertByUsage(u: Usage, key: string, sorted: seq<string>): (r: seq<string>)
    ensures multiset(r) == multiset(sorted) + multiset{key}
  {
    if |sorted| == 0 then [key]
    else if UsageCount(u, sorted[0]) >= UsageCount(u, key) then
      assert sorted == [sorted[0]] + sorted[1..];
      [sorted[0]] + InsertByUsage(u, key, sorted[1..])
    else [key] + sorted
  }

  /** `sorted(keys, key=lambda k: len(d[k]), reverse=True)`, stable like Python's sort. */
  function RankedByUsage(u: Usage, keys: seq<string>): (r: seq<string>)
    ensures multiset(r) == multiset(keys)
  {
    if |keys| == 0 then []
    else
      assert keys == keys[..|keys| - 1] + [keys[|keys| - 1]];
      InsertByUsage(u, keys[|keys| - 1], RankedByUsage(u, keys[..|keys| - 1]))
  }

  lemma {:induction false} InsertByUsageSorted(u: Usage, key: string, sorted: seq<string>)
    requires ByUsageDesc(u, sorted)
    ensures ByUsageDesc(u, InsertByUsage(u, key, sorted))
  {
    if |sorted| > 0 && UsageCount(u, sorted[0]) >= UsageCount(u, key) {
      var rest := InsertByUsage(u, key, sorted[1..]);
      InsertByUsageSorted(u, key, sorted[1..]);
      HeadAboveInsert(u, key, sorted, rest);
      ConsSorted(u, sorted[0], rest);
      assert InsertByUsage(u, key, sorted) == [sorted[0]] + rest;
    } else if |sorted| > 0 {
      ConsSorted(u, key, sorted);
    }
  }

  /** The head of a ranking is used at least as often as every key of the rest with `key` inserted. */
  lemma HeadAboveInsert(u: Usage, key: string, sorted: seq<string>, rest: seq<string>)
    requires |sorted| > 0 && ByUsageDesc(u, sorted) && UsageCount(u, sorted[0]) >= UsageCount(u, key)
    requires multiset(rest) == multiset(sorted[1..]) + multiset{key}
    ensures forall j :: 0 <= j < |rest| ==> UsageCount(u, sorted[0]) >= UsageCount(u, rest[j])
  {
    forall j | 0 <= j < |rest|
      ensures UsageCount(u, sorted[0]) >= UsageCount(u, rest[j])
    {
      assert rest[j] in multiset(rest);
      if rest[j] != key {
        assert rest[j] in multiset(sorted[1..]);
        var m :| 0 <= m < |sorted[1..]| && sorted[1..][m] == rest[j];
        assert sorted[m + 1] == rest[j];
      }
    }
  }

  /** A key used at least as often as every key of a ranking can go in front of it. */
  lemma ConsSorted(u: Usage, head: string, s: seq<string>)
    requires ByUsageDesc(u, s) && forall j :: 0 <= j < |s| ==> UsageCount(u, head) >= UsageCount(u, s[j])
    ensures ByUsageDesc(u, [head] + s)
  {
    var t := [head] + s;
    forall i, j | 0 <= i < j < |t|
      ensures UsageCount(u, t[i]) >= UsageCount(u, t[j])
    {
      if i > 0 {
        assert t[i] == s[i - 1] && t[j] == s[j - 1];
      } else {
        assert t[j] == s[j - 1];
      }
    }
  }

  /** The ranking is a permutation of the keys, most used first. */
  lemma {:induction false} RankedByUsageSorted(u: Usage, keys: seq<string>)
    ensures ByUsageDesc(u, RankedByUsage(u, keys))
    ensures multiset(RankedByUsage(u, keys)) == multiset(keys)
  {
    if |keys| > 0 {
      RankedByUsageSorted(u, keys[..|keys| - 1]);
      InsertByUsageSorted(u, keys[|keys| - 1], RankedByUsage(u, keys[..|keys| - 1]));
    }
  }

  /** `max(keys, key=lambda k: len(d[k]))`: the position of the first most-used key. */
  function MostUsedIndex(u: Usage, keys: seq<string>): (i: nat)
    requires |keys| > 0
    ensures i < |keys|
    ensures forall j :: 0 <= j < |keys| ==> UsageCount(u, keys[j]) <= UsageCount(u, keys[i])
    ensures forall j :: 0 <= j < i ==> UsageCount(u, keys[j]) < UsageCount(u, keys[i])
  {
    if |keys| == 1 then 0
    else
      var best := MostUsedIndex(u, keys[..|keys| - 1]);
      if UsageCount(u, keys[|keys| - 1]) > UsageCount(u, keys[best]) then |keys| - 1 else best
  }

  // ---------------------------------------------------------------------
  // Recommendations
  // ---------------------------------------------------------------------

  /** One recommendation line, before it is rendered as text. */
  datatype Advice =
    | UseCovers(numbers: seq<nat>, found: nat)
    | UseSections(numbers: seq<nat>)
    | ReplaceDate(text: string)
    | ReplaceName(text: string)
    | KeepFont(font: string)
    | BrandColors(colors: seq<string>)
    | Workflow
  {
    /** The line as `_generate_recommendations` words it. */
    function Text(): string {
      match this
      case UseCovers(numbers, found) =>
        "Use slides " + Join(NumberTexts(numbers), ", ") + " as cover options (found " + NatToString(found) + " cover variants)"
      case UseSections(numbers) => "Use slides " + Join(NumberTexts(numbers), ", ") + " as section dividers"
      case ReplaceDate(text) => "Replace date placeholder '" + text + "' with actual dates"
      case ReplaceName(text) => "Replace name placeholder '" + text + "' with presenter info"
      case KeepFont(font) => "Maintain '" + font + "' as the primary font for consistency"
      case BrandColors(colors) => "Primary brand colors detected: " + Join(colors, ", ")
      case Workflow => "Workflow: copy_template \U{2192} delete unused slides \U{2192} replace_placeholders \U{2192} add images"
    }
  }

  function NumberTexts(numbers: seq<nat>): (r: seq<string>)
    ensures |r| == |numbers|
  {
    seq(|numbers|, i requires 0 <= i < |numbers| => NatToString(numbers[i]))
  }

  /** The summaries categorised as `c`, in slide order. */
  function InCategory(infos: seq<SlideInfo>, c: Category): (r: seq<SlideInfo>)
    ensures |r| <= |infos|
  {
    if |infos| == 0 then []
    else InCategory(infos[..|infos| - 1], c) + (if Categorize(infos[|infos| - 1]) == c then [infos[|infos| - 1]] else [])
  }

  /** `s['index'] + 1` for each summary. */
  function SlideNumbers(infos: seq<SlideInfo>): (r: seq<nat>)
    ensures |r| == |infos| && forall i :: 0 <= i < |infos| ==> r[i] == infos[i].index + 1
  {
    seq(|infos|, i requires 0 <= i < |infos| => infos[i].index + 1)
  }

  function When(c: bool, a: Advice): (r: seq<Advice>)
    ensures |r| == if c then 1 else 0
  {
    if c then [a] else []
  }

  /** The lines about cover and section slides. */
  function SlideAdvice(infos: seq<SlideInfo>): (r: seq<Advice>)
    ensures |r| <= 2
    ensures forall i :: 0 <= i < |r| ==> r[i].UseCovers? || r[i].UseSections?
    ensures forall i :: 0 < i < |r| ==> r[i].UseSections?
    ensures |r| > 0 && r[0].UseCovers? <==> InCategory(infos, Cover) != []
  {
    var covers := InCategory(infos, Cover);
    var sections := InCategory(infos, SectionDivider);
    var sectionLines := if sections != [] then [UseSections(SlideNumbers(FirstN(sections, 2)))] else [];
    if covers != [] then [UseCovers(SlideNumbers(FirstN(covers, 4)), |covers|)] + sectionLines else sectionLines
  }

  /** The lines about date and name placeholders. */
  function PatternAdvice(p: Patterns): (r: seq<Advice>)
    ensures forall i :: 0 <= i < |r| ==> r[i].ReplaceDate? || r[i].ReplaceName?
  {
    var nameLines := if p.names != [] then [ReplaceName(p.names[0].text)] else [];
    if p.dates != [] then [ReplaceDate(p.dates[0].text)] + nameLines else nameLines
  }

  /** The lines about the font and the colours. */
  function StyleAdvice(fonts: Usage, colors: Usage): (r: seq<Advice>)
    ensures forall i :: 0 <= i < |r| ==> r[i].KeepFont? || r[i].BrandColors?
    ensures fonts.keys != [] ==> |r| > 0 && r[0] == KeepFont(fonts.keys[MostUsedIndex(fonts, fonts.keys)])
  {
    var colorLines := if colors.keys != [] then [BrandColors(FirstN(RankedByUsage(colors, colors.keys), 3))] else [];
    if fonts.keys != [] then [KeepFont(fonts.keys[MostUsedIndex(fonts, fonts.keys)])] + colorLines else colorLines
  }

  /** `_generate_recommendations`. */
  function Recommendations(infos: seq<SlideInfo>, p: Patterns, fonts: Usage, colors: Usage): seq<Advice> {
    SlideAdvice(infos) + PatternAdvice(p) + StyleAdvice(fonts, colors) + [Workflow]
  }

  /**
   * The workflow line always comes last and only there; a cover line is
   * given exactly when there are cover slides, and then only first.
   */
  lemma RecommendationsShape(infos: seq<SlideInfo>, p: Patterns, fonts: Usage, colors: Usage)
    ensures var r := Recommendations(infos, p, fonts, colors);
      && |r| >= 1 && r[|r| - 1] == Workflow
      && (forall i :: 0 <= i < |r| - 1 ==> !r[i].Workflow?)
      && (r[0].UseCovers? <==> InCategory(infos, Cover) != [])
      && (forall i :: 0 < i < |r| ==> !r[i].UseCovers?)
  {
    AdviceLayout(SlideAdvice(infos), PatternAdvice(p), StyleAdvice(fonts, colors));
  }

  /** The three groups of lines, then the workflow line. */
  lemma AdviceLayout(a: seq<Advice>, b: seq<Advice>, c: seq<Advice>)
    requires forall i :: 0 <= i < |a| ==> a[i].UseCovers? || a[i].UseSections?
    requires forall i :: 0 < i < |a| ==> a[i].UseSections?
    requires forall i :: 0 <= i < |b| ==> b[i].ReplaceDate? || b[i].ReplaceName?
    requires forall i :: 0 <= i < |c| ==> c[i].KeepFont? || c[i].BrandColors?
    ensures var r := a + b + c + [Workflow];
      && r[|r| - 1] == Workflow
      && (forall i :: 0 <= i < |r| - 1 ==> !r[i].Workflow?)
      && (r[0].UseCovers? <==> |a| > 0 && a[0].UseCovers?)
      && (forall i :: 0 < i < |r| ==> !r[i].UseCovers?)
  {
    var r := a + b + c + [Workflow];
    forall i | 0 <= i < |r|
      ensures i < |r| - 1 ==> !r[i].Workflow?
      ensures i > 0 ==> !r[i].UseCovers?
    {
      if i < |a| {
        assert r[i] == a[i];
      } else if i < |a| + |b| {
        assert r[i] == b[i - |a|];
      } else if i < |a| + |b| + |c| {
        assert r[i] == c[i - |a| - |b|];
      } else {
        assert r[i] == Workflow;
      }
    }
    if |a| == 0 {
      assert r[0] == (b + c + [Workflow])[0];
    } else {
      assert r[0] == a[0];
    }
  }


  /** The cover line lists the numbers of the first four cover slides at most, with the full count. */
  lemma CoverAdvice(infos: seq<SlideInfo>)
    requires InCategory(infos, Cover) != []
    ensures var a := SlideAdvice(infos)[0];
      && a.UseCovers? && |a.numbers| <= 4 && a.found == |InCategory(infos, Cover)|
      && (forall i :: 0 <= i < |a.numbers| ==> a.numbers[i] == InCategory(infos, Cover)[i].index + 1)
  {
  }

  /** The font advised is the first of the fonts used in the most contexts. */
  lemma FontAdvice(infos: seq<SlideInfo>, p: Patterns, fonts: Usage, colors: Usage)
    requires fonts.keys != []
    ensures exists i :: (
      && 0 <= i < |fonts.keys|
      && KeepFont(fonts.keys[i]) in Recommendations(infos, p, fonts, colors)
      && (forall j :: 0 <= j < |fonts.keys| ==> UsageCount(fonts, fonts.keys[j]) <= UsageCount(fonts, fonts.keys[i]))
      && (forall j :: 0 <= j < i ==> UsageCount(fonts, fonts.keys[j]) < UsageCount(fonts, fonts.keys[i])))
  {
    var i := MostUsedIndex(fonts, fonts.keys);
    var r := Recommendations(infos, p, fonts, colors);
    var a, b, c := SlideAdvice(infos), PatternAdvice(p), StyleAdvice(fonts, colors);
    assert r == a + b + c + [Workflow];
    assert r[|a| + |b|] == c[0];
  }

  /** The brand colours are at most three registry keys, most used first, none more used left out. */
  lemma ColorAdvice(colors: Usage)
    ensures var top := FirstN(RankedByUsage(colors, colors.keys), 3);
      && |top| <= 3 && ByUsageDesc(colors, top)
      && (forall k :: k in top ==> k in colors.keys)
      && (forall k :: k in colors.keys && k !in top ==> forall t :: t in top ==> UsageCount(colors, t) >= UsageCount(colors, k))
  {
    RankedByUsageSorted(colors, colors.keys);
    TopOfRanking(colors, RankedByUsage(colors, colors.keys), colors.keys, 3);
  }

  /** A prefix of a ranking of `keys` holds keys only, and none of the rest is used more. */
  lemma TopOfRanking(u: Usage, ranked: seq<string>, keys: seq<string>, n: nat)
    requires ByUsageDesc(u, ranked) && multiset(ranked) == multiset(keys)
    ensures var top := FirstN(ranked, n);
      && |top| <= n && ByUsageDesc(u, top)
      && (forall k :: k in top ==> k in keys)
      && (forall k :: k in keys && k !in top ==> forall t :: t in top ==> UsageCount(u, t) >= UsageCount(u, k))
  {
    var top := FirstN(ranked, n);
    forall k | k in top
      ensures k in keys
    {
      assert k in multiset(ranked);
    }
    forall k, t | k in keys && k !in top && t in top
      ensures UsageCount(u, t) >= UsageCount(u, k)
    {
      assert k in multiset(ranked);
      var a :| 0 <= a < |top| && top[a] == t;
      var b :| 0 <= b < |ranked| && ranked[b] == k;
      assert b >= |top|;
    }
  }

  /** The cover and section lines appended to `r`. */
  method AppendSlideAdvice(r0: seq<Advice>, infos: seq<SlideInfo>) returns (r: seq<Advice>)
    ensures r == r0 + SlideAdvice(infos)
  {
    r := r0;
    var covers := InCategory(infos, Cover);
    if covers != [] {
      r := r + [UseCovers(SlideNumbers(FirstN(covers, 4)), |covers|)];
    }
    var sections := InCategory(infos, SectionDivider);
    if sections != [] {
      r := r + [UseSections(SlideNumbers(FirstN(sections, 2)))];
    }
  }

  /** The date and name lines appended to `r`. */
  method AppendPatternAdvice(r0: seq<Advice>, p: Patterns) returns (r: seq<Advice>)
    ensures r == r0 + PatternAdvice(p)
  {
    r := r0;
    if p.dates != [] {
      r := r + [ReplaceDate(p.dates[0].text)];
    }
    if p.names != [] {
      r := r + [ReplaceName(p.names[0].text)];
    }
  }

  /** The font and colour lines appended to `r`. */
  method AppendStyleAdvice(r0: seq<Advice>, fonts: Usage, colors: Usage) returns (r: seq<Advice>)
    ensures r == r0 + StyleAdvice(fonts, colors)
  {
    r := r0;
    if fonts.keys != [] {
      r := r + [KeepFont(fonts.keys[MostUsedIndex(fonts, fonts.keys)])];
    }
    if colors.keys != [] {
      r := r + [BrandColors(FirstN(RankedByUsage(colors, colors.keys), 3))];
    }
  }

  /** `_generate_recommendations`, appending line by line. */
  method GenerateRecommendations(infos: seq<SlideInfo>, p: Patterns, fonts: Usage, colors: Usage) returns (r: seq<Advice>)
    ensures r == Recommendations(infos, p, fonts, colors)
  {
    r := AppendSlideAdvice([], infos);
    assert r == SlideAdvice(infos);
    r := AppendPatternAdvice(r, p);
    r := AppendStyleAdvice(r, fonts, colors);
    r := r + [Workflow];
  }

  // ---------------------------------------------------------------------
  // Key slides for thumbnails
  // ---------------------------------------------------------------------

  /** The categories `_select_key_slides` takes one slide from, in order. */
  const KeyPriority: seq<Category> := [Cover, SectionDivider, Content, DataVisualization, Mockup, Infographic]

  predicate NoDuplicates<T(==)>(s: seq<T>) {
    forall i, j :: 0 <= i < j < |s| ==> s[i] != s[j]
  }

  /** The first summary categorised as `c`, if any. */
  function FirstOf(infos: seq<SlideInfo>, c: Category): (r: Option<SlideInfo>)
    ensures r.Some? ==> r.value in infos && Categorize(r.value) == c
    ensures r.None? ==> forall x :: x in infos ==> Categorize(x) != c
  {
    if |infos| == 0 then None
    else if Categorize(infos[0]) == c then Some(infos[0])
    else FirstOf(infos[1..], c)
  }

  function OptionSeq<T>(o: Option<T>): (s: seq<T>)
    ensures |s| <= 1
  {
    if o.Some? then [o.value] else []
  }

  /** The first phase: one slide per category of `prio`, until `maxCount` are taken. */
  function PerCategory(infos: seq<SlideInfo>, prio: seq<Category>, maxCount: int, acc: seq<SlideInfo>): seq<SlideInfo>
    decreases |prio|
  {
    if |prio| == 0 || |acc| >= maxCount then acc
    else PerCategory(infos, prio[1..], maxCount, acc + OptionSeq(FirstOf(infos, prio[0])))
  }

  /** The second phase: every slide not taken yet, in order, until `maxCount` are taken. */
  function FillUp(rest: seq<SlideInfo>, maxCount: int, acc: seq<SlideInfo>): seq<SlideInfo>
    decreases |rest|
  {
    if |rest| == 0 || |acc| >= maxCount then acc
    else FillUp(rest[1..], maxCount, if rest[0] in acc then acc else acc + [rest[0]])
  }

  /** Python's `s[:n]`, a negative `n` counting from the end. */
  function SliceTo<T>(s: seq<T>, n: int): (r: seq<T>)
    ensures r <= s
  {
    if n >= 0 then FirstN(s, n) else if |s| + n <= 0 then [] else s[..|s| + n]
  }

  /** `_select_key_slides`. */
  function KeySlides(infos: seq<SlideInfo>, maxCount: int): seq<SlideInfo> {
    SliceTo(FillUp(infos, maxCount, PerCategory(infos, KeyPriority, maxCount, [])), maxCount)
  }

  lemma {:induction false} PerCategoryBounded(infos: seq<SlideInfo>, prio: seq<Category>, maxCount: int, acc: seq<SlideInfo>)
    requires |acc| <= maxCount || |acc| == 0
    ensures acc <= PerCategory(infos, prio, maxCount, acc)
    ensures |PerCategory(infos, prio, maxCount, acc)| <= maxCount || PerCategory(infos, prio, maxCount, acc) == acc
    ensures forall x :: x in PerCategory(infos, prio, maxCount, acc) ==> x in acc || x in infos
    decreases |prio|
  {
    if |prio| > 0 && |acc| < maxCount {
      PerCategoryBounded(infos, prio[1..], maxCount, acc + OptionSeq(FirstOf(infos, prio[0])));
    }
  }

  lemma {:induction false} FillUpBounded(rest: seq<SlideInfo>, maxCount: int, acc: seq<SlideInfo>)
    requires |acc| <= maxCount || |acc| == 0
    ensures acc <= FillUp(rest, maxCount, acc)
    ensures |FillUp(rest, maxCount, acc)| <= maxCount || FillUp(rest, maxCount, acc) == acc
    ensures forall x :: x in FillUp(rest, maxCount, acc) ==> x in acc || x in rest
    decreases |rest|
  {
    if |rest| > 0 && |acc| < maxCount {
      FillUpBounded(rest[1..], maxCount, if rest[0] in acc then acc else acc + [rest[0]]);
    }
  }

  lemma KeyPriorityDistinct()
    ensures NoDuplicates(KeyPriority)
  {
  }

  /** The first phase picks no slide twice: each pick is of a category not seen before. */
  lemma {:induction false} PerCategoryDistinct(infos: seq<SlideInfo>, prio: seq<Category>, maxCount: int, acc: seq<SlideInfo>)
    requires NoDuplicates(acc) && NoDuplicates(prio)
    requires forall x, c :: x in acc && c in prio ==> Categorize(x) != c
    ensures NoDuplicates(PerCategory(infos, prio, maxCount, acc))
    decreases |prio|
  {
    if |prio| > 0 && |acc| < maxCount {
      var next := acc + OptionSeq(FirstOf(infos, prio[0]));
      forall x, c | x in next && c in prio[1..]
        ensures Categorize(x) != c
      {
        var k :| 0 <= k < |prio[1..]| && prio[1..][k] == c;
        assert prio[k + 1] == c && c in prio;
        if x !in acc {
          assert Categorize(x) == prio[0];
          assert prio[0] != prio[k + 1];
        }
      }
      assert NoDuplicates(prio[1..]) by {
        forall i, j | 0 <= i < j < |prio[1..]|
          ensures prio[1..][i] != prio[1..][j]
        {
          assert prio[1..][i] == prio[i + 1] && prio[1..][j] == prio[j + 1];
        }
      }
      if FirstOf(infos, prio[0]).Some? {
        assert prio[0] in prio;
      }
      PerCategoryDistinct(infos, prio[1..], maxCount, next);
    }
  }

  lemma {:induction false} FillUpDistinct(rest: seq<SlideInfo>, maxCount: int, acc: seq<SlideInfo>)
    requires NoDuplicates(acc)
    ensures NoDuplicates(FillUp(rest, maxCount, acc))
    decreases |rest|
  {
    if |rest| > 0 && |acc| < maxCount {
      FillUpDistinct(rest[1..], maxCount, if rest[0] in acc then acc else acc + [rest[0]]);
    }
  }

  /** The second phase stops short of `maxCount` only once every remaining slide is in. */
  lemma {:induction false} FillUpComplete(rest: seq<SlideInfo>, maxCount: int, acc: seq<SlideInfo>)
    requires |FillUp(rest, maxCount, acc)| < maxCount
    ensures forall x :: x in rest ==> x in FillUp(rest, maxCount, acc)
    decreases |rest|
  {
    if |rest| > 0 {
      var next := if rest[0] in acc then acc else acc + [rest[0]];
      FillUpComplete(rest[1..], maxCount, next);
      FillUpBounded(rest[1..], maxCount, next);
      assert rest[0] in next;
      forall x | x in rest
        ensures x in FillUp(rest, maxCount, acc)
      {
        if x != rest[0] {
          assert x in rest[1..];
        }
      }
    }
  }

  /**
   * At most `maxCount` slides (none for a `maxCount` of zero or less), all
   * from the deck, none twice; the final slice never cuts anything off.
   */
  lemma KeySlidesBounded(infos: seq<SlideInfo>, maxCount: int)
    ensures var r := KeySlides(infos, maxCount);
      && |r| <= (if maxCount < 0 then 0 else maxCount)
      && NoDuplicates(r)
      && (forall x :: x in r ==> x in infos)
      && (maxCount >= 0 ==> r == FillUp(infos, maxCount, PerCategory(infos, KeyPriority, maxCount, [])))
  {
    var first := PerCategory(infos, KeyPriority, maxCount, []);
    PerCategoryBounded(infos, KeyPriority, maxCount, []);
    KeyPriorityDistinct();
    PerCategoryDistinct(infos, KeyPriority, maxCount, []);
    var all := FillUp(infos, maxCount, first);
    if maxCount < 0 {
      assert first == [] && all == [];
    } else {
      FillUpBounded(infos, maxCount, first);
    }
    FillUpDistinct(infos, maxCount, first);
  }

  /** The first phase comes first: the slides it picks start the answer. */
  lemma KeySlidesStartPerCategory(infos: seq<SlideInfo>, maxCount: int)
    requires maxCount >= 0
    ensures PerCategory(infos, KeyPriority, maxCount, []) <= KeySlides(infos, maxCount)
  {
    var first := PerCategory(infos, KeyPriority, maxCount, []);
    PerCategoryBounded(infos, KeyPriority, maxCount, []);
    FillUpBounded(infos, maxCount, first);
    KeySlidesBounded(infos, maxCount);
  }

  /** Fewer than `maxCount` slides only when every slide of the deck is among them. */
  lemma KeySlidesComplete(infos: seq<SlideInfo>, maxCount: int)
    requires |KeySlides(infos, maxCount)| < maxCount
    ensures forall x :: x in infos ==> x in KeySlides(infos, maxCount)
  {
    KeySlidesBounded(infos, maxCount);
    FillUpComplete(infos, maxCount, PerCategory(infos, KeyPriority, maxCount, []));
  }

  /** The first slide of each category of `prio` that has one, in the order of `prio`. */
  function Firsts(infos: seq<SlideInfo>, prio: seq<Category>): seq<SlideInfo>
    decreases |prio|
  {
    if |prio| == 0 then [] else OptionSeq(FirstOf(infos, prio[0])) + Firsts(infos, prio[1..])
  }

  /** With room for six, the answer opens with the first cover, section divider, content, chart, mockup and infographic slide that exist. */
  lemma KeySlidesOpenWithFirsts(infos: seq<SlideInfo>, maxCount: int)
    requires maxCount >= 6
    ensures Firsts(infos, KeyPriority) <= KeySlides(infos, maxCount)
  {
    PerCategoryPicksBelow(infos, KeyPriority, maxCount, []);
    KeySlidesStartPerCategory(infos, maxCount);
  }

  lemma {:induction false} PerCategoryPicksBelow(infos: seq<SlideInfo>, prio: seq<Category>, maxCount: int, acc: seq<SlideInfo>)
    requires |acc| + |prio| <= maxCount
    ensures PerCategory(infos, prio, maxCount, acc) == acc + Firsts(infos, prio)
    decreases |prio|
  {
    if |prio| > 0 {
      var next := acc + OptionSeq(FirstOf(infos, prio[0]));
      PerCategoryPicksBelow(infos, prio[1..], maxCount, next);
    }
  }

  /** `_select_key_slides`, with its `categories_seen` set and its breaks. */
  method SelectKeySlides(infos: seq<SlideInfo>, maxCount: int) returns (r: seq<SlideInfo>)
    ensures r == KeySlides(infos, maxCount)
  {
    KeyPriorityDistinct();
    var keySlides := PickPerCategory(infos, KeyPriority, maxCount);
    keySlides := FillRemaining(infos, maxCount, keySlides);
    r := SliceTo(keySlides, maxCount);
  }

  lemma PerCategoryStep(infos: seq<SlideInfo>, prio: seq<Category>, p: nat, maxCount: int, acc: seq<SlideInfo>)
    requires p < |prio| && |acc| < maxCount
    ensures PerCategory(infos, prio[p..], maxCount, acc)
      == PerCategory(infos, prio[p + 1..], maxCount, acc + OptionSeq(FirstOf(infos, prio[p])))
  {
    assert prio[p..][0] == prio[p] && prio[p..][1..] == prio[p + 1..];
  }

  /** Without duplicates, the category at `p` is not among the earlier ones. */
  lemma NotEarlier(prio: seq<Category>, p: nat)
    requires NoDuplicates(prio) && p < |prio|
    ensures prio[p] !in prio[..p]
  {
  }

  /** The first loop of `_select_key_slides`, over the categories `prio`. */
  method PickPerCategory(infos: seq<SlideInfo>, prio: seq<Category>, maxCount: int) returns (keySlides: seq<SlideInfo>)
    requires NoDuplicates(prio)
    ensures keySlides == PerCategory(infos, prio, maxCount, [])
  {
    keySlides := [];
    var seen: set<Category> := {};
    var p := 0;
    while p < |prio|
      invariant p <= |prio|
      invariant PerCategory(infos, prio[p..], maxCount, keySlides) == PerCategory(infos, prio, maxCount, [])
      invariant forall c :: c in seen ==> c in prio[..p]
    {
      if |keySlides| >= maxCount {
        break;
      }
      var category := prio[p];
      NotEarlier(prio, p);
      PerCategoryStep(infos, prio, p, maxCount, keySlides);
      ghost var before := keySlides;
      var first := FirstInCategory(infos, category, seen);
      if first.Some? {
        keySlides := keySlides + [first.value];
        seen := seen + {category};
      }
      assert keySlides == before + OptionSeq(first);
      assert prio[..p + 1] == prio[..p] + [category];
      p := p + 1;
    }
  }

  /** The second loop of `_select_key_slides`. */
  method FillRemaining(infos: seq<SlideInfo>, maxCount: int, picked: seq<SlideInfo>) returns (keySlides: seq<SlideInfo>)
    ensures keySlides == FillUp(infos, maxCount, picked)
  {
    keySlides := picked;
    var k := 0;
    while k < |infos|
      invariant k <= |infos|
      invariant FillUp(infos[k..], maxCount, keySlides) == FillUp(infos, maxCount, picked)
    {
      if |keySlides| >= maxCount {
        break;
      }
      if infos[k] !in keySlides {
        keySlides := keySlides + [infos[k]];
      }
      assert infos[k..][1..] == infos[k + 1..];
      k := k + 1;
    }
  }

  /** The inner search of the first phase: the first slide of `category`, unless the category was seen. */
  method FirstInCategory(infos: seq<SlideInfo>, category: Category, seen: set<Category>) returns (r: Option<SlideInfo>)
    requires category !in seen
    ensures r == FirstOf(infos, category)
  {
    var k := 0;
    while k < |infos|
      invariant k <= |infos|
      invariant FirstOf(infos[k..], category) == FirstOf(infos, category)
    {
      if Categorize(infos[k]) == category && category !in seen {
        return Some(infos[k]);
      }
      assert infos[k..][1..] == infos[k + 1..];
      k := k + 1;
    }
    return None;
  }
}
