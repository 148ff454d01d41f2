/**
 * The template tools: copying a template, replacing placeholder text and
 * placeholder shapes, and searching Drive for presentations. The request
 * lists are what the tools hand to `batch_update`; the replies they read
 * back are inputs.
 */
module Templates {
  import opened Wrappers
  import opened Slides
  import Strings
  import Drive

  const MIME_GOOGLE_SLIDES := "application/vnd.google-apps.presentation"
  const MIME_PPTX := "application/vnd.openxmlformats-officedocument.presentationml.presentation"
  const PRESENTATION_URL_PREFIX := "https://docs.google.com/presentation/d/"

  /** Why a tool call fails after the batch went through. */
  datatype TemplateError = MissingReply(index: nat)

  // ---------------------------------------------------------------------
  // replace_placeholders
  // ---------------------------------------------------------------------

  /** One placeholder of the `replacements` mapping and its replacement text. */
  datatype Replacement = Replacement(placeholder: string, replacement: string)

  /** The keys of a Python dict: no placeholder twice. */
  predicate DistinctPlaceholders(rs: seq<Replacement>) {
    forall i, j :: 0 <= i < j < |rs| ==> rs[i].placeholder != rs[j].placeholder
  }

  /**
   * One reply of the batch: `occurrencesChanged` of its `replaceAllText`
   * and of its `replaceAllShapesWithImage` part, None where the key is absent.
   */
  datatype Reply = Reply(textOccurrences: Option<int>, shapeOccurrences: Option<int>)

  /** `reply.get("replaceAllText", {}).get("occurrencesChanged", 0)`. */
  function TextCount(reply: Reply): int {
    reply.textOccurrences.GetOr(0)
  }

  /** `reply.get("replaceAllShapesWithImage", {}).get("occurrencesChanged", 0)`. */
  function ShapeCount(reply: Reply): int {
    reply.shapeOccurrences.GetOr(0)
  }

  /** One case-sensitive `replaceAllText` per entry of the mapping, in mapping order. */
  function ReplaceRequests(rs: seq<Replacement>): (r: seq<Request>)
    ensures |r| == |rs|
    ensures forall i :: 0 <= i < |rs| ==>
      r[i].ReplaceAllText? && r[i].matchCase
      && r[i].containsText == rs[i].placeholder && r[i].replaceText == rs[i].replacement
  {
    seq(|rs|, i requires 0 <= i < |rs| => ReplaceAllText(rs[i].placeholder, true, rs[i].replacement))
  }

  /** The per-placeholder count, in mapping order. */
  datatype Count = Count(placeholder: string, occurrences: int)

  datatype ReplaceSummary = ReplaceSummary(counts: seq<Count>, total: int)

  /** `sum(counts.values())`. */
  function Total(cs: seq<Count>): int {
    if |cs| == 0 then 0 else Total(cs[..|cs| - 1]) + cs[|cs| - 1].occurrences
  }

  /** The count the tool reports for the i-th placeholder: the reply at the same index. */
  function CountAt(rs: seq<Replacement>, replies: seq<Reply>, i: nat): Count
    requires i < |rs| && i < |replies|
  {
    Count(rs[i].placeholder, TextCount(replies[i]))
  }

  /**
   * What `replace_placeholders` returns for the batch's reply list:
   * `response.get("replies", [])[i]` raises once the replies run out.
   */
  function Summary(rs: seq<Replacement>, replies: Option<seq<Reply>>): (r: Result<ReplaceSummary, TemplateError>)
    ensures r.Err? <==> |replies.GetOr([])| < |rs|
    ensures r.Ok? ==> |r.value.counts| == |rs| && r.value.total == Total(r.value.counts)
  {
    var rl := replies.GetOr([]);
    if |rl| < |rs| then Err(MissingReply(|rl|))
    else
      var cs := seq(|rs|, i requires 0 <= i < |rs| => CountAt(rs, rl, i));
      Ok(ReplaceSummary(cs, Total(cs)))
  }

  lemma {:induction false} TotalAppend(cs: seq<Count>, ds: seq<Count>)
    ensures Total(cs + ds) == Total(cs) + Total(ds)
    decreases |ds|
  {
    if |ds| == 0 {
      assert cs + ds == cs;
    } else {
      TotalAppend(cs, ds[..|ds| - 1]);
      assert (cs + ds)[..|cs + ds| - 1] == cs + ds[..|ds| - 1];
    }
  }

  /** Counts that are never negative sum to at least each of them. */
  lemma {:induction false} TotalBounds(cs: seq<Count>, k: nat)
    requires forall i :: 0 <= i < |cs| ==> cs[i].occurrences >= 0
    requires k < |cs|
    ensures 0 <= cs[k].occurrences <= Total(cs)
    decreases |cs|
  {
    if k < |cs| - 1 {
      TotalBounds(cs[..|cs| - 1], k);
      TotalNonNegative(cs[..|cs| - 1]);
    } else {
      TotalNonNegative(cs[..|cs| - 1]);
    }
  }

  lemma {:induction false} TotalNonNegative(cs: seq<Count>)
    requires forall i :: 0 <= i < |cs| ==> cs[i].occurrences >= 0
    ensures Total(cs) >= 0
    decreases |cs|
  {
    if |cs| > 0 {
      TotalNonNegative(cs[..|cs| - 1]);
    }
  }

  /**
   * The summary fails exactly when there are fewer replies than placeholders;
   * otherwise it has one count per placeholder, in the order of the requests
   * sent, each read from the reply at its own index.
   */
  lemma SummaryMatchesRequests(rs: seq<Replacement>, replies: Option<seq<Reply>>)
    ensures Summary(rs, replies).Err? <==> |replies.GetOr([])| < |rs|
    ensures Summary(rs, replies).Ok? ==>
      var s := Summary(rs, replies).value;
      && |s.counts| == |ReplaceRequests(rs)|
      && (forall i :: 0 <= i < |rs| ==>
            s.counts[i].placeholder == ReplaceRequests(rs)[i].containsText
            && s.counts[i].occurrences == TextCount(replies.value[i]))
      && s.total == Total(s.counts)
  {
  }

  /** With no placeholders nothing is read from the replies and the total is zero. */
  lemma EmptyMappingSummary(replies: Option<seq<Reply>>)
    ensures Summary([], replies) == Ok(ReplaceSummary([], 0))
  {
  }

  /** The counting loop of `replace_placeholders`. */
  method CountReplacements(rs: seq<Replacement>, replies: Option<seq<Reply>>) returns (r: Result<ReplaceSummary, TemplateError>)
    ensures r == Summary(rs, replies)
  {
    var rl := replies.GetOr([]);
    var counts: seq<Count> := [];
    var total := 0;
    var i := 0;
    while i < |rs|
      invariant 0 <= i <= |rs| && i <= |rl|
      invariant |counts| == i
      invariant forall k :: 0 <= k < i ==> counts[k] == CountAt(rs, rl, k)
      invariant total == Total(counts)
    {
      if i >= |rl| {
        return Err(MissingReply(i));
      }
      var c := Count(rs[i].placeholder, TextCount(rl[i]));
      assert (counts + [c])[..i] == counts;
      counts := counts + [c];
      total := total + c.occurrences;
      i := i + 1;
    }
    assert counts == seq(|rs|, k requires 0 <= k < |rs| => CountAt(rs, rl, k));
    r := Ok(ReplaceSummary(counts, total));
  }

  /** `replace_placeholders`: the requests sent, and the summary read from the reply list. */
  method ReplacePlaceholders(rs: seq<Replacement>, replies: Option<seq<Reply>>)
    returns (requests: seq<Request>, r: Result<ReplaceSummary, TemplateError>)
    requires DistinctPlaceholders(rs)
    ensures requests == ReplaceRequests(rs)
    ensures r == Summary(rs, replies)
  {
    requests := ReplaceRequests(rs);
    r := CountReplacements(rs, replies);
  }

  // ---------------------------------------------------------------------
  // replace_placeholder_with_image
  // ---------------------------------------------------------------------

  datatype ReplaceMethod = CenterInside | CenterCrop {
    function Name(): string {
      match this
      case CenterInside => "CENTER_INSIDE"
      case CenterCrop => "CENTER_CROP"
    }
  }

  /** The single case-sensitive `replaceAllShapesWithImage` request. */
  function ImageRequests(placeholderText: string, imageUrl: string, replaceMethod: ReplaceMethod): (r: seq<Request>)
    ensures |r| == 1 && r[0].ReplaceAllShapesWithImage? && r[0].matchCase
    ensures r[0].containsText == placeholderText && r[0].imageUrl == imageUrl
    ensures r[0].replaceMethod == replaceMethod.Name()
    ensures r[0].replaceMethod in {"CENTER_INSIDE", "CENTER_CROP"}
  {
    [ReplaceAllShapesWithImage(imageUrl, replaceMethod.Name(), placeholderText, true)]
  }

  /**
   * `response.get("replies", [{}])[0]`: without a reply list the count is
   * 0; an empty reply list raises.
   */
  function ShapesReplaced(replies: Option<seq<Reply>>): (r: Result<int, TemplateError>)
    ensures r.Err? <==> replies == Some([])
  {
    match replies
    case None => Ok(0)
    case Some(rl) => if |rl| == 0 then Err(MissingReply(0)) else Ok(ShapeCount(rl[0]))
  }

  /**
   * The image count is read the way the text counts are: a reply list for
   * the single request gives the count of its first reply, and an absent
   * occurrence count reads as 0.
   */
  lemma ShapesReplacedFromFirstReply(replies: seq<Reply>)
    requires |replies| >= 1
    ensures ShapesReplaced(Some(replies)) == Ok(ShapeCount(replies[0]))
    ensures replies[0].shapeOccurrences.None? ==> ShapesReplaced(Some(replies)) == Ok(0)
  {
  }

  // ---------------------------------------------------------------------
  // copy_template
  // ---------------------------------------------------------------------

  /** `f"https://docs.google.com/presentation/d/{id}"`. */
  function PresentationUrl(id: string): (url: string)
    ensures |url| == |PRESENTATION_URL_PREFIX| + |id|
  {
    PRESENTATION_URL_PREFIX + id
  }

  /** The id a presentation URL names, None for any other text. */
  function UrlPresentationId(url: string): Option<string> {
    var n := |PRESENTATION_URL_PREFIX|;
    if |url| >= n && url[..n] == PRESENTATION_URL_PREFIX then Some(url[n..]) else None
  }

  /** The URL names the presentation it was built from, and no two ids share a URL. */
  lemma PresentationUrlRoundTrip(id: string, other: string)
    ensures UrlPresentationId(PresentationUrl(id)) == Some(id)
    ensures PresentationUrl(id) == PresentationUrl(other) ==> id == other
  {
    var n := |PRESENTATION_URL_PREFIX|;
    assert PresentationUrl(id)[..n] == PRESENTATION_URL_PREFIX;
    assert PresentationUrl(id)[n..] == id;
    assert PresentationUrl(other)[n..] == other;
  }

  datatype CopiedTemplate = CopiedTemplate(presentationId: string, url: string, converted: bool)

  /**
   * `copy_template`: the `files.copy` call (`fileId` and body) for the
   * template, and the result built from the id of the copy it returns.
   */
  method CopyTemplate(templateId: string, newName: string, destinationFolderId: Option<string>,
                      convertToSlides: bool, copiedId: string)
    returns (fileId: string, body: Drive.CopyBody, result: CopiedTemplate)
    ensures fileId == templateId && body.name == newName
    ensures body.mimeType == (if convertToSlides then Some(MIME_GOOGLE_SLIDES) else None)
    ensures body.parents.Some? <==> Drive.Given(destinationFolderId)
    ensures body.parents.Some? ==> body.parents.value == [destinationFolderId.value]
    ensures result.presentationId == copiedId && result.converted == convertToSlides
    ensures UrlPresentationId(result.url) == Some(copiedId)
  {
    fileId := templateId;
    body := Drive.CopyFileBody(newName, destinationFolderId, if convertToSlides then Some(MIME_GOOGLE_SLIDES) else None);
    result := CopiedTemplate(copiedId, PresentationUrl(copiedId), convertToSlides);
    PresentationUrlRoundTrip(copiedId, copiedId);
  }

  datatype LegacyCopiedTemplate = LegacyCopiedTemplate(presentationId: string, url: string)

  /** The older `copy_template`: no conversion, and no `converted` flag. */
  method LegacyCopyTemplate(templateId: string, newName: string, destinationFolderId: Option<string>, copiedId: string)
    returns (fileId: string, body: Drive.CopyBody, result: LegacyCopiedTemplate)
    ensures fileId == templateId && body.name == newName && body.mimeType.None?
    ensures body.parents.Some? <==> Drive.Given(destinationFolderId)
    ensures body.parents.Some? ==> body.parents.value == [destinationFolderId.value]
    ensures result.presentationId == copiedId
    ensures UrlPresentationId(result.url) == Some(copiedId)
  {
    fileId := templateId;
    body := Drive.CopyFileBody(newName, destinationFolderId, None);
    result := LegacyCopiedTemplate(copiedId, PresentationUrl(copiedId));
    PresentationUrlRoundTrip(copiedId, copiedId);
  }

  // ---------------------------------------------------------------------
  // search_presentations
  // ---------------------------------------------------------------------

  /** An entry of a file's `owners`. */
  datatype Owner = Owner(emailAddress: Option<string>)

  /** A file of `files.list`; an absent `owners` key is the empty list. */
  datatype DriveFile = DriveFile(id: string, name: string, mimeType: string,
                                 createdTime: Option<string>, modifiedTime: Option<string>, owners: seq<Owner>)

  /** A `files.list` response; an absent `files` key is the empty list. */
  datatype FileList = FileList(files: seq<DriveFile>, nextPageToken: Option<string>)

  /**
   * One entry of `presentations`. `owner` is None when the key is absent,
   * and `Some(None)` when the first owner has no email address.
   */
  datatype PresentationEntry = PresentationEntry(
    id: string, name: string, mimeType: string,
    createdTime: Option<string>, modifiedTime: Option<string>,
    url: string, owner: Option<Option<string>>)

  datatype SearchResult = SearchResult(presentations: seq<PresentationEntry>, nextPageToken: Option<string>, totalReturned: nat)

  /** The entry a file becomes. */
  function EntryOf(f: DriveFile): PresentationEntry {
    PresentationEntry(f.id, f.name, f.mimeType, f.createdTime, f.modifiedTime, PresentationUrl(f.id),
      if |f.owners| > 0 then Some(f.owners[0].emailAddress) else None)
  }

  /** An entry keeps the file's fields, links to the file, and names its first owner only when it has one. */
  lemma EntryOfFile(f: DriveFile)
    ensures var e := EntryOf(f);
      && e.id == f.id && e.name == f.name && e.mimeType == f.mimeType
      && e.createdTime == f.createdTime && e.modifiedTime == f.modifiedTime
      && UrlPresentationId(e.url) == Some(f.id)
      && (e.owner.Some? <==> |f.owners| > 0)
      && (e.owner.Some? ==> e.owner.value == f.owners[0].emailAddress)
  {
    PresentationUrlRoundTrip(f.id, f.id);
  }

  /** The `files.list` parameters `search_presentations` asks for. */
  function SearchParams(query: Option<string>, folderId: Option<string>, maxResults: int, pageToken: Option<string>): (p: Drive.ListParams)
    ensures p.q.Some? && 1 <= p.pageSize <= 100
  {
    Drive.ListFilesParams(query, Some([MIME_GOOGLE_SLIDES, MIME_PPTX]), folderId, maxResults, pageToken, false)
  }

  /** The MIME clause of the search names the two presentation types. */
  lemma SearchMimeClause()
    ensures Drive.MimeClause([MIME_GOOGLE_SLIDES, MIME_PPTX]) ==
      "(" + Drive.MimeCondition(MIME_GOOGLE_SLIDES) + " or " + Drive.MimeCondition(MIME_PPTX) + ")"
  {
    var ms := [MIME_GOOGLE_SLIDES, MIME_PPTX];
    var cs := Drive.MimeConditions(ms);
    assert cs[1..] == [Drive.MimeCondition(MIME_PPTX)];
    assert Strings.Join(cs, " or ") == cs[0] + " or " + cs[1];
  }

  /** The search always filters by presentation type and leaves out trashed files. */
  lemma SearchFiltersPresentations(query: Option<string>, folderId: Option<string>, maxResults: int, pageToken: Option<string>)
    ensures var cs := Drive.Clauses(query, [MIME_GOOGLE_SLIDES, MIME_PPTX], folderId, false);
      Drive.MimeClause([MIME_GOOGLE_SLIDES, MIME_PPTX]) in cs && Drive.TRASHED_CLAUSE in cs
    ensures SearchParams(query, folderId, maxResults, pageToken).q.Some?
    ensures 1 <= SearchParams(query, folderId, maxResults, pageToken).pageSize <= 100
  {
  }

  /** `search_presentations`: the list call's parameters, then one entry appended per file. */
  method SearchPresentations(query: Option<string>, folderId: Option<string>, maxResults: int, pageToken: Option<string>, listing: FileList)
    returns (params: Drive.ListParams, result: SearchResult)
    ensures params == SearchParams(query, folderId, maxResults, pageToken)
    ensures |result.presentations| == |listing.files| == result.totalReturned
    ensures forall i :: 0 <= i < |listing.files| ==> result.presentations[i] == EntryOf(listing.files[i])
    ensures result.nextPageToken == listing.nextPageToken
  {
    params := Drive.ListFiles(query, Some([MIME_GOOGLE_SLIDES, MIME_PPTX]), folderId, maxResults, pageToken, false);
    var presentations: seq<PresentationEntry> := [];
    var i := 0;
    while i < |listing.files|
      invariant 0 <= i <= |listing.files|
      invariant |presentations| == i
      invariant forall k :: 0 <= k < i ==> presentations[k] == EntryOf(listing.files[k])
    {
      var f := listing.files[i];
      var entry := PresentationEntry(f.id, f.name, f.mimeType, f.createdTime, f.modifiedTime, PresentationUrl(f.id), None);
      if |f.owners| > 0 {
        entry := entry.(owner := Some(f.owners[0].emailAddress));
      }
      presentations := presentations + [entry];
      i := i + 1;
    }
    result := SearchResult(presentations, listing.nextPageToken, |presentations|);
  }
}
