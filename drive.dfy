/**
 * The request parameters `DriveService` builds: the body of `files.copy`
 * and the query and parameters of `files.list`. The Drive query language
 * reads a string literal between single quotes, where a backslash escapes
 * the character after it.
 */
module Drive {
  import opened Wrappers
  import opened Strings

  // ---------------------------------------------------------------------
  // files.copy
  // ---------------------------------------------------------------------

  /** The body of `files.copy`: `parents` and `mimeType` are keys only when given. */
  datatype CopyBody = CopyBody(name: string, parents: Option<seq<string>>, mimeType: Option<string>)

  predicate Given(s: Option<string>) {
    s.Some? && s.value != ""
  }

  /** `copy_file`: the body is filled key by key. */
  method CopyFileBody(newName: string, parentFolderId: Option<string>, targetMimeType: Option<string>) returns (body: CopyBody)
    ensures body.name == newName
    ensures body.parents.Some? <==> Given(parentFolderId)
    ensures body.parents.Some? ==> body.parents.value == [parentFolderId.value]
    ensures body.mimeType.Some? <==> Given(targetMimeType)
    ensures body.mimeType.Some? ==> body.mimeType == targetMimeType
  {
    body := CopyBody(newName, None, None);
    if Given(parentFolderId) {
      body := body.(parents := Some([parentFolderId.value]));
    }
    if Given(targetMimeType) {
      body := body.(mimeType := targetMimeType);
    }
  }

  // ---------------------------------------------------------------------
  // String literals of the query language
  // ---------------------------------------------------------------------

  /**
   * Read a quoted literal whose opening quote is already consumed: the
   * characters up to the first unescaped `'`, with `\x` standing for `x`,
   * and what follows the closing quote; None when the literal never closes.
   */
  function ReadLiteral(s: string): Option<(string, string)>
    decreases |s|
  {
    if |s| == 0 then None
    else if s[0] == '\'' then Some(("", s[1..]))
    else if s[0] == '\\' then
      if |s| < 2 then None
      else match ReadLiteral(s[2..])
        case None => None
        case Some(r) => Some(([s[1]] + r.0, r.1))
    else match ReadLiteral(s[1..])
      case None => None
      case Some(r) => Some(([s[0]] + r.0, r.1))
  }

  /** `query.replace("'", "\\'")`, as written: only quotes are escaped. */
  function EscapeQuotesOnly(q: string): (r: string)
    ensures |r| >= |q|
    ensures forall i :: 0 <= i < |r| && r[i] == '\'' ==> 0 < i && r[i - 1] == '\\'
  {
    if |q| == 0 then ""
    else (if q[0] == '\'' then "\\'" else [q[0]]) + EscapeQuotesOnly(q[1..])
  }

  /** The escaping the query language needs: backslashes and quotes both. */
  function EscapeQuery(q: string): (r: string)
    ensures |r| >= |q|
  {
    if |q| == 0 then ""
    else (if q[0] == '\\' then "\\\\" else if q[0] == '\'' then "\\'" else [q[0]]) + EscapeQuery(q[1..])
  }

  /** Reading past an escape pair `\c`. */
  lemma ReadEscaped(c: char, rest: string)
    ensures ReadLiteral(['\\', c] + rest) ==
      (if ReadLiteral(rest).None? then None else Some(([c] + ReadLiteral(rest).value.0, ReadLiteral(rest).value.1)))
  {
    var s := ['\\', c] + rest;
    assert s[0] == '\\' && s[1] == c && s[2..] == rest;
  }

  /** Reading past a plain character. */
  lemma ReadPlain(c: char, rest: string)
    requires c != '\\' && c != '\''
    ensures ReadLiteral([c] + rest) ==
      (if ReadLiteral(rest).None? then None else Some(([c] + ReadLiteral(rest).value.0, ReadLiteral(rest).value.1)))
  {
    var s := [c] + rest;
    assert s[0] == c && s[1..] == rest;
  }

  /** The escaped text read back as a literal gives the query, and the reader stops right after it. */
  lemma {:induction false} EscapeQueryRoundTrip(q: string, tail: string)
    ensures ReadLiteral(EscapeQuery(q) + "'" + tail) == Some((q, tail))
  {
    if |q| == 0 {
      assert EscapeQuery(q) + "'" + tail == "'" + tail;
      assert ("'" + tail)[1..] == tail;
    } else {
      EscapeQueryRoundTrip(q[1..], tail);
      var e := EscapeQuery(q[1..]);
      var rest := e + "'" + tail;
      if q[0] == '\\' || q[0] == '\'' {
        assert EscapeQuery(q) == ['\\', q[0]] + e;
        PrependRegroup(['\\', q[0]], e, "'", tail);
        ReadEscaped(q[0], rest);
      } else {
        assert EscapeQuery(q) == [q[0]] + e;
        PrependRegroup([q[0]], e, "'", tail);
        ReadPlain(q[0], rest);
      }
      assert q == [q[0]] + q[1..];
    }
  }

  lemma PrependRegroup(h: string, e: string, q: string, t: string)
    ensures (h + e) + q + t == h + (e + q + t)
  {
  }

  /** Without backslashes in the query, escaping only the quotes is enough. */
  lemma {:induction false} QuotesOnlySuffices(q: string)
    requires forall i :: 0 <= i < |q| ==> q[i] != '\\'
    ensures EscapeQuotesOnly(q) == EscapeQuery(q)
  {
    if |q| > 0 {
      QuotesOnlySuffices(q[1..]);
    }
  }

  /**
   * With a backslash in front of a quote, escaping only the quotes breaks
   * the literal: the query `\'` is read back as a lone backslash, and the
   * query's own quote is left over after the literal.
   */
  lemma QuotesOnlyCounterexample()
    ensures ReadLiteral(EscapeQuotesOnly("\\'") + "'") == Some(("\\", "'"))
    ensures ReadLiteral(EscapeQuotesOnly("\\'") + "'") != Some(("\\'", ""))
  {
    var q := "\\'";
    assert q[1..] == "'";
    assert EscapeQuotesOnly("'") == "\\'" by {
      assert "'"[1..] == "";
    }
    assert EscapeQuotesOnly(q) == "\\" + "\\'";
    assert EscapeQuotesOnly(q) + "'" == ['\\', '\\'] + "''";
    assert "''"[1..] == "'";
    assert ReadLiteral("''") == Some(("", "'"));
    ReadEscaped('\\', "''");
    assert ['\\'] + "" == "\\";
  }

  // ---------------------------------------------------------------------
  // files.list
  // ---------------------------------------------------------------------

  const LIST_FIELDS := "nextPageToken,files(id,name,mimeType,createdTime,modifiedTime,owners)"

  /** `name contains '...'`, with the quotes of the query escaped as the tool does. */
  function NameClause(query: string): (c: string)
    ensures |c| >= 16 && c[..15] == "name contains '" && c[|c| - 1] == '\''
  {
    "name contains '" + EscapeQuotesOnly(query) + "'"
  }

  /** The name clause with the escaping the query language needs. */
  function CorrectedNameClause(query: string): (c: string)
    ensures |c| >= 16 && c[..15] == "name contains '" && c[|c| - 1] == '\''
  {
    "name contains '" + EscapeQuery(query) + "'"
  }

  function MimeCondition(m: string): string {
    "mimeType = '" + m + "'"
  }

  function MimeConditions(ms: seq<string>): (r: seq<string>)
    ensures |r| == |ms| && forall i :: 0 <= i < |ms| ==> r[i] == MimeCondition(ms[i])
  {
    seq(|ms|, i requires 0 <= i < |ms| => MimeCondition(ms[i]))
  }

  /** `(mimeType = 'a' or mimeType = 'b' ...)`. */
  function MimeClause(ms: seq<string>): string {
    "(" + Join(MimeConditions(ms), " or ") + ")"
  }

  function FolderClause(folderId: string): string {
    "'" + folderId + "' in parents"
  }

  const TRASHED_CLAUSE := "trashed = false"

  /** The clauses of the query, in the order they are appended. */
  function Clauses(query: Option<string>, mimeTypes: seq<string>, folderId: Option<string>, includeTrashed: bool): (r: seq<string>)
    ensures |r| <= 4
    ensures |r| == 0 <==> !Given(query) && |mimeTypes| == 0 && !Given(folderId) && includeTrashed
    ensures Given(query) ==> r[0] == NameClause(query.value)
    ensures !includeTrashed ==> r[|r| - 1] == TRASHED_CLAUSE
  {
    (if Given(query) then [NameClause(query.value)] else [])
    + (if |mimeTypes| > 0 then [MimeClause(mimeTypes)] else [])
    + (if Given(folderId) then [FolderClause(folderId.value)] else [])
    + (if !includeTrashed then [TRASHED_CLAUSE] else [])
  }

  /** The place of a clause in the order name, MIME types, folder, trash, told by its first character. */
  function ClauseRank(c: string): nat {
    if |c| == 0 then 4
    else if c[0] == 'n' then 0
    else if c[0] == '(' then 1
    else if c[0] == '\'' then 2
    else if c[0] == 't' then 3
    else 4
  }

  /** The kinds of a list of clauses, one rank per clause. */
  function Ranks(cs: seq<string>): (rs: seq<nat>)
    ensures |rs| == |cs| && forall i :: 0 <= i < |cs| ==> rs[i] == ClauseRank(cs[i])
  {
    seq(|cs|, i requires 0 <= i < |cs| => ClauseRank(cs[i]))
  }

  lemma RanksAppend(a: seq<string>, b: seq<string>)
    ensures Ranks(a + b) == Ranks(a) + Ranks(b)
  {
  }

  /** The rank of the clause for kind `k`, when its argument is given. */
  function PresentRank(present: bool, k: nat): seq<nat> {
    if present then [k] else []
  }

  lemma ClauseRanks(query: Option<string>, mimeTypes: seq<string>, folderId: Option<string>, includeTrashed: bool)
    ensures Ranks(Clauses(query, mimeTypes, folderId, includeTrashed)) ==
      PresentRank(Given(query), 0) + PresentRank(|mimeTypes| > 0, 1) + PresentRank(Given(folderId), 2) + PresentRank(!includeTrashed, 3)
  {
    var a := if Given(query) then [NameClause(query.value)] else [];
    var b := if |mimeTypes| > 0 then [MimeClause(mimeTypes)] else [];
    var c := if Given(folderId) then [FolderClause(folderId.value)] else [];
    var d := if !includeTrashed then [TRASHED_CLAUSE] else [];
    assert Ranks(a) == PresentRank(Given(query), 0) by {
      if Given(query) { assert NameClause(query.value)[0] == 'n'; }
    }
    assert Ranks(b) == PresentRank(|mimeTypes| > 0, 1) by {
      if |mimeTypes| > 0 { assert MimeClause(mimeTypes)[0] == '('; }
    }
    assert Ranks(c) == PresentRank(Given(folderId), 2) by {
      if Given(folderId) { assert FolderClause(folderId.value)[0] == '\''; }
    }
    assert Ranks(d) == PresentRank(!includeTrashed, 3);
    RanksAppend(a, b);
    RanksAppend(a + b, c);
    RanksAppend(a + b + c, d);
  }

  /** A clause of each kind is there exactly when its argument is given, and the kinds come in order. */
  lemma ClausesInOrder(query: Option<string>, mimeTypes: seq<string>, folderId: Option<string>, includeTrashed: bool)
    ensures var rs := Ranks(Clauses(query, mimeTypes, folderId, includeTrashed));
      && (forall i, j :: 0 <= i < j < |rs| ==> rs[i] < rs[j])
      && (0 in rs <==> Given(query))
      && (1 in rs <==> |mimeTypes| > 0)
      && (2 in rs <==> Given(folderId))
      && (3 in rs <==> !includeTrashed)
  {
    ClauseRanks(query, mimeTypes, folderId, includeTrashed);
    PresentRanksInOrder(Given(query), |mimeTypes| > 0, Given(folderId), !includeTrashed);
  }

  /** Ranks 0 to 3, each kept when present: strictly increasing, and a rank is there exactly when present. */
  lemma PresentRanksInOrder(p0: bool, p1: bool, p2: bool, p3: bool)
    ensures var rs := PresentRank(p0, 0) + PresentRank(p1, 1) + PresentRank(p2, 2) + PresentRank(p3, 3);
      && (forall i, j :: 0 <= i < j < |rs| ==> rs[i] < rs[j])
      && (0 in rs <==> p0) && (1 in rs <==> p1) && (2 in rs <==> p2) && (3 in rs <==> p3)
  {
    var r0 := PresentRank(p0, 0);
    var r1 := AppendRank(r0, p1, 1);
    var r2 := AppendRank(r1, p2, 2);
    var r3 := AppendRank(r2, p3, 3);
  }

  predicate Increasing(rs: seq<nat>) {
    forall i, j :: 0 <= i < j < |rs| ==> rs[i] < rs[j]
  }

  /** Appending the rank `k`, above every rank so far, keeps the ranks increasing. */
  lemma AppendRank(rs: seq<nat>, present: bool, k: nat) returns (r: seq<nat>)
    requires Increasing(rs) && forall i :: 0 <= i < |rs| ==> rs[i] < k
    ensures r == rs + PresentRank(present, k)
    ensures Increasing(r) && forall i :: 0 <= i < |r| ==> r[i] < k + 1
    ensures forall m :: m in r <==> m in rs || (present && m == k)
  {
    r := rs + PresentRank(present, k);
  }

  /**
   * The name clause the tool sends, read as a query, searches for exactly
   * the text given when that text holds no backslash.
   */
  lemma NameClauseReadsBack(query: string)
    requires forall i :: 0 <= i < |query| ==> query[i] != '\\'
    ensures var c := NameClause(query);
      |c| > 15 && c[..15] == "name contains '" && ReadLiteral(c[15..]) == Some((query, ""))
  {
    var c := NameClause(query);
    QuotesOnlySuffices(query);
    assert c[15..] == EscapeQuery(query) + "'" + "";
    EscapeQueryRoundTrip(query, "");
  }

  /** With a backslash before a quote, the name clause the tool sends reads back as another text. */
  lemma NameClauseMisreads()
    ensures var c := NameClause("\\'");
      |c| > 15 && ReadLiteral(c[15..]) == Some(("\\", "'"))
  {
    var c := NameClause("\\'");
    assert c[15..] == EscapeQuotesOnly("\\'") + "'";
    QuotesOnlyCounterexample();
  }

  /** The corrected name clause, read as a query, searches for exactly the text given. */
  lemma CorrectedNameClauseReadsBack(query: string)
    ensures var c := CorrectedNameClause(query);
      |c| > 15 && c[..15] == "name contains '" && ReadLiteral(c[15..]) == Some((query, ""))
  {
    var c := CorrectedNameClause(query);
    assert c[15..] == EscapeQuery(query) + "'" + "";
    EscapeQueryRoundTrip(query, "");
  }

  /** The parameters of `files.list`. */
  datatype ListParams = ListParams(pageSize: int, fields: string, q: Option<string>, pageToken: Option<string>)

  /** `max(1, min(100, page_size))`. */
  function ClampPageSize(pageSize: int): (r: int)
    ensures 1 <= r <= 100
    ensures 1 <= pageSize <= 100 ==> r == pageSize
    ensures pageSize < 1 ==> r == 1
    ensures pageSize > 100 ==> r == 100
  {
    if pageSize < 1 then 1 else if pageSize > 100 then 100 else pageSize
  }

  /** What `list_files` passes to `files.list`. */
  function ListFilesParams(query: Option<string>, mimeTypes: Option<seq<string>>, folderId: Option<string>,
                           pageSize: int, pageToken: Option<string>, includeTrashed: bool): (p: ListParams)
    ensures 1 <= p.pageSize <= 100 && p.fields == LIST_FIELDS
    ensures p.q.Some? <==> Given(query) || |mimeTypes.GetOr([])| > 0 || Given(folderId) || !includeTrashed
  {
    var clauses := Clauses(query, mimeTypes.GetOr([]), folderId, includeTrashed);
    ListParams(
      ClampPageSize(pageSize),
      LIST_FIELDS,
      if |clauses| > 0 then Some(Join(clauses, " and ")) else None,
      if Given(pageToken) then pageToken else None)
  }

  /** `q` is left out exactly when no clause applies; `pageToken` is passed exactly when given. */
  lemma ListFilesParamsOptional(query: Option<string>, mimeTypes: Option<seq<string>>, folderId: Option<string>,
                                pageSize: int, pageToken: Option<string>, includeTrashed: bool)
    ensures var p := ListFilesParams(query, mimeTypes, folderId, pageSize, pageToken, includeTrashed);
      && (p.q.None? <==> !Given(query) && |mimeTypes.GetOr([])| == 0 && !Given(folderId) && includeTrashed)
      && (p.pageToken.Some? <==> Given(pageToken))
      && (p.pageToken.Some? ==> p.pageToken == pageToken)
      && p.fields == LIST_FIELDS
  {
  }

  /** With only the trash filter, the query is exactly `trashed = false`. */
  lemma DefaultQuery(pageSize: int)
    ensures ListFilesParams(None, None, None, pageSize, None, false).q == Some("trashed = false")
  {
  }

  /** The clauses of `list_files`, appended one by one. */
  method QueryClauses(query: Option<string>, mimeTypes: Option<seq<string>>, folderId: Option<string>, includeTrashed: bool)
    returns (clauses: seq<string>)
    ensures clauses == Clauses(query, mimeTypes.GetOr([]), folderId, includeTrashed)
  {
    var ms := mimeTypes.GetOr([]);
    clauses := [];
    if Given(query) {
      clauses := clauses + [NameClause(query.value)];
    }
    assert clauses == (if Given(query) then [NameClause(query.value)] else []);
    if mimeTypes.Some? && |mimeTypes.value| > 0 {
      clauses := clauses + [MimeClause(mimeTypes.value)];
    }
    ghost var ab := clauses;
    assert ab == (if Given(query) then [NameClause(query.value)] else [])
      + (if |ms| > 0 then [MimeClause(ms)] else []);
    if Given(folderId) {
      clauses := clauses + [FolderClause(folderId.value)];
    }
    ghost var abc := clauses;
    assert abc == ab + (if Given(folderId) then [FolderClause(folderId.value)] else []);
    if !includeTrashed {
      clauses := clauses + [TRASHED_CLAUSE];
    }
    assert clauses == abc + (if !includeTrashed then [TRASHED_CLAUSE] else []);
  }

  /** `list_files`: the clauses joined into `q`, then the parameters filled key by key. */
  method ListFiles(query: Option<string>, mimeTypes: Option<seq<string>>, folderId: Option<string>,
                   pageSize: int, pageToken: Option<string>, includeTrashed: bool) returns (params: ListParams)
    ensures params == ListFilesParams(query, mimeTypes, folderId, pageSize, pageToken, includeTrashed)
  {
    var clauses := QueryClauses(query, mimeTypes, folderId, includeTrashed);
    params := ListParams(ClampPageSize(pageSize), LIST_FIELDS, None, None);
    if |clauses| > 0 {
      params := params.(q := Some(Join(clauses, " and ")));
    }
    if Given(pageToken) {
      params := params.(pageToken := pageToken);
    }
  }
}
