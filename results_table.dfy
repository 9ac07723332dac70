/** The comment table of a finished collection job
    (components/results-table.tsx): pages of comments fetched from the
    job's results endpoint, filtered on the server by text, author and
    replies, and on the client by an editable list of negative keywords. */
module ResultsTable {
  import opened Wrappers
  import opened Text
  import opened Seqs
  import opened Types
  import opened KeywordMatch
  import YouTube

  /** `buildReportUrl(videoId, commentId)`: the comment's own link. */
  function ReportUrl(videoId: string, commentId: string): string
  {
    YouTube.WatchPrefix + videoId + "&lc=" + commentId
  }

  /** A video id without "&" and the comment id can be read back from the
      link, so different comments never share a link. */
  lemma ReportUrlInjective(v1: string, c1: string, v2: string, c2: string)
    requires '&' !in v1 && '&' !in v2
    requires ReportUrl(v1, c1) == ReportUrl(v2, c2)
    ensures v1 == v2 && c1 == c2
  {
    var n := |YouTube.WatchPrefix|;
    var s1, s2 := v1 + "&lc=" + c1, v2 + "&lc=" + c2;
    assert ReportUrl(v1, c1)[n..] == s1;
    assert ReportUrl(v2, c2)[n..] == s2;
    assert s1 == s2;
    assert s1[|v1|] == '&' && s2[|v2|] == '&';
    assert forall k :: 0 <= k < |v1| ==> s1[k] == v1[k];
    assert forall k :: 0 <= k < |v2| ==> s2[k] == v2[k];
    assert |v1| == |v2|;
    assert v1 == s1[..|v1|] == s2[..|v2|] == v2;
    assert c1 == s1[|v1| + 4..] == s2[|v2| + 4..] == c2;
  }

  /** `addKeyword` on the list: the trimmed input is appended when it is
      not blank and not listed yet. */
  function AddedKeyword(keywords: seq<string>, input: string): seq<string>
  {
    match NonBlank(input)
      case Some(kw) => if kw in keywords then keywords else keywords + [kw]
      case None => keywords
  }

  /** Adding keeps the list as a prefix, adds at most the trimmed input,
      adds nothing blank, and never introduces a duplicate. */
  lemma AddedKeywordSpec(keywords: seq<string>, input: string)
    ensures var r := AddedKeyword(keywords, input);
      && keywords <= r
      && (r == keywords || (r == keywords + [Trim(input)] && Trim(input) != "" && Trim(input) !in keywords))
      && (AllSpace(input) ==> r == keywords)
      && (NoDup(keywords) ==> NoDup(r))
  {
    NonBlankSpec(input);
    match NonBlank(input) {
      case None =>
      case Some(kw) =>
        if kw !in keywords && NoDup(keywords) {
          var r := keywords + [kw];
          assert NoDup(r) by {
            forall i, j | 0 <= i < j < |r| ensures r[i] != r[j] {
              if j == |keywords| {
                assert r[i] in keywords;
              }
            }
          }
        }
    }
  }

  /** One query parameter. */
  datatype Param = Param(name: string, value: string)

  /** The query string of `fetchResults`: the cursor always, the filters
      only when set. */
  function Params(cursor: nat, search: string, author: string, repliesOnly: bool): seq<Param>
  {
    [Param("cursor", NatToString(cursor))]
    + (if search != "" then [Param("search", search)] else [])
    + (if author != "" then [Param("author", author)] else [])
    + (if repliesOnly then [Param("repliesOnly", "true")] else [])
  }

  predicate HasParam(ps: seq<Param>, name: string)
  {
    exists i :: 0 <= i < |ps| && ps[i].name == name
  }

  /** The cursor is always sent first; each filter is sent exactly when it
      is set, with its own value. */
  lemma ParamsSpec(cursor: nat, search: string, author: string, repliesOnly: bool)
    ensures var ps := Params(cursor, search, author, repliesOnly);
      && ps[0] == Param("cursor", NatToString(cursor))
      && (HasParam(ps, "search") <==> search != "")
      && (HasParam(ps, "author") <==> author != "")
      && (HasParam(ps, "repliesOnly") <==> repliesOnly)
      && (forall i :: 0 <= i < |ps| && ps[i].name == "search" ==> ps[i].value == search)
      && (forall i :: 0 <= i < |ps| && ps[i].name == "author" ==> ps[i].value == author)
  {
    var ps := Params(cursor, search, author, repliesOnly);
    if search != "" {
      assert ps[1].name == "search";
    }
    if author != "" {
      assert ps[if search != "" then 2 else 1].name == "author";
    }
    if repliesOnly {
      assert ps[|ps| - 1].name == "repliesOnly";
    }
  }

  /** A comment whose plain text contains a negative keyword. */
  function IsFlagged(keywords: seq<string>): CommentRecord -> bool
  {
    (c: CommentRecord) => FirstMatch(c.textPlain, keywords).Some?
  }

  /** `displayComments` */
  function DisplayComments(comments: seq<CommentRecord>, flaggedOnly: bool, keywords: seq<string>): seq<CommentRecord>
  {
    if flaggedOnly then Filter(comments, IsFlagged(keywords)) else comments
  }

  /** `flaggedCount` */
  function FlaggedCount(comments: seq<CommentRecord>, keywords: seq<string>): nat
  {
    Count(comments, IsFlagged(keywords))
  }

  /** With the flagged-only switch on, the rows shown are exactly the
      comments in which some negative keyword is found, in order, and there are
      as many as the badge counts; with it off every comment is shown. */
  lemma DisplayCommentsSpec(comments: seq<CommentRecord>, flaggedOnly: bool, keywords: seq<string>)
    ensures !flaggedOnly ==> DisplayComments(comments, flaggedOnly, keywords) == comments
    ensures flaggedOnly ==>
      && |DisplayComments(comments, flaggedOnly, keywords)| == FlaggedCount(comments, keywords)
      && IsSubseq(DisplayComments(comments, flaggedOnly, keywords), comments)
      && (forall c :: c in DisplayComments(comments, flaggedOnly, keywords) <==>
            c in comments && FirstMatch(c.textPlain, keywords).Some?)
  {
    if flaggedOnly {
      FilterSubseq(comments, IsFlagged(keywords));
      forall c {
        FlaggedShown(comments, keywords, c);
      }
    }
  }

  /** A comment is among the flagged rows exactly when it is flagged. */
  lemma FlaggedShown(comments: seq<CommentRecord>, keywords: seq<string>, c: CommentRecord)
    ensures c in Filter(comments, IsFlagged(keywords)) <==> c in comments && FirstMatch(c.textPlain, keywords).Some?
  {
    FilterMembers(comments, IsFlagged(keywords), c);
  }

  /** The body of a successful results reply. */
  datatype Page = Page(data: seq<CommentRecord>, total: nat, cursor: Option<nat>)

  class Table {
    var comments: seq<CommentRecord>
    var search: string
    var author: string
    var repliesOnly: bool
    var flaggedOnly: bool
    /** The next page's cursor; None when there is none. */
    var cursor: Option<nat>
    var total: nat
    /** `loadedRef`: the initial load has been started. */
    var loaded: bool
    var negativeKeywords: seq<string>
    /** The new-keyword field. */
    var newKeyword: string

    constructor()
      ensures comments == [] && search == "" && author == "" && !repliesOnly && !flaggedOnly
      ensures cursor == Some(0) && total == 0 && !loaded
      ensures negativeKeywords == DefaultNegativeKeywords && newKeyword == ""
    {
      comments := [];
      search := "";
      author := "";
      repliesOnly := false;
      flaggedOnly := false;
      cursor := Some(0);
      total := 0;
      loaded := false;
      negativeKeywords := DefaultNegativeKeywords;
      newKeyword := "";
    }

    /** `addKeyword` */
    method AddKeyword()
      modifies this`negativeKeywords, this`newKeyword
      ensures negativeKeywords == AddedKeyword(old(negativeKeywords), old(newKeyword))
      ensures newKeyword == ""
    {
      match NonBlank(newKeyword) {
        case Some(kw) =>
          if kw !in negativeKeywords {
            negativeKeywords := negativeKeywords + [kw];
          }
        case None =>
      }
      newKeyword := "";
    }

    /** `removeKeyword(kw)` */
    method RemoveKeyword(kw: string)
      modifies this`negativeKeywords
      ensures negativeKeywords == Without(old(negativeKeywords), kw)
    {
      negativeKeywords := Without(negativeKeywords, kw);
    }

    /** `fetchResults(cursorVal, append)`: `sent` is the query sent and
        `reply` the parsed reply, None when it was not ok. */
    method FetchResults(cursorVal: nat, append: bool, reply: Option<Page>) returns (sent: seq<Param>)
      modifies this`comments, this`total, this`cursor
      ensures sent == Params(cursorVal, search, author, repliesOnly)
      ensures reply.None? ==> comments == old(comments) && total == old(total) && cursor == old(cursor)
      ensures reply.Some? ==>
        && comments == (if append then old(comments) + reply.value.data else reply.value.data)
        && total == reply.value.total
        && cursor == reply.value.cursor
    {
      sent := Params(cursorVal, search, author, repliesOnly);
      if reply.None? {
        return;
      }
      if append {
        comments := comments + reply.value.data;
      } else {
        comments := reply.value.data;
      }
      total := reply.value.total;
      cursor := reply.value.cursor;
    }

    /** The initial-load effect: the first page is fetched, replacing the
        list, once the job is done with comments, and never again. */
    method InitialLoad(isDone: bool, totalComments: nat, reply: Option<Page>) returns (fetched: bool)
      modifies this`loaded, this`comments, this`total, this`cursor
      ensures fetched <==> isDone && totalComments > 0 && !old(loaded)
      ensures loaded == (old(loaded) || fetched)
      ensures !fetched ==> comments == old(comments) && total == old(total) && cursor == old(cursor)
      ensures fetched && reply.Some? ==>
        comments == reply.value.data && total == reply.value.total && cursor == reply.value.cursor
      ensures fetched && reply.None? ==>
        comments == old(comments) && total == old(total) && cursor == old(cursor)
    {
      fetched := isDone && totalComments > 0 && !loaded;
      if fetched {
        loaded := true;
        var _ := FetchResults(0, false, reply);
      }
    }

    /** `handleSearch`: back to the first page, replacing the list; a
        failed reply leaves it empty. */
    method HandleSearch(reply: Option<Page>) returns (sent: seq<Param>)
      modifies this`comments, this`total, this`cursor
      ensures sent == Params(0, search, author, repliesOnly)
      ensures reply.None? ==> comments == [] && cursor == Some(0) && total == old(total)
      ensures reply.Some? ==>
        comments == reply.value.data && total == reply.value.total && cursor == reply.value.cursor
    {
      cursor := Some(0);
      comments := [];
      sent := FetchResults(0, false, reply);
    }

    /** `handleLoadMore`: the next page is appended, and only when there is
        a next page. */
    method HandleLoadMore(reply: Option<Page>) returns (fetched: bool)
      modifies this`comments, this`total, this`cursor
      ensures fetched <==> old(cursor).Some?
      ensures !fetched || reply.None? ==> comments == old(comments) && total == old(total) && cursor == old(cursor)
      ensures fetched && reply.Some? ==>
        comments == old(comments) + reply.value.data && total == reply.value.total && cursor == reply.value.cursor
    {
      fetched := cursor.Some?;
      if fetched {
        var _ := FetchResults(cursor.value, true, reply);
      }
    }
  }
}
