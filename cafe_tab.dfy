/** The Naver cafe tab (components/cafe-tab.tsx): like the blog tab, a
    comma-separated input is searched keyword by keyword, but through the
    cafe route, optionally restricted to one target cafe whose id is taken
    from a URL or typed directly. The route is the function `fetch` from the
    request's query parameters to its reply. */
module CafeTab {
  import opened Wrappers
  import opened Text
  import opened Seqs
  import opened Types
  import opened Recent
  import opened OrderedMap
  import opened Tabs
  import ResultsTable

  /** `MAX_RECENT` */
  const MaxRecent: nat := 8

  const EmptyKeyword := "검색어를 입력해주세요."

  // ---------------------------------------------------------------------
  // The target cafe

  /** `pathname.replace(/^\//, "")` */
  function DropLeadingSlash(path: string): string
  {
    if |path| > 0 && path[0] == '/' then path[1..] else path
  }

  /** `extractCafeId(input)`. `parsedPath` is the path of the trimmed input
      when it parses as a URL, None when parsing throws. */
  function ExtractCafeId(input: string, parsedPath: Option<string>): string
  {
    var t := Trim(input);
    if t == "" then ""
    else match parsedPath
      case Some(path) => Split(DropLeadingSlash(path), '/')[0]
      case None => RemoveChar(t, '/')
  }

  /** The id never holds a "/", and a blank field gives no cafe. */
  lemma ExtractCafeIdShape(input: string, parsedPath: Option<string>)
    ensures '/' !in ExtractCafeId(input, parsedPath)
    ensures AllSpace(input) ==> ExtractCafeId(input, parsedPath) == ""
  {
    TrimBlank(input);
  }

  /** A URL gives the first segment of its path, up to the next "/". */
  lemma ExtractCafeIdFromUrl(input: string, path: string)
    requires !AllSpace(input)
    ensures var p, r := DropLeadingSlash(path), ExtractCafeId(input, Some(path));
      StartsWith(p, r) && (|r| == |p| || p[|r|] == '/')
  {
    TrimBlank(input);
    SplitFirst(DropLeadingSlash(path), '/');
  }

  /** Anything else is taken as the id itself, trimmed and with every "/"
      removed. */
  lemma ExtractCafeIdTyped(input: string)
    requires !AllSpace(input) && '/' !in input
    ensures ExtractCafeId(input, None) == Trim(input)
  {
    TrimBlank(input);
    forall k | 0 <= k < |Trim(input)| ensures Trim(input)[k] != '/' {
      TrimChar(input, k);
    }
  }

  // ---------------------------------------------------------------------
  // The request

  /** The query of the request for one keyword: more results per page when
      a cafe is targeted, and the cafe only then. */
  function RequestParams(keyword: string, cafeId: string): seq<ResultsTable.Param>
  {
    [ResultsTable.Param("keyword", keyword),
     ResultsTable.Param("display", if cafeId != "" then "100" else "30"),
     ResultsTable.Param("sort", "date")]
    + (if cafeId != "" then [ResultsTable.Param("cafeId", cafeId)] else [])
  }

  /** Every request carries the keyword and sorts by date; it asks for 100
      results exactly when a cafe is targeted, and 30 otherwise; and it
      names the cafe exactly when there is one. */
  lemma RequestParamsSpec(keyword: string, cafeId: string)
    ensures var ps := RequestParams(keyword, cafeId);
      && ps[0] == ResultsTable.Param("keyword", keyword)
      && ps[2] == ResultsTable.Param("sort", "date")
      && (ps[1].value == "100" <==> cafeId != "")
      && (ps[1].value == "30" <==> cafeId == "")
      && (ResultsTable.HasParam(ps, "cafeId") <==> cafeId != "")
      && (forall i :: 0 <= i < |ps| && ps[i].name == "cafeId" ==> ps[i].value == cafeId)
  {
    var ps := RequestParams(keyword, cafeId);
    if cafeId != "" {
      assert ps[3].name == "cafeId";
    }
  }

  /** The request made from the cafe field: a blank field targets no cafe
      and asks for 30 rows; any named cafe is the extracted id, which holds
      no "/". */
  lemma FieldRequest(keyword: string, cafeUrl: string, parsedPath: Option<string>)
    ensures var ps := RequestParams(keyword, ExtractCafeId(cafeUrl, parsedPath));
      && (AllSpace(cafeUrl) ==> !ResultsTable.HasParam(ps, "cafeId") && ps[1].value == "30")
      && (forall i :: 0 <= i < |ps| && ps[i].name == "cafeId" ==>
            ps[i].value == ExtractCafeId(cafeUrl, parsedPath) && '/' !in ps[i].value)
  {
    ExtractCafeIdShape(cafeUrl, parsedPath);
    RequestParamsSpec(keyword, ExtractCafeId(cafeUrl, parsedPath));
  }

  // ---------------------------------------------------------------------
  // Results

  /** What the saved search history read back as: nothing (or an empty
      string), a list, JSON that is not a list, or text that is not JSON. */
  datatype SavedHistory = NothingSaved | SavedList(entries: seq<string>) | SavedNotAList | SavedUnparsable

  /** A result as the tab reads it from the route (the comment count is not
      modelled). */
  datatype CafeResult = CafeResult(
    id: string, title: string, content: string, author: string, link: string,
    publishedAt: string, cafeName: string, cafeUrl: string)

  /** The route's reply: the `items` field is None when it is missing. */
  type Fetch = seq<ResultsTable.Param> -> Reply<Option<seq<CafeResult>>>

  /** The reply for one keyword, given the target cafe. */
  function KeywordFetch(fetch: Fetch, cafeId: string): string -> Reply<Option<seq<CafeResult>>>
  {
    (k: string) => fetch(RequestParams(k, cafeId))
  }

  function LinkOf(r: CafeResult): string
  {
    r.link
  }

  /** One keyword's list: the reply's items with a link, once per link, the
      first one seen kept; no items when the field is missing. */
  function KeywordResults(items: Option<seq<CafeResult>>): seq<CafeResult>
  {
    DedupFrom(items.GetOr([]), LinkOf, {""})
  }

  /** A keyword's list is the reply's items in order, each link once, none
      without a link, and every non-empty link of the reply appears. */
  lemma KeywordResultsSpec(items: Option<seq<CafeResult>>)
    ensures var r := KeywordResults(items);
      && IsSubseq(r, items.GetOr([]))
      && DistinctKeys(r, LinkOf)
      && (forall i :: 0 <= i < |r| ==> r[i].link != "")
      && Keys(r, LinkOf) == Keys(items.GetOr([]), LinkOf) - {""}
  {
    var r := KeywordResults(items);
    DedupDistinct(items.GetOr([]), LinkOf, {""});
    DedupKeys(items.GetOr([]), LinkOf, {""});
    forall i | 0 <= i < |r| ensures r[i].link != "" {
      assert LinkOf(r[i]) in Keys(r, LinkOf);
    }
  }

  function CafeFailed(status: nat): string
  {
    "Naver Cafe 검색 실패 (" + NatToString(status) + ")"
  }

  /** The outcome of the loop of `search` for the target cafe. */
  function Gathered(keywords: seq<string>, fetch: Fetch, cafeId: string): (r: Result<OMap<seq<CafeResult>>, string>)
    ensures r.Success? ==> r.value.Valid()
  {
    GatherFrom(keywords, KeywordFetch(fetch, cafeId), KeywordResults, CafeFailed, Empty())
  }

  /** The item handed to `onItemsCollected`: the cafe's name stands as the
      author when it is known. */
  function ToMonitoring(r: CafeResult): MonitoringItem
  {
    MonitoringItem(r.id, Naver, Cafe, r.title, r.content, Or(r.cafeName, r.author), None,
      r.link, r.publishedAt, [], false)
  }

  /** `Object.values(newResults).flat()`, mapped to monitoring items. */
  function CollectedItems(results: OMap<seq<CafeResult>>): seq<MonitoringItem>
    requires results.Valid()
  {
    Map(Flatten(results.Values()), ToMonitoring)
  }

  /** The total shown is the number of items handed on; each is the item of
      the result at its position, a cafe post with its cafe as author when
      the cafe's name is known. */
  lemma CollectedItemsSpec(results: OMap<seq<CafeResult>>)
    requires results.Valid()
    ensures |CollectedItems(results)| == SumLengths(results.Values())
    ensures forall i :: 0 <= i < |CollectedItems(results)| ==>
      var x, r := CollectedItems(results)[i], Flatten(results.Values())[i];
      && x.link == r.link && x.kind == Cafe
      && x.author == (if r.cafeName != "" then r.cafeName else r.author)
  {
    SumLengthsFlatten(results.Values());
  }

  class Tab {
    var searchKeyword: string
    /** The target cafe field. */
    var cafeUrl: string
    var recentSearches: seq<string>
    /** `resultsByKeyword` */
    var results: OMap<seq<CafeResult>>
    var searchedKeywords: seq<string>
    var activeTab: string
    var searched: bool
    var error: Option<string>
    var visibleCounts: map<string, nat>

    ghost predicate Valid()
      reads this
    {
      results.Valid()
    }

    constructor()
      ensures Valid()
      ensures searchKeyword == "" && cafeUrl == "" && recentSearches == [] && results == Empty()
      ensures searchedKeywords == [] && activeTab == "" && !searched && error == None
      ensures visibleCounts == map[]
    {
      searchKeyword := "";
      cafeUrl := "";
      recentSearches := [];
      results := Empty();
      searchedKeywords := [];
      activeTab := "";
      searched := false;
      error := None;
      visibleCounts := map[];
    }

    /** The mount effect: the saved list when it parses to a list, then the
        saved non-empty target cafe. A saved history that does not parse
        throws before the cafe is read, so the cafe is then not restored. */
    method LoadSaved(stored: SavedHistory, savedCafe: Option<string>)
      modifies this`recentSearches, this`cafeUrl
      ensures recentSearches == if stored.SavedList? then stored.entries else old(recentSearches)
      ensures cafeUrl == if !stored.SavedUnparsable? && savedCafe.Some? && savedCafe.value != ""
        then savedCafe.value else old(cafeUrl)
    {
      if stored.SavedUnparsable? {
        return;
      }
      if stored.SavedList? {
        recentSearches := stored.entries;
      }
      if savedCafe.Some? && savedCafe.value != "" {
        cafeUrl := savedCafe.value;
      }
    }

    /** `handleCafeUrlChange(value)` */
    method CafeUrlChange(value: string)
      modifies this`cafeUrl
      ensures cafeUrl == value
    {
      cafeUrl := value;
    }

    /** `saveRecent(query)` */
    method SaveRecent(query: string)
      modifies this`recentSearches
      ensures recentSearches == MoveToFront(old(recentSearches), query, MaxRecent)
    {
      recentSearches := Take([query] + Without(recentSearches, query), MaxRecent);
    }

    /** `removeRecent(query)` */
    method RemoveRecent(query: string)
      modifies this`recentSearches
      ensures recentSearches == Without(old(recentSearches), query)
    {
      recentSearches := Without(recentSearches, query);
    }

    /** What a search for `keywords` (typed as `query`) in cafe `cafeId`
        leaves: with no keywords only the error is set; otherwise the query
        is saved and the keywords shown, and then either every keyword's
        results replace the previous ones, the first keyword's tab active,
        or the first failed reply's message is shown and the previous
        results stay. `collected` is what `onItemsCollected` receives. */
    twostate predicate SearchOutcome(query: string, keywords: seq<string>, cafeId: string, new fetch: Fetch,
                                     hasListener: bool, new collected: Option<seq<MonitoringItem>>)
      reads this
    {
      && (keywords == [] ==>
        && error == Some(EmptyKeyword) && collected.None? && searched == old(searched)
        && recentSearches == old(recentSearches) && searchedKeywords == old(searchedKeywords)
        && results == old(results) && visibleCounts == old(visibleCounts) && activeTab == old(activeTab))
      && (keywords != [] ==>
        && recentSearches == MoveToFront(old(recentSearches), query, MaxRecent)
        && searched && searchedKeywords == keywords)
      && (keywords != [] && Gathered(keywords, fetch, cafeId).Success? ==>
        && results == Gathered(keywords, fetch, cafeId).value && visibleCounts == FirstPages(keywords)
        && activeTab == keywords[0] && error == None
        && collected == (if hasListener then Some(CollectedItems(results)) else None))
      && (keywords != [] && Gathered(keywords, fetch, cafeId).Failure? ==>
        && error == Some(Gathered(keywords, fetch, cafeId).error) && collected.None?
        && results == old(results) && visibleCounts == old(visibleCounts) && activeTab == old(activeTab))
    }

    /** `search(input)`. `parsedPath` is the path of the target cafe field
        when it parses as a URL; `keywords` are the keywords searched,
        `cafeId` the target cafe and `collected` what is handed to
        `onItemsCollected` (None when it is not called). */
    method Search(input: Option<string>, parsedPath: Option<string>, fetch: Fetch, hasListener: bool)
      returns (keywords: seq<string>, cafeId: string, collected: Option<seq<MonitoringItem>>)
      requires Valid()
      modifies this`recentSearches, this`searched, this`error, this`searchedKeywords, this`results,
        this`visibleCounts, this`activeTab
      ensures Valid()
      ensures keywords == SplitKeywords(input.GetOr(old(searchKeyword)))
      ensures cafeId == ExtractCafeId(old(cafeUrl), parsedPath)
      ensures SearchOutcome(Trim(input.GetOr(old(searchKeyword))), keywords, cafeId, fetch, hasListener, collected)
    {
      var raw := input.GetOr(searchKeyword);
      keywords := SplitKeywords(raw);
      cafeId := ExtractCafeId(cafeUrl, parsedPath);
      var query := Trim(raw);
      collected := SearchKeywords(query, keywords, cafeId, fetch, hasListener);
    }

    /** `search` once the input is split into `keywords`, `query` being the
        trimmed input, and the target cafe is known. */
    method SearchKeywords(query: string, keywords: seq<string>, cafeId: string, fetch: Fetch, hasListener: bool)
      returns (collected: Option<seq<MonitoringItem>>)
      requires Valid()
      modifies this`recentSearches, this`searched, this`error, this`searchedKeywords, this`results,
        this`visibleCounts, this`activeTab
      ensures Valid()
      ensures SearchOutcome(query, keywords, cafeId, fetch, hasListener, collected)
    {
      collected := None;
      if keywords == [] {
        error := Some(EmptyKeyword);
        return;
      }
      SaveRecent(query);
      searched := true;
      error := None;
      searchedKeywords := keywords;
      var gathered, counts := Gather(keywords, fetch, cafeId);
      collected := Finish(keywords[0], gathered, counts, hasListener);
    }

    /** The per-keyword loop of `search`: each keyword's reply in turn, its
        items with a link kept once per link, stopping at the first failed
        reply. */
    static method Gather(keywords: seq<string>, fetch: Fetch, cafeId: string)
      returns (r: Result<OMap<seq<CafeResult>>, string>, counts: map<string, nat>)
      ensures r == Gathered(keywords, fetch, cafeId)
      ensures r.Success? ==> counts == FirstPages(keywords)
    {
      var acc: OMap<seq<CafeResult>> := Empty();
      counts := map[];
      var i := 0;
      while i < |keywords|
        invariant 0 <= i <= |keywords|
        invariant acc.Valid()
        invariant GatherFrom(keywords[i..], KeywordFetch(fetch, cafeId), KeywordResults, CafeFailed, acc)
               == Gathered(keywords, fetch, cafeId)
        invariant counts == FirstPages(keywords[..i])
      {
        var reply := fetch(RequestParams(keywords[i], cafeId));
        GatherFromStep(keywords, i, KeywordFetch(fetch, cafeId), KeywordResults, CafeFailed, acc);
        if !reply.Ok? {
          r := Failure(FailureText(reply, CafeFailed));
          return;
        }
        var kept := Dedup(reply.body.GetOr([]), LinkOf, {""});
        acc := acc.Set(keywords[i], kept);
        FirstPagesStep(keywords, i);
        counts := counts[keywords[i] := PageSize];
        i := i + 1;
      }
      assert keywords[..i] == keywords;
      r := Success(acc);
    }

    /** The end of `search`: a completed loop replaces the lists, the counts
        and the active tab; a failed one only sets the error. */
    method Finish(first: string, gathered: Result<OMap<seq<CafeResult>>, string>, counts: map<string, nat>,
                  hasListener: bool) returns (collected: Option<seq<MonitoringItem>>)
      requires Valid()
      requires gathered.Success? ==> gathered.value.Valid()
      modifies this`error, this`results, this`visibleCounts, this`activeTab
      ensures Valid()
      ensures gathered.Success? ==>
        && results == gathered.value && visibleCounts == counts && activeTab == first
        && error == old(error)
        && collected == (if hasListener then Some(CollectedItems(results)) else None)
      ensures gathered.Failure? ==>
        && error == Some(gathered.error) && collected.None?
        && results == old(results) && visibleCounts == old(visibleCounts) && activeTab == old(activeTab)
    {
      collected := None;
      match gathered {
        case Failure(e) =>
          error := Some(e);
        case Success(m) =>
          results := m;
          visibleCounts := counts;
          activeTab := first;
          if hasListener {
            collected := Some(CollectedItems(m));
          }
      }
    }

    /** `handleLoadMore(keyword)` */
    method LoadMore(keyword: string)
      modifies this`visibleCounts
      ensures visibleCounts == ShowMore(old(visibleCounts), keyword)
    {
      visibleCounts := visibleCounts[keyword := VisibleOf(visibleCounts, keyword) + PageSize];
    }

    /** `handleClearResults` */
    method ClearResults()
      modifies this`results, this`searchedKeywords, this`visibleCounts, this`activeTab,
        this`searched, this`error
      ensures Valid()
      ensures results == Empty() && searchedKeywords == [] && visibleCounts == map[]
      ensures activeTab == "" && !searched && error == None
    {
      results := Empty();
      searchedKeywords := [];
      visibleCounts := map[];
      activeTab := "";
      searched := false;
      error := None;
    }

    /** `totalCount`: the results of every keyword together. */
    function TotalCount(): nat
      reads this
      requires Valid()
    {
      SumLengths(results.Values())
    }
  }
}
