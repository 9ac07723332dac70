/** The Google tab (components/google-tab.tsx): a comma-separated input is
    split into keywords; for each keyword seven queries (the keyword, the
    risk query and five social site queries) go to the Google search route,
    and the union of their rows, once per link, becomes the keyword's list.
    Lists are shown page by page, and a keyword's list can be extended from
    the route's next page of results. The route's reply to one query at one
    offset is the function `fetch`, `None` standing for a reply that is not
    ok or a request that throws. */
module GoogleTab {
  import opened Wrappers
  import opened Text
  import opened Seqs
  import opened Types
  import opened Recent
  import opened OrderedMap
  import opened Tabs
  import opened QueryPacks
  import GoogleSearch

  /** `MAX_RECENT` */
  const MaxRecent: nat := 8

  const EmptyKeyword := "검색어를 입력해주세요."

  /** A row of the route tagged with the keyword it was found for
      (`{ ...item, searchKeyword: keyword }`). */
  datatype GoogleResult = GoogleResult(item: GoogleSearch.GoogleItem, searchKeyword: string)

  /** The route's rows for a query at an offset (`num=50&start=offset`). */
  type Fetch = (string, nat) -> Option<seq<GoogleSearch.GoogleItem>>

  function LinkOf(r: GoogleResult): string
  {
    r.item.link
  }

  // ---------------------------------------------------------------------
  // fetchExpandedResults

  /** `buildExtendedSocialQueries(brand)`: the two social queries, then
      Brunch, Tistory and Daum. */
  function ExtendedSocialQueries(brand: string): seq<string>
  {
    SocialQueries(brand)
    + ["site:brunch.co.kr " + Quote(brand), "site:tistory.com " + Quote(brand), "site:daum.net " + Quote(brand)]
  }

  /** `allQueries`: the keyword, its risk query, then the extended social
      queries. */
  function ExpandedQueries(keyword: string): seq<string>
  {
    [keyword, GoogleRiskQuery(keyword)] + ExtendedSocialQueries(keyword)
  }

  /** Seven queries: the keyword as typed first, the risk query second, the
      two social queries next and the three blog-platform queries last. */
  lemma ExpandedQueriesShape(keyword: string)
    ensures var qs := ExpandedQueries(keyword);
      && |qs| == 7
      && qs[0] == keyword && qs[1] == GoogleRiskQuery(keyword)
      && qs[2..4] == SocialQueries(keyword)
      && qs[4] == "site:brunch.co.kr " + Quote(keyword)
      && qs[5] == "site:tistory.com " + Quote(keyword)
      && qs[6] == "site:daum.net " + Quote(keyword)
  {
    var qs := ExpandedQueries(keyword);
    assert qs[2..4] == ExtendedSocialQueries(keyword)[..2];
  }

  /** One query's task: its rows tagged with the keyword, none when the
      request fails. */
  function QueryRows(fetch: Fetch, keyword: string, start: nat): (string, nat) -> seq<GoogleResult>
  {
    (query: string, i: nat) =>
      match fetch(query, start)
      case None => []
      case Some(items) => Map(items, (it: GoogleSearch.GoogleItem) => GoogleResult(it, keyword))
  }

  /** `fetchExpandedResults(keyword, start)`: the rows of all queries in
      query order (`results.flat()`), once per link, the first one seen
      kept. */
  function Expanded(fetch: Fetch, keyword: string, start: nat): seq<GoogleResult>
  {
    DedupBy(FlatMap(ExpandedQueries(keyword), QueryRows(fetch, keyword, start)), LinkOf)
  }

  /** Every row of a query's task is tagged with the keyword. */
  lemma QueryRowsTagged(fetch: Fetch, keyword: string, start: nat, query: string, i: nat)
    ensures forall r :: r in QueryRows(fetch, keyword, start)(query, i) ==> r.searchKeyword == keyword
  {
    match fetch(query, start)
    case None =>
    case Some(items) =>
      var rows := QueryRows(fetch, keyword, start)(query, i);
      forall r | r in rows ensures r.searchKeyword == keyword {
        var j :| 0 <= j < |rows| && rows[j] == r;
      }
  }

  /** The expanded rows are rows of the queries, in their order, each link
      once; every link some query returned is kept; every row is tagged
      with the keyword. */
  lemma ExpandedSpec(fetch: Fetch, keyword: string, start: nat)
    ensures var all := FlatMap(ExpandedQueries(keyword), QueryRows(fetch, keyword, start));
      var r := Expanded(fetch, keyword, start);
      && IsSubseq(r, all)
      && DistinctKeys(r, LinkOf)
      && Keys(r, LinkOf) == Keys(all, LinkOf)
      && (forall x :: x in r ==> x.searchKeyword == keyword)
  {
    var qs := ExpandedQueries(keyword);
    var f := QueryRows(fetch, keyword, start);
    var all := FlatMap(qs, f);
    var r := Expanded(fetch, keyword, start);
    DedupDistinct(all, LinkOf, {});
    DedupKeys(all, LinkOf, {});
    forall i | 0 <= i < |qs| ensures forall y :: y in f(qs[i], i) ==> y.searchKeyword == keyword {
      QueryRowsTagged(fetch, keyword, start, qs[i], i);
    }
    FlatMapAll(qs, f, (y: GoogleResult) => y.searchKeyword == keyword);
    forall x | x in r ensures x.searchKeyword == keyword {
      SubseqMember(r, all, x);
    }
  }

  lemma ExpandedDistinct(fetch: Fetch, keyword: string, start: nat)
    ensures DistinctKeys(Expanded(fetch, keyword, start), LinkOf)
  {
    DedupDistinct(FlatMap(ExpandedQueries(keyword), QueryRows(fetch, keyword, start)), LinkOf, {});
  }

  /** A query that fails contributes nothing: when every query fails there
      are no rows. */
  lemma ExpandedAllFail(fetch: Fetch, keyword: string, start: nat)
    requires forall q :: fetch(q, start).None?
    ensures Expanded(fetch, keyword, start) == []
  {
    var qs := ExpandedQueries(keyword);
    var f := QueryRows(fetch, keyword, start);
    NoRows(qs, f);
  }

  lemma {:induction false} NoRows(qs: seq<string>, f: (string, nat) -> seq<GoogleResult>)
    requires forall i :: 0 <= i < |qs| ==> f(qs[i], i) == []
    ensures FlatMap(qs, f) == []
    decreases |qs|
  {
    if qs != [] {
      NoRows(qs[..|qs| - 1], f);
    }
  }

  /** `fetchExpandedResults`: the tasks' rows concatenated in query order,
      then the `seen`-set filter. */
  method FetchExpanded(fetch: Fetch, keyword: string, start: nat) returns (r: seq<GoogleResult>)
    ensures r == Expanded(fetch, keyword, start)
  {
    var queries := [keyword, GoogleRiskQuery(keyword)] + ExtendedSocialQueries(keyword);
    var task := QueryRows(fetch, keyword, start);
    var all: seq<GoogleResult> := [];
    for i := 0 to |queries|
      invariant all == FlatMap(queries[..i], task)
    {
      FlatMapSnoc(queries, task, i);
      all := all + task(queries[i], i);
    }
    assert queries[..|queries|] == queries;
    r := Dedup(all, LinkOf, {});
  }

  // ---------------------------------------------------------------------
  // Extending a keyword's list

  /** `existingLinks.has(item.link)` negated. */
  function NewLink(existing: seq<GoogleResult>): GoogleResult -> bool
  {
    (item: GoogleResult) => LinkOf(item) !in Keys(existing, LinkOf)
  }

  /** `[...existing, ...unique]`: the new rows whose link the list does not
      hold yet, appended in their order. */
  function Merged(existing: seq<GoogleResult>, newItems: seq<GoogleResult>): seq<GoogleResult>
  {
    existing + Filter(newItems, NewLink(existing))
  }

  /** The list keeps its rows in front; the rows added are new rows whose
      links were not there; afterwards the list holds every link of both;
      lists with each link once stay so. */
  lemma MergedSpec(existing: seq<GoogleResult>, newItems: seq<GoogleResult>)
    ensures existing <= Merged(existing, newItems)
    ensures IsSubseq(Merged(existing, newItems)[|existing|..], newItems)
    ensures forall x :: x in Merged(existing, newItems)[|existing|..] ==> LinkOf(x) !in Keys(existing, LinkOf)
    ensures Keys(Merged(existing, newItems), LinkOf) == Keys(existing, LinkOf) + Keys(newItems, LinkOf)
    ensures DistinctKeys(existing, LinkOf) && DistinctKeys(newItems, LinkOf) ==>
      DistinctKeys(Merged(existing, newItems), LinkOf)
  {
    var p := NewLink(existing);
    var added := Filter(newItems, p);
    var m := Merged(existing, newItems);
    assert m[|existing|..] == added;
    FilterSubseq(newItems, p);
    forall x | x in added ensures LinkOf(x) !in Keys(existing, LinkOf) {
      FilterMembers(newItems, p, x);
    }
    MergedKeys(existing, newItems);
    if DistinctKeys(existing, LinkOf) && DistinctKeys(newItems, LinkOf) {
      MergedDistinct(existing, newItems);
    }
  }

  /** Merging lists that each have each link once gives such a list. */
  lemma MergedDistinct(existing: seq<GoogleResult>, newItems: seq<GoogleResult>)
    requires DistinctKeys(existing, LinkOf) && DistinctKeys(newItems, LinkOf)
    ensures DistinctKeys(Merged(existing, newItems), LinkOf)
  {
    var p := NewLink(existing);
    var added := Filter(newItems, p);
    var m := Merged(existing, newItems);
    FilterDistinctKeys(newItems, p, LinkOf);
    forall i, j | 0 <= i < j < |m| ensures LinkOf(m[i]) != LinkOf(m[j]) {
      if j >= |existing| && i < |existing| {
        assert m[j] == added[j - |existing|];
        assert p(m[j]);
        assert LinkOf(m[i]) in Keys(existing, LinkOf) by { assert m[i] == existing[i]; }
      } else if i >= |existing| {
        assert m[i] == added[i - |existing|] && m[j] == added[j - |existing|];
      }
    }
  }

  /** Storing the merge of a keyword's list keeps every list free of
      repeated links. */
  lemma MergeKeepsDistinct(results: OMap<seq<GoogleResult>>, keyword: string, newItems: seq<GoogleResult>)
    requires results.Valid() && LinksDistinct(results) && DistinctKeys(newItems, LinkOf)
    ensures LinksDistinct(results.Set(keyword, Merged(RowsOf(results, keyword), newItems)))
  {
    var existing := RowsOf(results, keyword);
    var merged := Merged(existing, newItems);
    var r := results.Set(keyword, merged);
    assert DistinctKeys(existing, LinkOf) by {
      if keyword in results.vals {
        assert existing == results.vals[keyword];
      }
    }
    MergedDistinct(existing, newItems);
    forall k | k in r.vals ensures DistinctKeys(r.vals[k], LinkOf) {
      assert r.Get(k) == Some(r.vals[k]);
      if k != keyword {
        assert results.Get(k) == Some(r.vals[k]);
      }
    }
  }

  /** The links after a merge are the links of both lists. */
  lemma MergedKeys(existing: seq<GoogleResult>, newItems: seq<GoogleResult>)
    ensures Keys(Merged(existing, newItems), LinkOf) == Keys(existing, LinkOf) + Keys(newItems, LinkOf)
  {
    var p := NewLink(existing);
    var added := Filter(newItems, p);
    var m := Merged(existing, newItems);
    forall k | k in Keys(m, LinkOf) ensures k in Keys(existing, LinkOf) + Keys(newItems, LinkOf) {
      var i :| 0 <= i < |m| && LinkOf(m[i]) == k;
      if i >= |existing| {
        assert m[i] == added[i - |existing|];
        assert m[i] in added;
        FilterMembers(newItems, p, m[i]);
        var j :| 0 <= j < |newItems| && newItems[j] == m[i];
      } else {
        assert m[i] == existing[i];
      }
    }
    forall k | k in Keys(existing, LinkOf) + Keys(newItems, LinkOf) ensures k in Keys(m, LinkOf) {
      if k in Keys(existing, LinkOf) {
        var i :| 0 <= i < |existing| && LinkOf(existing[i]) == k;
        assert m[i] == existing[i];
      } else {
        var j :| 0 <= j < |newItems| && LinkOf(newItems[j]) == k;
        FilterMembers(newItems, p, newItems[j]);
        var i :| 0 <= i < |added| && added[i] == newItems[j];
        assert m[|existing| + i] == added[i];
      }
    }
  }

  // ---------------------------------------------------------------------
  // The lists a search leaves

  /** Each list holds each link once. */
  ghost predicate LinksDistinct(results: OMap<seq<GoogleResult>>)
  {
    forall k :: k in results.vals ==> DistinctKeys(results.vals[k], LinkOf)
  }

  /** Every keyword's reply is its expanded rows; the search never fails. */
  function KeywordReply(fetch: Fetch): string -> Reply<seq<GoogleResult>>
  {
    (keyword: string) => Ok(Expanded(fetch, keyword, 0))
  }

  function Same(rows: seq<GoogleResult>): seq<GoogleResult>
  {
    rows
  }

  function NoFallback(status: nat): string
  {
    ""
  }

  /** The lists the loop of `search` builds: each keyword's expanded rows
      from offset 0 under the keyword. No keyword's reply fails, since every
      query's failure is caught inside `fetchExpandedResults`. */
  function Gathered(keywords: seq<string>, fetch: Fetch): (r: OMap<seq<GoogleResult>>)
    ensures r.Valid()
  {
    GatherFromSucceeds(keywords, KeywordReply(fetch), Same, NoFallback, Empty());
    GatherFrom(keywords, KeywordReply(fetch), Same, NoFallback, Empty()).value
  }

  /** Each searched keyword holds its expanded rows and no other key is
      present. */
  lemma GatheredGet(keywords: seq<string>, fetch: Fetch, k: string)
    ensures Gathered(keywords, fetch).Get(k) == (if k in keywords then Some(Expanded(fetch, k, 0)) else None)
  {
    var reply := KeywordReply(fetch);
    var r := GatherFrom(keywords, reply, Same, NoFallback, Empty());
    GatherFromSucceeds(keywords, reply, Same, NoFallback, Empty());
    GatherFromGet(keywords, reply, Same, NoFallback, Empty(), k);
    assert Gathered(keywords, fetch) == r.value;
    if k in keywords {
      assert reply(k) == Ok(Expanded(fetch, k, 0));
      assert Same(reply(k).body) == Expanded(fetch, k, 0);
    } else {
      assert Empty<seq<GoogleResult>>().Get(k) == None;
    }
  }

  /** Each list a search leaves has each link once. */
  lemma GatheredDistinct(keywords: seq<string>, fetch: Fetch)
    ensures LinksDistinct(Gathered(keywords, fetch))
  {
    var m := Gathered(keywords, fetch);
    forall k | k in m.vals ensures DistinctKeys(m.vals[k], LinkOf) {
      GatheredGet(keywords, fetch, k);
      ExpandedDistinct(fetch, k, 0);
    }
  }

  /** The item handed to `onItemsCollected` for a row. */
  function ToMonitoring(r: GoogleResult): MonitoringItem
  {
    MonitoringItem(r.item.id, Google, Web, r.item.title, r.item.content, r.item.author, None,
      r.item.link, r.item.publishedAt, [], false)
  }

  /** `Object.values(newResults).flat()`, mapped to monitoring items. */
  function CollectedItems(results: OMap<seq<GoogleResult>>): seq<MonitoringItem>
    requires results.Valid()
  {
    Map(Flatten(results.Values()), ToMonitoring)
  }

  /** As many items are handed on as the lists hold together (the total
      shown above the tabs), each the item of the row at the same position,
      unflagged and with no matched keyword. */
  lemma CollectedItemsSpec(results: OMap<seq<GoogleResult>>)
    requires results.Valid()
    ensures |CollectedItems(results)| == SumLengths(results.Values())
    ensures forall i :: 0 <= i < |CollectedItems(results)| ==>
      (&& CollectedItems(results)[i].link == Flatten(results.Values())[i].item.link
       && CollectedItems(results)[i].source == Google
       && !CollectedItems(results)[i].isFlagged && CollectedItems(results)[i].matchedKeywords == [])
  {
    SumLengthsFlatten(results.Values());
  }

  /** `resultsByKeyword[kw] || []` */
  function RowsOf(results: OMap<seq<GoogleResult>>, kw: string): seq<GoogleResult>
  {
    results.Get(kw).GetOr([])
  }

  class Tab {
    var searchKeyword: string
    var recentSearches: seq<string>
    /** `resultsByKeyword` */
    var results: OMap<seq<GoogleResult>>
    var searchedKeywords: seq<string>
    var activeTab: string
    var error: Option<string>
    var searched: bool
    var visibleCounts: map<string, nat>
    /** The offset of each keyword's next request to the route. */
    var apiOffsets: map<string, nat>

    /** The lists are a valid map and each holds each link once. */
    ghost predicate Valid()
      reads this
    {
      results.Valid() && LinksDistinct(results)
    }

    constructor()
      ensures Valid()
      ensures searchKeyword == "" && recentSearches == [] && results == Empty()
      ensures searchedKeywords == [] && activeTab == "" && error == None && !searched
      ensures visibleCounts == map[] && apiOffsets == map[]
    {
      searchKeyword := "";
      recentSearches := [];
      results := Empty();
      searchedKeywords := [];
      activeTab := "";
      error := None;
      searched := false;
      visibleCounts := map[];
      apiOffsets := map[];
    }

    /** The mount effect: the saved list, when there is one. */
    method LoadRecent(stored: Option<seq<string>>)
      modifies this`recentSearches
      ensures recentSearches == if stored.Some? then stored.value else old(recentSearches)
    {
      if stored.Some? {
        recentSearches := stored.value;
      }
    }

    /** `saveRecent(query)` */
    method SaveRecent(query: string)
      modifies this`recentSearches
      ensures recentSearches == MoveToFront(old(recentSearches), query, MaxRecent)
    {
      recentSearches := Take([query] + Without(recentSearches, query), MaxRecent);
    }

    /** `removeRecent(query)` */
    method RemoveRecent(query: string)
      modifies this`recentSearches
      ensures recentSearches == Without(old(recentSearches), query)
    {
      recentSearches := Without(recentSearches, query);
    }

    /** `search(input)`: `keywords` are the keywords searched and
        `collected` what is handed to `onItemsCollected` (None when it is
        not called). */
    method Search(input: Option<string>, fetch: Fetch, hasListener: bool)
      returns (keywords: seq<string>, collected: Option<seq<MonitoringItem>>)
      requires Valid()
      modifies this`recentSearches, this`error, this`searched, this`searchedKeywords, this`results,
        this`visibleCounts, this`apiOffsets, this`activeTab
      ensures Valid()
      ensures keywords == SplitKeywords(input.GetOr(old(searchKeyword)))
      ensures keywords == [] ==>
        && error == Some(EmptyKeyword) && collected.None? && searched == old(searched)
        && recentSearches == old(recentSearches) && searchedKeywords == old(searchedKeywords)
        && results == old(results) && visibleCounts == old(visibleCounts)
        && apiOffsets == old(apiOffsets) && activeTab == old(activeTab)
      ensures keywords != [] ==>
        && recentSearches == MoveToFront(old(recentSearches), Trim(input.GetOr(old(searchKeyword))), MaxRecent)
        && searched && searchedKeywords == keywords && error == None
        && results == Gathered(keywords, fetch)
        && visibleCounts == FirstPages(keywords) && apiOffsets == FirstPages(keywords)
        && activeTab == keywords[0]
        && collected == (if hasListener then Some(CollectedItems(results)) else None)
    {
      var raw := input.GetOr(searchKeyword);
      keywords := SplitKeywords(raw);
      collected := SearchKeywords(Trim(raw), keywords, fetch, hasListener);
    }

    /** `search` once the input is split into `keywords`, `query` being the
        trimmed input. */
    method SearchKeywords(query: string, keywords: seq<string>, fetch: Fetch, hasListener: bool)
      returns (collected: Option<seq<MonitoringItem>>)
      requires Valid()
      modifies this`recentSearches, this`error, this`searched, this`searchedKeywords, this`results,
        this`visibleCounts, this`apiOffsets, this`activeTab
      ensures Valid()
      ensures keywords == [] ==>
        && error == Some(EmptyKeyword) && collected.None? && searched == old(searched)
        && recentSearches == old(recentSearches) && searchedKeywords == old(searchedKeywords)
        && results == old(results) && visibleCounts == old(visibleCounts)
        && apiOffsets == old(apiOffsets) && activeTab == old(activeTab)
      ensures keywords != [] ==>
        && recentSearches == MoveToFront(old(recentSearches), query, MaxRecent)
        && searched && searchedKeywords == keywords && error == None
        && results == Gathered(keywords, fetch)
        && visibleCounts == FirstPages(keywords) && apiOffsets == FirstPages(keywords)
        && activeTab == keywords[0]
        && collected == (if hasListener then Some(CollectedItems(results)) else None)
    {
      collected := None;
      if keywords == [] {
        error := Some(EmptyKeyword);
        return;
      }
      SaveRecent(query);
      error := None;
      searched := true;
      searchedKeywords := keywords;
      var gathered, counts := Gather(keywords, fetch);
      GatheredDistinct(keywords, fetch);
      collected := Finish(keywords[0], gathered, counts, hasListener);
    }

    /** The end of `search`: the lists, both per-keyword counters and the
        active tab are replaced, and the rows are handed on. */
    method Finish(first: string, gathered: OMap<seq<GoogleResult>>, counts: map<string, nat>, hasListener: bool)
      returns (collected: Option<seq<MonitoringItem>>)
      requires gathered.Valid() && LinksDistinct(gathered)
      modifies this`results, this`visibleCounts, this`apiOffsets, this`activeTab
      ensures Valid()
      ensures results == gathered && visibleCounts == counts && apiOffsets == counts && activeTab == first
      ensures collected == if hasListener then Some(CollectedItems(gathered)) else None
    {
      results := gathered;
      visibleCounts := counts;
      apiOffsets := counts;
      activeTab := first;
      collected := if hasListener then Some(CollectedItems(gathered)) else None;
    }

    /** The per-keyword loop of `search`: each keyword's expanded rows from
        offset 0, one page visible and the next request at offset 50. */
    static method Gather(keywords: seq<string>, fetch: Fetch)
      returns (r: OMap<seq<GoogleResult>>, counts: map<string, nat>)
      ensures r == Gathered(keywords, fetch)
      ensures counts == FirstPages(keywords)
    {
      r := Empty();
      counts := map[];
      var i := 0;
      while i < |keywords|
        invariant 0 <= i <= |keywords|
        invariant r.Valid()
        invariant GatherFrom(keywords[i..], KeywordReply(fetch), Same, NoFallback, r)
          == GatherFrom(keywords, KeywordReply(fetch), Same, NoFallback, Empty())
        invariant counts == FirstPages(keywords[..i])
      {
        GatherFromStep(keywords, i, KeywordReply(fetch), Same, NoFallback, r);
        var items := FetchExpanded(fetch, keywords[i], 0);
        r := r.Set(keywords[i], items);
        FirstPagesStep(keywords, i);
        counts := counts[keywords[i] := PageSize];
        i := i + 1;
      }
      assert keywords[..i] == keywords;
      assert keywords[i..] == [];
    }

    /** `handleShowMore(keyword)` */
    method ShowMoreRows(keyword: string)
      modifies this`visibleCounts
      ensures visibleCounts == ShowMore(old(visibleCounts), keyword)
    {
      visibleCounts := visibleCounts[keyword := VisibleOf(visibleCounts, keyword) + PageSize];
    }

    /** `handleLoadMoreFromApi(keyword)`: the next offset is the stored one
        or 50; when the route returned any row, the rows with new links are
        appended to the keyword's list and the offset moves on by 50, even
        if every row was already there. */
    method LoadMoreFromApi(keyword: string, fetch: Fetch)
      requires Valid()
      modifies this`results, this`apiOffsets
      ensures Valid()
      ensures var offset := VisibleOf(old(apiOffsets), keyword);
        var newItems := Expanded(fetch, keyword, offset);
        if newItems == [] then results == old(results) && apiOffsets == old(apiOffsets)
        else
          && results == old(results).Set(keyword, Merged(RowsOf(old(results), keyword), newItems))
          && apiOffsets == old(apiOffsets)[keyword := offset + 50]
    {
      var offset := VisibleOf(apiOffsets, keyword);
      var newItems := FetchExpanded(fetch, keyword, offset);
      if |newItems| > 0 {
        ExpandedDistinct(fetch, keyword, offset);
        MergeKeepsDistinct(results, keyword, newItems);
        var existing := RowsOf(results, keyword);
        var merged := existing + Filter(newItems, NewLink(existing));
        results := results.Set(keyword, merged);
        apiOffsets := apiOffsets[keyword := offset + 50];
      }
    }

    /** `handleClearResults` */
    method ClearResults()
      modifies this`results, this`searchedKeywords, this`visibleCounts, this`apiOffsets,
        this`activeTab, this`searched, this`error
      ensures Valid()
      ensures results == Empty() && searchedKeywords == [] && visibleCounts == map[] && apiOffsets == map[]
      ensures activeTab == "" && !searched && error == None
    {
      results := Empty();
      searchedKeywords := [];
      visibleCounts := map[];
      apiOffsets := map[];
      activeTab := "";
      searched := false;
      error := None;
    }

    /** The rows shown under keyword `kw`: the first `visibleCounts[kw] ||
        50` of its list. */
    function KeywordDisplay(kw: string): seq<GoogleResult>
      reads this
    {
      Displayed(RowsOf(results, kw), VisibleOf(visibleCounts, kw))
    }

    /** `kwHasMoreLocal` */
    predicate KeywordHasMore(kw: string)
      reads this
    {
      HasMore(RowsOf(results, kw), VisibleOf(visibleCounts, kw))
    }
  }
}
