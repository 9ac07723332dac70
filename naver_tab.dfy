/** The Naver blog tab (components/naver-tab.tsx): a comma-separated input
    is split into keywords, each keyword's blog posts are fetched from the
    search route in turn, kept once per link, and shown one keyword per tab
    page by page, optionally only the posts that mention a negative
    keyword. The route's reply for each keyword is the function `fetch`. */
module NaverTab {
  import opened Wrappers
  import opened Text
  import opened Seqs
  import opened Types
  import opened Recent
  import opened OrderedMap
  import opened Tabs
  import opened KeywordMatch
  import NaverSearch

  /** `MAX_RECENT` */
  const MaxRecent: nat := 8

  const EmptyKeyword := "검색어를 입력해주세요."
  const BlogSearchFailed := "블로그 검색 실패"

  /** A result as the search route returns it. */
  type BlogResult = NaverSearch.SearchItem

  /** The route's reply to the request for one keyword. */
  type Fetch = string -> Reply<seq<BlogResult>>

  function LinkOf(r: BlogResult): string
  {
    r.link
  }

  predicate IsBlog(r: BlogResult)
  {
    r.kind == "blog"
  }

  /** One keyword's list: the blog posts of the reply, once per link, the
      first one seen kept (the date sort before it is not modelled). */
  function KeywordResults(items: seq<BlogResult>): seq<BlogResult>
  {
    DedupBy(Filter(items, IsBlog), LinkOf)
  }

  /** A keyword's list holds only blog posts of the reply, in reply order,
      each link once, and every blog link of the reply appears in it. */
  lemma KeywordResultsSpec(items: seq<BlogResult>)
    ensures var r := KeywordResults(items);
      && IsSubseq(r, items)
      && DistinctKeys(r, LinkOf)
      && (forall x :: x in r ==> IsBlog(x))
      && Keys(r, LinkOf) == Keys(Filter(items, IsBlog), LinkOf)
  {
    var blogs := Filter(items, IsBlog);
    var r := KeywordResults(items);
    FilterSubseq(items, IsBlog);
    DedupDistinct(blogs, LinkOf, {});
    DedupKeys(blogs, LinkOf, {});
    SubseqTrans(r, blogs, items);
    forall x | x in r ensures IsBlog(x) {
      SubseqMember(r, blogs, x);
      FilterMembers(items, IsBlog, x);
    }
  }

  function BlogFailed(status: nat): string
  {
    BlogSearchFailed
  }

  /** The outcome of the loop of `searchBlogs`. */
  function Gathered(keywords: seq<string>, fetch: Fetch): (r: Result<OMap<seq<BlogResult>>, string>)
    ensures r.Success? ==> r.value.Valid()
  {
    GatherFrom(keywords, fetch, KeywordResults, BlogFailed, Empty())
  }

  /** The item handed to `onItemsCollected` for a result. */
  function ToMonitoring(r: BlogResult): MonitoringItem
  {
    MonitoringItem(r.id, Naver, if r.kind == "blog" then Blog else Cafe, r.title, r.content, r.author,
      if r.authorUrl == "" then None else Some(r.authorUrl), r.link, r.publishedAt, [], false)
  }

  /** `Object.values(newResults).flat()`, mapped to monitoring items. */
  function CollectedItems(results: OMap<seq<BlogResult>>): seq<MonitoringItem>
    requires results.Valid()
  {
    Map(Flatten(results.Values()), ToMonitoring)
  }

  /** As many items are handed on as the lists hold together, each the
      item of the result at the same position. */
  lemma CollectedItemsSpec(results: OMap<seq<BlogResult>>)
    requires results.Valid()
    ensures |CollectedItems(results)| == SumLengths(results.Values())
    ensures forall i :: 0 <= i < |CollectedItems(results)| ==>
      CollectedItems(results)[i].link == Flatten(results.Values())[i].link
      && CollectedItems(results)[i].source == Naver
      && (CollectedItems(results)[i].authorUrl.Some? <==> Flatten(results.Values())[i].authorUrl != "")
  {
    SumLengthsFlatten(results.Values());
  }

  // ---------------------------------------------------------------------
  // The danger view

  /** Some negative keyword occurs, ignoring case, in the title or the
      content: `matchNegativeKeywords(...).length > 0` on either. */
  function IsDanger(negative: seq<string>): BlogResult -> bool
  {
    (r: BlogResult) => MatchAll(r.title, negative) != [] || MatchAll(r.content, negative) != []
  }

  /** `filteredResults` */
  function FilteredResults(current: seq<BlogResult>, dangerOnly: bool, negative: seq<string>): seq<BlogResult>
  {
    if dangerOnly then Filter(current, IsDanger(negative)) else current
  }

  /** `dangerCount` */
  function DangerCount(current: seq<BlogResult>, negative: seq<string>): nat
  {
    Count(current, IsDanger(negative))
  }

  predicate Mentions(text: string, kw: string)
  {
    Contains(Lower(text), Lower(kw))
  }

  /** A result is flagged exactly when some negative keyword occurs, ignoring
      case, in its title or its content. */
  lemma IsDangerSpec(negative: seq<string>, x: BlogResult)
    ensures IsDanger(negative)(x) <==>
      exists kw :: kw in negative && (Mentions(x.title, kw) || Mentions(x.content, kw))
  {
    MatchAllAny(x.title, negative);
    MatchAllAny(x.content, negative);
    assert IsDanger(negative)(x) <==> MatchAll(x.title, negative) != [] || MatchAll(x.content, negative) != [];
  }

  /** With the switch off every result of the tab is shown; with it on,
      exactly the results in whose title or content some negative keyword
      occurs, in order, as many as the danger badge counts. */
  lemma FilteredResultsSpec(current: seq<BlogResult>, dangerOnly: bool, negative: seq<string>)
    ensures !dangerOnly ==> FilteredResults(current, dangerOnly, negative) == current
    ensures dangerOnly ==>
      && |FilteredResults(current, dangerOnly, negative)| == DangerCount(current, negative)
      && IsSubseq(FilteredResults(current, dangerOnly, negative), current)
      && (forall x :: x in FilteredResults(current, dangerOnly, negative) <==>
            x in current && IsDanger(negative)(x))
  {
    if dangerOnly {
      var p := IsDanger(negative);
      FilterSubseq(current, p);
      forall x ensures x in Filter(current, p) <==> x in current && p(x) {
        FilterMembers(current, p, x);
      }
    }
  }

  // ---------------------------------------------------------------------
  // Removing a keyword

  /** The active tab after `handleRemoveKeyword(kw)`. */
  function NextActiveTab(searched: seq<string>, kw: string, active: string): string
  {
    var remaining := Without(searched, kw);
    if remaining == [] then "" else if kw == active then remaining[0] else active
  }

  /** No tab is active once no keyword remains; the first remaining keyword
      becomes active when the active one is removed; otherwise the active
      tab stays; and an active tab that names a searched keyword still
      names one afterwards, whenever one remains. */
  lemma NextActiveTabSpec(searched: seq<string>, kw: string, active: string)
    ensures var r, remaining := NextActiveTab(searched, kw, active), Without(searched, kw);
      && (remaining == [] ==> r == "")
      && (remaining != [] && kw == active ==> r == remaining[0])
      && (remaining != [] && kw != active ==> r == active)
      && (active in searched ==> (r in remaining <==> remaining != []))
  {
    var remaining := Without(searched, kw);
    if remaining != [] {
      assert remaining[0] in remaining;
    }
  }

  class Tab {
    var searchKeyword: string
    var recentSearches: seq<string>
    /** `resultsByKeyword` */
    var results: OMap<seq<BlogResult>>
    var activeTab: string
    var searchedKeywords: seq<string>
    var error: Option<string>
    var showDangerOnly: bool
    var visibleCounts: map<string, nat>

    ghost predicate Valid()
      reads this
    {
      results.Valid()
    }

    constructor()
      ensures Valid()
      ensures searchKeyword == "" && recentSearches == [] && results == Empty()
      ensures activeTab == "" && searchedKeywords == [] && error == None
      ensures !showDangerOnly && visibleCounts == map[]
    {
      searchKeyword := "";
      recentSearches := [];
      results := Empty();
      activeTab := "";
      searchedKeywords := [];
      error := None;
      showDangerOnly := false;
      visibleCounts := map[];
    }

    /** The mount effect: the saved list, when there is one. */
    method LoadRecent(stored: Option<seq<string>>)
      modifies this`recentSearches
      ensures recentSearches == if stored.Some? then stored.value else old(recentSearches)
    {
      if stored.Some? {
        recentSearches := stored.value;
      }
    }

    /** `saveRecent(query)` */
    method SaveRecent(query: string)
      modifies this`recentSearches
      ensures recentSearches == MoveToFront(old(recentSearches), query, MaxRecent)
    {
      recentSearches := Take([query] + Without(recentSearches, query), MaxRecent);
    }

    /** `removeRecent(query)` */
    method RemoveRecent(query: string)
      modifies this`recentSearches
      ensures recentSearches == Without(old(recentSearches), query)
    {
      recentSearches := Without(recentSearches, query);
    }

    /** `searchBlogs(input)`: `keywords` are the keywords searched and
        `collected` what is handed to `onItemsCollected` (None when it is
        not called). */
    method SearchBlogs(input: Option<string>, fetch: Fetch, hasListener: bool)
      returns (keywords: seq<string>, collected: Option<seq<MonitoringItem>>)
      requires Valid()
      modifies this`recentSearches, this`error, this`searchedKeywords, this`results,
        this`visibleCounts, this`activeTab
      ensures Valid()
      ensures keywords == SplitKeywords(input.GetOr(old(searchKeyword)))
      ensures keywords == [] ==>
        && error == Some(EmptyKeyword) && collected.None?
        && recentSearches == old(recentSearches) && searchedKeywords == old(searchedKeywords)
        && results == old(results) && visibleCounts == old(visibleCounts) && activeTab == old(activeTab)
      ensures keywords != [] ==>
        && recentSearches == MoveToFront(old(recentSearches), Trim(input.GetOr(old(searchKeyword))), MaxRecent)
        && searchedKeywords == keywords
      ensures keywords != [] && Gathered(keywords, fetch).Success? ==>
        && results == Gathered(keywords, fetch).value
        && visibleCounts == FirstPages(keywords)
        && activeTab == keywords[0]
        && error == None
        && collected == (if hasListener then Some(CollectedItems(results)) else None)
      ensures keywords != [] && Gathered(keywords, fetch).Failure? ==>
        && error == Some(Gathered(keywords, fetch).error)
        && collected.None?
        && results == old(results) && visibleCounts == old(visibleCounts) && activeTab == old(activeTab)
    {
      var raw := input.GetOr(searchKeyword);
      keywords := SplitKeywords(raw);
      collected := SearchKeywords(Trim(raw), keywords, fetch, hasListener);
    }

    /** `searchBlogs` once the input is split into `keywords`, `query` being
        the trimmed input. */
    method SearchKeywords(query: string, keywords: seq<string>, fetch: Fetch, hasListener: bool)
      returns (collected: Option<seq<MonitoringItem>>)
      requires Valid()
      modifies this`recentSearches, this`error, this`searchedKeywords, this`results,
        this`visibleCounts, this`activeTab
      ensures Valid()
      ensures keywords == [] ==>
        && error == Some(EmptyKeyword) && collected.None?
        && recentSearches == old(recentSearches) && searchedKeywords == old(searchedKeywords)
        && results == old(results) && visibleCounts == old(visibleCounts) && activeTab == old(activeTab)
      ensures keywords != [] ==>
        && recentSearches == MoveToFront(old(recentSearches), query, MaxRecent)
        && searchedKeywords == keywords
      ensures keywords != [] && Gathered(keywords, fetch).Success? ==>
        && results == Gathered(keywords, fetch).value
        && visibleCounts == FirstPages(keywords)
        && activeTab == keywords[0]
        && error == None
        && collected == (if hasListener then Some(CollectedItems(results)) else None)
      ensures keywords != [] && Gathered(keywords, fetch).Failure? ==>
        && error == Some(Gathered(keywords, fetch).error)
        && collected.None?
        && results == old(results) && visibleCounts == old(visibleCounts) && activeTab == old(activeTab)
    {
      collected := None;
      if keywords == [] {
        error := Some(EmptyKeyword);
        return;
      }
      SaveRecent(query);
      error := None;
      searchedKeywords := keywords;
      var gathered, counts := Gather(keywords, fetch);
      collected := Finish(keywords[0], gathered, counts, hasListener);
    }

    /** The end of `searchBlogs`: a completed loop replaces the lists, the
        counts and the active tab; a failed one only sets the error. */
    method Finish(first: string, gathered: Result<OMap<seq<BlogResult>>, string>, counts: map<string, nat>,
                  hasListener: bool) returns (collected: Option<seq<MonitoringItem>>)
      requires Valid()
      requires gathered.Success? ==> gathered.value.Valid()
      modifies this`error, this`results, this`visibleCounts, this`activeTab
      ensures Valid()
      ensures gathered.Success? ==>
        && results == gathered.value && visibleCounts == counts && activeTab == first
        && error == old(error)
        && collected == (if hasListener then Some(CollectedItems(results)) else None)
      ensures gathered.Failure? ==>
        && error == Some(gathered.error) && collected.None?
        && results == old(results) && visibleCounts == old(visibleCounts) && activeTab == old(activeTab)
    {
      collected := None;
      match gathered {
        case Failure(e) =>
          error := Some(e);
        case Success(m) =>
          results := m;
          visibleCounts := counts;
          activeTab := first;
          if hasListener {
            collected := Some(CollectedItems(m));
          }
      }
    }

    /** The per-keyword loop of `searchBlogs`: each keyword's reply in turn,
        its blog posts kept once per link, stopping at the first failed
        reply. */
    static method Gather(keywords: seq<string>, fetch: Fetch)
      returns (r: Result<OMap<seq<BlogResult>>, string>, counts: map<string, nat>)
      ensures r == Gathered(keywords, fetch)
      ensures r.Success? ==> counts == FirstPages(keywords)
    {
      var acc: OMap<seq<BlogResult>> := Empty();
      counts := map[];
      var i := 0;
      while i < |keywords|
        invariant 0 <= i <= |keywords|
        invariant acc.Valid()
        invariant GatherFrom(keywords[i..], fetch, KeywordResults, BlogFailed, acc) == Gathered(keywords, fetch)
        invariant counts == FirstPages(keywords[..i])
      {
        var reply := fetch(keywords[i]);
        GatherFromStep(keywords, i, fetch, KeywordResults, BlogFailed, acc);
        if !reply.Ok? {
          r := Failure(FailureText(reply, BlogFailed));
          return;
        }
        var kept := Dedup(Filter(reply.body, IsBlog), LinkOf, {});
        acc := acc.Set(keywords[i], kept);
        FirstPagesStep(keywords, i);
        counts := counts[keywords[i] := PageSize];
        i := i + 1;
      }
      assert keywords[..i] == keywords;
      r := Success(acc);
    }

    /** `handleLoadMore(keyword)` */
    method LoadMore(keyword: string)
      modifies this`visibleCounts
      ensures visibleCounts == ShowMore(old(visibleCounts), keyword)
    {
      visibleCounts := visibleCounts[keyword := VisibleOf(visibleCounts, keyword) + PageSize];
    }

    /** `handleClearResults` */
    method ClearResults()
      modifies this`results, this`searchedKeywords, this`visibleCounts, this`activeTab,
        this`showDangerOnly, this`error
      ensures Valid()
      ensures results == Empty() && searchedKeywords == [] && visibleCounts == map[]
      ensures activeTab == "" && !showDangerOnly && error == None
    {
      results := Empty();
      searchedKeywords := [];
      visibleCounts := map[];
      activeTab := "";
      showDangerOnly := false;
      error := None;
    }

    /** `handleRemoveKeyword(kw)` */
    method RemoveKeyword(kw: string)
      requires Valid()
      modifies this`results, this`visibleCounts, this`searchedKeywords, this`activeTab
      ensures Valid()
      ensures results == old(results).Remove(kw)
      ensures visibleCounts == old(visibleCounts) - {kw}
      ensures searchedKeywords == Without(old(searchedKeywords), kw)
      ensures activeTab == NextActiveTab(old(searchedKeywords), kw, old(activeTab))
    {
      results := results.Remove(kw);
      visibleCounts := visibleCounts - {kw};
      var remaining := Without(searchedKeywords, kw);
      if remaining == [] {
        activeTab := "";
      } else if kw == activeTab {
        activeTab := remaining[0];
      }
      searchedKeywords := remaining;
    }

    /** The rows shown for the active tab. */
    function DisplayResults(): seq<BlogResult>
      reads this
    {
      Displayed(FilteredResults(CurrentResults(results, activeTab), showDangerOnly, DefaultNegativeKeywords),
        VisibleOf(visibleCounts, activeTab))
    }

    /** `hasMore` */
    predicate HasMoreResults()
      reads this
    {
      HasMore(FilteredResults(CurrentResults(results, activeTab), showDangerOnly, DefaultNegativeKeywords),
        VisibleOf(visibleCounts, activeTab))
    }
  }
}
