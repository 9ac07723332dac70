/** The Naver cafe search route (app/api/naver/cafe/route.ts). In general
    mode it makes one upstream request and keeps the items that mention the
    keyword. In cafe mode (a `cafeId` is given) it looks up the cafe's
    display name, builds up to three queries, reads each one page by page,
    and keeps the items of that cafe that mention the keyword, once per
    normalised link. The upstream API is a function parameter `fetch`. */
module NaverCafe {
  import opened Wrappers
  import opened Text
  import opened Seqs
  import NaverSearch

  datatype CafeItem = CafeItem(
    title: Option<string>, link: Option<string>, description: Option<string>,
    cafename: Option<string>, cafeurl: Option<string>)

  /** One upstream request: `query`, `display`, `start` and `sort`. */
  datatype Request = Request(query: string, display: int, start: int, sort: string)

  /** The upstream outcome: a JSON body (its `total` may be absent), a non-2xx
      status with its body, or a thrown error with its message. */
  datatype PageReply =
    | Page(total: Option<int>, items: seq<CafeItem>)
    | HttpError(status: int, body: string)
    | Thrown(message: string)

  type Fetch = Request -> PageReply

  datatype CafeResult = CafeResult(
    title: string, content: string, author: string, link: string,
    publishedAt: string, cafeName: string, cafeUrl: string)

  datatype Params = Params(
    keyword: Option<string>, query: Option<string>, display: Option<string>,
    start: Option<string>, sort: Option<string>, cafeId: Option<string>)

  datatype CafeResponse =
    | CafeScan(total: int, cafeId: string, cafeName: Option<string>, scannedTotal: int, items: seq<CafeResult>)
    | General(total: int, items: seq<CafeResult>)
    | Refused(status: int, error: string)

  const KeywordRequired := "keyword 파라미터가 필요합니다."
  const CredentialsMissing := "NAVER_CLIENT_ID 또는 NAVER_CLIENT_SECRET이 설정되지 않았습니다."
  const PageSize := 100
  const MaxPages := 10

  // Request parameters

  /** `keyword ?? query`: the `query` parameter is used only when `keyword`
      is absent, not when it is empty. */
  function KeywordOf(keyword: Option<string>, query: Option<string>): Option<string>
  {
    if keyword.Some? then keyword else query
  }

  /** `clamp(parseInt(display || "30", 10), 1, 100)` with the clamp as
      intended. */
  function Display(p: Option<string>): (r: int)
    ensures 1 <= r <= 100
  {
    NaverSearch.Clamp(ParseInt(OrElse(p, "30")), 30, 1, 100)
  }

  /** `clamp(parseInt(start || "1", 10), 1, 1000)` with the clamp as
      intended. */
  function Start(p: Option<string>): (r: int)
    ensures 1 <= r <= 1000
  {
    NaverSearch.Clamp(ParseInt(OrElse(p, "1")), 1, 1, 1000)
  }

  /** As written, a non-numeric `display` is NaN after the clamp. */
  lemma DisplayNaNAsWritten()
    ensures NaverSearch.ClampAsWritten(ParseInt(OrElse(Some("x"), "30")), 1, 100) == None
  {
    assert TrimStart("x") == "x";
  }

  /** The `display` and `start` the route as written puts on the upstream
      URL: `String(clamp(parseInt(...), lo, hi))`, "NaN" for a non-numeric
      parameter. */
  function DisplaySentAsWritten(p: Option<string>): string
  {
    NaverSearch.NumberText(NaverSearch.ClampAsWritten(ParseInt(OrElse(p, "30")), 1, 100))
  }

  function StartSentAsWritten(p: Option<string>): string
  {
    NaverSearch.NumberText(NaverSearch.ClampAsWritten(ParseInt(OrElse(p, "1")), 1, 1000))
  }

  /** As written, a parameter is sent as "NaN" exactly when it is not a
      number; otherwise the value sent is that of the corrected request. */
  lemma SentAsWrittenSpec(display: Option<string>, start: Option<string>)
    ensures DisplaySentAsWritten(display) == "NaN" <==> ParseInt(OrElse(display, "30")).None?
    ensures ParseInt(OrElse(display, "30")).Some? ==> DisplaySentAsWritten(display) == IntToString(Display(display))
    ensures StartSentAsWritten(start) == "NaN" <==> ParseInt(OrElse(start, "1")).None?
    ensures ParseInt(OrElse(start, "1")).Some? ==> StartSentAsWritten(start) == IntToString(Start(start))
  {
    var d := NaverSearch.ClampAsWritten(ParseInt(OrElse(display, "30")), 1, 100);
    if d.Some? {
      IntToStringNotNaN(d.value);
    }
    var s := NaverSearch.ClampAsWritten(ParseInt(OrElse(start, "1")), 1, 1000);
    if s.Some? {
      IntToStringNotNaN(s.value);
    }
  }

  /** A number in range is kept; a larger start is cut to 1000. */
  lemma NumericParams(n: nat)
    ensures 1 <= n <= 100 ==> Display(Some(NatToString(n))) == n
    ensures 1 <= n <= 1000 ==> Start(Some(NatToString(n))) == n
    ensures n > 1000 ==> Start(Some(NatToString(n))) == 1000
  {
    ParseIntRoundTrip(n);
  }

  /** A missing display gives 30. */
  lemma DisplayDefault()
    ensures Display(None) == 30
  {
    assert NatToString(30) == "30";
    NumericParams(30);
  }

  /** A missing start gives 1. */
  lemma StartDefault()
    ensures Start(None) == 1
  {
    assert NatToString(1) == "1";
    NumericParams(1);
  }

  /** The sort: "sim" when the parameter lowercases to "sim", otherwise
      "date". */
  function Sort(p: Option<string>): (r: string)
    ensures r == "sim" || r == "date"
    ensures r == "sim" <==> Lower(OrElse(p, "date")) == "sim"
  {
    if Lower(OrElse(p, "date")) == "sim" then "sim" else "date"
  }

  lemma SortCases()
    ensures Sort(None) == "date"
    ensures Sort(Some("SIM")) == "sim"
    ensures Sort(Some("Date")) == "date"
  {
    assert Lower("SIM") == "sim";
    assert Lower("Date")[0] == 'd';
  }

  // Cafe names

  predicate IsBracket(c: char)
  {
    c == '(' || c == '[' || c == '（'
  }

  /** The stripped cafe name cut before its first bracket, trimmed. */
  function FullName(cafename: string): string
  {
    Trim(TakeUntil(NaverSearch.StripHtml(cafename), IsBracket))
  }

  /** The first white-space separated word of a trimmed name. */
  function BrandWord(fullName: string): string
  {
    TakeUntil(fullName, IsSpace)
  }

  datatype Names = Names(fullName: string, brandWord: string)

  /** The full name has no bracket and no surrounding white space. */
  lemma FullNameShape(cafename: string)
    ensures Trimmed(FullName(cafename))
    ensures forall i :: 0 <= i < |FullName(cafename)| ==> !IsBracket(FullName(cafename)[i])
  {
    var cut := TakeUntil(NaverSearch.StripHtml(cafename), IsBracket);
    assert FullName(cafename) == Trim(cut);
    TrimShape(cut);
    forall k | 0 <= k < |Trim(cut)| ensures !IsBracket(Trim(cut)[k]) {
      TrimChar(cut, k);
      var j :| 0 <= j < |cut| && cut[j] == Trim(cut)[k];
    }
  }

  /** The brand word of a trimmed name is its leading word, empty exactly
      when the name is. */
  lemma BrandWordShape(fullName: string)
    requires Trimmed(fullName)
    ensures StartsWith(fullName, BrandWord(fullName))
    ensures forall i :: 0 <= i < |BrandWord(fullName)| ==> !IsSpace(BrandWord(fullName)[i])
    ensures BrandWord(fullName) == "" <==> fullName == ""
  {
  }

  /** A one-word name is its own brand word. */
  lemma OneWordName(fullName: string)
    requires forall i :: 0 <= i < |fullName| ==> !IsSpace(fullName[i])
    ensures BrandWord(fullName) == fullName
  {
  }

  /** `(item.cafeurl || "").toLowerCase().includes(cafeIdLower)` */
  predicate InCafe(item: CafeItem, cafeIdLower: string)
  {
    Contains(Lower(OrElse(item.cafeurl, "")), cafeIdLower)
  }

  /** `items.find(...)`: the first item of the cafe. */
  function FirstInCafe(items: seq<CafeItem>, cafeIdLower: string): (r: Option<CafeItem>)
    ensures r.None? <==> forall i :: 0 <= i < |items| ==> !InCafe(items[i], cafeIdLower)
    ensures r.Some? ==> r.value in items && InCafe(r.value, cafeIdLower)
  {
    if items == [] then None
    else if InCafe(items[0], cafeIdLower) then Some(items[0])
    else
      var r := FirstInCafe(items[1..], cafeIdLower);
      assert forall i :: 1 <= i < |items| ==> items[i] == items[1..][i - 1];
      r
  }

  /** The item found comes before every other item of the cafe. */
  lemma {:induction false} FirstInCafeIsFirst(items: seq<CafeItem>, cafeIdLower: string)
    ensures var r := FirstInCafe(items, cafeIdLower);
      r.Some? ==> exists i :: (0 <= i < |items| && items[i] == r.value
        && forall j :: 0 <= j < i ==> !InCafe(items[j], cafeIdLower))
  {
    var r := FirstInCafe(items, cafeIdLower);
    if items != [] && !InCafe(items[0], cafeIdLower) && r.Some? {
      FirstInCafeIsFirst(items[1..], cafeIdLower);
      var i :| 0 <= i < |items[1..]| && items[1..][i] == r.value
        && forall j :: 0 <= j < i ==> !InCafe(items[1..][j], cafeIdLower);
      assert items[i + 1] == r.value;
      forall j | 0 <= j < i + 1 ensures !InCafe(items[j], cafeIdLower) {
        if j > 0 {
          assert items[j] == items[1..][j - 1];
        }
      }
    } else if items != [] && r.Some? {
      assert items[0] == r.value;
    }
  }

  /** `resolveCafeKeywords(cafeId, ...)` given the reply to its lookup
      request; any failure gives two empty names. */
  function ResolveCafeKeywords(cafeId: string, lookup: PageReply): Names
  {
    if !lookup.Page? then Names("", "")
    else
      match FirstInCafe(lookup.items, Lower(cafeId))
      case None => Names("", "")
      case Some(item) =>
        if OrElse(item.cafename, "") == "" then Names("", "")
        else Names(FullName(item.cafename.value), BrandWord(FullName(item.cafename.value)))
  }

  /** The lookup request reads five items by date. */
  function LookupRequest(cafeId: string): Request
  {
    Request(cafeId, 5, 1, "date")
  }

  /** Resolved names are either both empty or a non-empty trimmed full name
      with its non-empty leading word. */
  lemma ResolvedNames(cafeId: string, lookup: PageReply)
    ensures var n := ResolveCafeKeywords(cafeId, lookup);
      (n.fullName == "" <==> n.brandWord == "") && StartsWith(n.fullName, n.brandWord) && Trimmed(n.fullName)
    ensures !lookup.Page? ==> ResolveCafeKeywords(cafeId, lookup) == Names("", "")
  {
    var n := ResolveCafeKeywords(cafeId, lookup);
    if lookup.Page? {
      var m := FirstInCafe(lookup.items, Lower(cafeId));
      if m.Some? && OrElse(m.value.cafename, "") != "" {
        FullNameShape(m.value.cafename.value);
        BrandWordShape(FullName(m.value.cafename.value));
      }
    }
  }

  // Queries

  /** `cafeQueries`: brand word with keyword, then cafe name with keyword
      when it differs from the brand word, then the keyword alone. */
  function CafeQueries(brandWord: string, cafeName: string, keyword: string): (r: seq<string>)
    ensures 1 <= |r| <= 3 && r[|r| - 1] == keyword
    ensures brandWord != "" ==> r[0] == brandWord + " " + keyword
    ensures |r| == 1 + (if brandWord != "" then 1 else 0) + (if cafeName != "" && cafeName != brandWord then 1 else 0)
    ensures cafeName != "" && cafeName != brandWord ==> r[|r| - 2] == cafeName + " " + keyword
  {
    (if brandWord != "" then [brandWord + " " + keyword] else [])
    + (if cafeName != "" && cafeName != brandWord then [cafeName + " " + keyword] else [])
    + [keyword]
  }

  /** With resolved names there are three queries when the cafe name has
      more than its brand word, two when it is one word, one when unknown. */
  lemma QueriesForNames(cafeId: string, lookup: PageReply, keyword: string)
    ensures var n := ResolveCafeKeywords(cafeId, lookup);
      |CafeQueries(n.brandWord, n.fullName, keyword)| == (if n.fullName == "" then 1 else if n.fullName == n.brandWord then 2 else 3)
  {
    ResolvedNames(cafeId, lookup);
  }

  // Paging

  /** `1 + page * pageSize` */
  function PageStart(page: nat): int
  {
    1 + page * 100
  }

  /** The items read for one query from `page` on: a failed page or a short
      page ends the query, and so do ten pages or a start past 1000. */
  function QueryPages(q: string, sort: string, fetch: Fetch, page: nat): seq<CafeItem>
    decreases MaxPages - page
  {
    if page >= MaxPages || PageStart(page) > 1000 then []
    else
      match fetch(Request(q, PageSize, PageStart(page), sort))
      case Page(_, items) => items + (if |items| < PageSize then [] else QueryPages(q, sort, fetch, page + 1))
      case _ => []
  }

  /** The requests made for one query from `page` on. */
  function QueryRequests(q: string, sort: string, fetch: Fetch, page: nat): seq<Request>
    decreases MaxPages - page
  {
    if page >= MaxPages || PageStart(page) > 1000 then []
    else
      var req := Request(q, PageSize, PageStart(page), sort);
      match fetch(req)
      case Page(_, items) => [req] + (if |items| < PageSize then [] else QueryRequests(q, sort, fetch, page + 1))
      case _ => [req]
  }

  function AllPages(qs: seq<string>, sort: string, fetch: Fetch): seq<CafeItem>
  {
    if qs == [] then [] else QueryPages(qs[0], sort, fetch, 0) + AllPages(qs[1..], sort, fetch)
  }

  function AllRequests(qs: seq<string>, sort: string, fetch: Fetch): seq<Request>
  {
    if qs == [] then [] else QueryRequests(qs[0], sort, fetch, 0) + AllRequests(qs[1..], sort, fetch)
  }

  /** The requests of one query ask for pages of 100 at starts 1, 101, ...,
      in order, at most ten of them, all within 1000. */
  lemma {:induction false} QueryRequestsBounded(q: string, sort: string, fetch: Fetch, page: nat)
    ensures |QueryRequests(q, sort, fetch, page)| <= if page >= MaxPages then 0 else MaxPages - page
    ensures forall k :: 0 <= k < |QueryRequests(q, sort, fetch, page)| ==>
      QueryRequests(q, sort, fetch, page)[k] == Request(q, PageSize, PageStart(page + k), sort)
      && PageStart(page + k) <= 1000
    decreases MaxPages - page
  {
    if page < MaxPages {
      var req := Request(q, PageSize, PageStart(page), sort);
      var reply := fetch(req);
      var all := QueryRequests(q, sort, fetch, page);
      PagesStep(q, sort, fetch, page);
      if reply.Page? && |reply.items| >= PageSize {
        QueryRequestsBounded(q, sort, fetch, page + 1);
        var rest := QueryRequests(q, sort, fetch, page + 1);
        assert all == [req] + rest;
        forall k | 1 <= k < |all|
          ensures all[k] == Request(q, PageSize, PageStart(page + k), sort) && PageStart(page + k) <= 1000
        {
          assert all[k] == rest[k - 1];
          assert page + 1 + (k - 1) == page + k;
        }
      } else {
        assert all == [req];
      }
    }
  }

  /** The `pageStart > 1000` guard never fires: ten pages of 100 end at 901. */
  lemma PageStartGuardIdle(page: nat)
    requires page < MaxPages
    ensures PageStart(page) <= 901
  {
  }

  /** A query whose every page is full reads all ten pages. */
  lemma {:induction false} FullPagesReadAll(q: string, sort: string, fetch: Fetch, page: nat)
    requires page <= MaxPages
    requires forall s :: (fetch(Request(q, PageSize, s, sort)).Page?
      && |fetch(Request(q, PageSize, s, sort)).items| == PageSize)
    ensures |QueryRequests(q, sort, fetch, page)| == MaxPages - page
    ensures |QueryPages(q, sort, fetch, page)| == PageSize * (MaxPages - page)
    decreases MaxPages - page
  {
    if page < MaxPages {
      FullPagesReadAll(q, sort, fetch, page + 1);
    }
  }

  /** One step of the paging of a query whose page is read: the items of
      the reply come first, and the requests start with this one. */
  lemma PagesStep(q: string, sort: string, fetch: Fetch, page: nat)
    requires page < MaxPages
    ensures var req := Request(q, PageSize, PageStart(page), sort);
      var reply := fetch(req);
      && QueryPages(q, sort, fetch, page)
        == (if reply.Page? then reply.items + (if |reply.items| < PageSize then [] else QueryPages(q, sort, fetch, page + 1)) else [])
      && QueryRequests(q, sort, fetch, page)
        == [req] + (if reply.Page? && |reply.items| >= PageSize then QueryRequests(q, sort, fetch, page + 1) else [])
  {
  }

  /** A turn of the paging loop of a query that ends it: with `items` and
      `requests` read before it, a failed or short page completes the
      query. */
  lemma ScanStop(q: string, sort: string, fetch: Fetch, page: nat, items: seq<CafeItem>, requests: seq<Request>)
    requires page < MaxPages
    requires var reply := fetch(Request(q, PageSize, PageStart(page), sort));
      !reply.Page? || |reply.items| < PageSize
    ensures var req := Request(q, PageSize, PageStart(page), sort);
      var reply := fetch(req);
      && items + QueryPages(q, sort, fetch, page) == items + (if reply.Page? then reply.items else [])
      && requests + QueryRequests(q, sort, fetch, page) == requests + [req]
  {
    PagesStep(q, sort, fetch, page);
    var reply := fetch(Request(q, PageSize, PageStart(page), sort));
    if reply.Page? {
      assert reply.items + [] == reply.items;
    }
  }

  /** A turn of the paging loop of a query that goes on to the next page. */
  lemma ScanNext(q: string, sort: string, fetch: Fetch, page: nat, items: seq<CafeItem>, requests: seq<Request>)
    requires page < MaxPages
    requires var reply := fetch(Request(q, PageSize, PageStart(page), sort));
      reply.Page? && |reply.items| >= PageSize
    ensures var req := Request(q, PageSize, PageStart(page), sort);
      var reply := fetch(req);
      && items + QueryPages(q, sort, fetch, page) == (items + reply.items) + QueryPages(q, sort, fetch, page + 1)
      && requests + QueryRequests(q, sort, fetch, page) == (requests + [req]) + QueryRequests(q, sort, fetch, page + 1)
  {
    var req := Request(q, PageSize, PageStart(page), sort);
    PagesStep(q, sort, fetch, page);
    AppendAssoc(items, fetch(req).items, QueryPages(q, sort, fetch, page + 1));
    AppendAssoc(requests, [req], QueryRequests(q, sort, fetch, page + 1));
  }

  /** One query's paging loop. */
  method ScanQuery(q: string, sort: string, fetch: Fetch) returns (items: seq<CafeItem>, requests: seq<Request>)
    ensures items == QueryPages(q, sort, fetch, 0)
    ensures requests == QueryRequests(q, sort, fetch, 0)
  {
    ghost var allPages := QueryPages(q, sort, fetch, 0);
    ghost var allRequests := QueryRequests(q, sort, fetch, 0);
    items := [];
    requests := [];
    var page := 0;
    while page < MaxPages
      invariant 0 <= page <= MaxPages
      invariant items + QueryPages(q, sort, fetch, page) == allPages
      invariant requests + QueryRequests(q, sort, fetch, page) == allRequests
    {
      var pageStart := PageStart(page);
      if pageStart > 1000 {
        break;
      }
      var req := Request(q, PageSize, pageStart, sort);
      var reply := fetch(req);
      if !reply.Page? || |reply.items| < PageSize {
        ScanStop(q, sort, fetch, page, items, requests);
        requests := requests + [req];
        if reply.Page? {
          items := items + reply.items;
        } else {
          assert items + [] == items;
        }
        break;
      }
      ScanNext(q, sort, fetch, page, items, requests);
      requests := requests + [req];
      items := items + reply.items;
      page := page + 1;
    }
    if page == MaxPages {
      assert items + [] == items && requests + [] == requests;
    }
  }

  /** One query of the loop over the queries. */
  lemma ScanStep(qs: seq<string>, i: nat, sort: string, fetch: Fetch, raw: seq<CafeItem>, requests: seq<Request>)
    requires i < |qs|
    ensures raw + AllPages(qs[i..], sort, fetch)
      == (raw + QueryPages(qs[i], sort, fetch, 0)) + AllPages(qs[i + 1..], sort, fetch)
    ensures requests + AllRequests(qs[i..], sort, fetch)
      == (requests + QueryRequests(qs[i], sort, fetch, 0)) + AllRequests(qs[i + 1..], sort, fetch)
  {
    var rest := qs[i..];
    assert rest[0] == qs[i] && rest[1..] == qs[i + 1..];
    AppendAssoc(raw, QueryPages(qs[i], sort, fetch, 0), AllPages(qs[i + 1..], sort, fetch));
    AppendAssoc(requests, QueryRequests(qs[i], sort, fetch, 0), AllRequests(qs[i + 1..], sort, fetch));
  }

  /** The loop over the queries, in order. */
  method Scan(qs: seq<string>, sort: string, fetch: Fetch) returns (raw: seq<CafeItem>, requests: seq<Request>)
    ensures raw == AllPages(qs, sort, fetch)
    ensures requests == AllRequests(qs, sort, fetch)
  {
    raw := [];
    requests := [];
    for i := 0 to |qs|
      invariant raw + AllPages(qs[i..], sort, fetch) == AllPages(qs, sort, fetch)
      invariant requests + AllRequests(qs[i..], sort, fetch) == AllRequests(qs, sort, fetch)
    {
      var items, reqs := ScanQuery(qs[i], sort, fetch);
      ScanStep(qs, i, sort, fetch, raw, requests);
      raw := raw + items;
      requests := requests + reqs;
    }
    assert qs[|qs|..] == [];
    assert raw + [] == raw && requests + [] == requests;
  }

  // Filtering

  /** `link.replace(/^https?:\/\//, "").replace(/\/$/, "")` */
  function NormalLink(link: string): string
  {
    var bare := if StartsWith(link, "http://") then link[7..]
                else if StartsWith(link, "https://") then link[8..]
                else link;
    if |bare| > 0 && bare[|bare| - 1] == '/' then bare[..|bare| - 1] else bare
  }

  /** The same page under either scheme, with or without a trailing slash,
      normalises to the same key. */
  lemma NormalLinkVariants(host: string)
    requires host != [] && '/' !in host
    ensures NormalLink("http://" + host) == host
    ensures NormalLink("https://" + host) == host
    ensures NormalLink("https://" + host + "/") == host
  {
    var a := "http://" + host;
    assert a[..7] == "http://" && a[7..] == host;
    var b := "https://" + host;
    assert b[..7] != "http://" by { assert b[4] == 's'; }
    assert b[..8] == "https://" && b[8..] == host;
    var c := "https://" + host + "/";
    assert c[..7] != "http://" by { assert c[4] == 's'; }
    assert c[..8] == "https://" && c[8..] == host + "/";
    assert host[|host| - 1] != '/';
    assert (host + "/")[..|host|] == host;
  }

  /** The dedup key of an item. */
  function LinkKey(item: CafeItem): string
  {
    NormalLink(OrElse(item.link, ""))
  }

  function CafeOf(cafeIdLower: string): CafeItem -> bool
  {
    (item: CafeItem) => InCafe(item, cafeIdLower)
  }

  /** The title or the description, stripped and lowercased, contains the
      lowercased keyword. */
  predicate Mentions(item: CafeItem, kwLower: string)
  {
    Contains(Lower(NaverSearch.StripHtml(OrElse(item.title, ""))), kwLower)
    || Contains(Lower(NaverSearch.StripHtml(OrElse(item.description, ""))), kwLower)
  }

  function MentionOf(kwLower: string): CafeItem -> bool
  {
    (item: CafeItem) => Mentions(item, kwLower)
  }

  /** The cafe-mode filter chain; the `seen` set starts with the empty key so
      that an item without a link is dropped. */
  function CafeMatches(raw: seq<CafeItem>, cafeIdLower: string, kwLower: string): seq<CafeItem>
  {
    DedupFrom(Filter(Filter(raw, CafeOf(cafeIdLower)), MentionOf(kwLower)), LinkKey, {""})
  }

  /** Every kept item is in the cafe, mentions the keyword and has a
      non-empty link key; the keys are pairwise distinct and the order is
      the scan order. */
  lemma CafeMatchesSound(raw: seq<CafeItem>, cafeIdLower: string, kwLower: string)
    ensures var kept := CafeMatches(raw, cafeIdLower, kwLower);
      (forall i :: 0 <= i < |kept| ==> InCafe(kept[i], cafeIdLower) && Mentions(kept[i], kwLower) && LinkKey(kept[i]) != "")
      && DistinctKeys(kept, LinkKey) && IsSubseq(kept, raw)
  {
    var a := Filter(raw, CafeOf(cafeIdLower));
    var b := Filter(a, MentionOf(kwLower));
    var kept := DedupFrom(b, LinkKey, {""});
    DedupDistinct(b, LinkKey, {""});
    FilterSubseq(raw, CafeOf(cafeIdLower));
    FilterSubseq(a, MentionOf(kwLower));
    SubseqTrans(kept, b, a);
    SubseqTrans(kept, a, raw);
    forall i | 0 <= i < |kept| ensures InCafe(kept[i], cafeIdLower) && Mentions(kept[i], kwLower) && LinkKey(kept[i]) != "" {
      var x := kept[i];
      SubseqMember(kept, b, x);
      assert MentionOf(kwLower)(x) && x in a;
      assert CafeOf(cafeIdLower)(x);
      assert LinkKey(x) in Keys(kept, LinkKey);
    }
  }

  /** Every scanned item of the cafe that mentions the keyword has its link
      key among the kept ones, unless that key is empty. */
  lemma CafeMatchesComplete(raw: seq<CafeItem>, cafeIdLower: string, kwLower: string, x: CafeItem)
    requires x in raw && InCafe(x, cafeIdLower) && Mentions(x, kwLower) && LinkKey(x) != ""
    ensures LinkKey(x) in Keys(CafeMatches(raw, cafeIdLower, kwLower), LinkKey)
  {
    var a := Filter(raw, CafeOf(cafeIdLower));
    var b := Filter(a, MentionOf(kwLower));
    DedupKeys(b, LinkKey, {""});
    FilterMembers(raw, CafeOf(cafeIdLower), x);
    FilterMembers(a, MentionOf(kwLower), x);
    var i :| 0 <= i < |b| && b[i] == x;
    assert LinkKey(x) in Keys(b, LinkKey);
  }

  /** `toResult(item)` without its id. */
  function ToResult(item: CafeItem): CafeResult
  {
    CafeResult(
      NaverSearch.StripHtml(OrElse(item.title, "")), NaverSearch.StripHtml(OrElse(item.description, "")),
      NaverSearch.StripHtml(OrElse(item.cafename, "")), OrElse(item.link, ""), "",
      NaverSearch.StripHtml(OrElse(item.cafename, "")), OrElse(item.cafeurl, ""))
  }

  function ToResults(items: seq<CafeItem>): (r: seq<CafeResult>)
    ensures |r| == |items| && forall i :: 0 <= i < |items| ==> r[i] == ToResult(items[i])
  {
    seq(|items|, i requires 0 <= i < |items| => ToResult(items[i]))
  }

  // The route

  /** The response of cafe mode. */
  function CafeMode(keyword: string, cafeId: string, sort: string, fetch: Fetch): CafeResponse
  {
    var names := ResolveCafeKeywords(cafeId, fetch(LookupRequest(cafeId)));
    var raw := AllPages(CafeQueries(names.brandWord, names.fullName, keyword), sort, fetch);
    var kept := CafeMatches(raw, Lower(cafeId), Lower(keyword));
    var cafeName := if names.fullName != "" then Some(names.fullName)
                    else if names.brandWord != "" then Some(names.brandWord) else None;
    CafeScan(|kept|, cafeId, cafeName, |raw|, ToResults(kept))
  }

  /** The upstream error text: a non-2xx reply is thrown as an error whose
      message names the status and body. */
  function FailureMessage(reply: PageReply): string
    requires !reply.Page?
  {
    match reply
    case HttpError(status, body) => "Naver Cafe API 오류: " + IntToString(status) + " " + body
    case Thrown(message) => message
  }

  /** The response of general mode. */
  function GeneralMode(keyword: string, display: int, start: int, sort: string, fetch: Fetch): CafeResponse
  {
    var reply := fetch(Request(keyword, display, start, sort));
    if reply.Page? then
      var kept := Filter(reply.items, MentionOf(Lower(keyword)));
      General(if reply.total.Some? then reply.total.value else |kept|, ToResults(kept))
    else Refused(500, "Naver Cafe 검색 실패: " + FailureMessage(reply))
  }

  /** `GET /api/naver/cafe` given the query parameters, the credentials and
      the upstream API. */
  function Respond(p: Params, clientId: Option<string>, clientSecret: Option<string>, fetch: Fetch): CafeResponse
  {
    var keyword := KeywordOf(p.keyword, p.query);
    if keyword.None? || keyword.value == "" then Refused(400, KeywordRequired)
    else if OrElse(clientId, "") == "" || OrElse(clientSecret, "") == "" then Refused(500, CredentialsMissing)
    else if OrElse(p.cafeId, "") != "" then CafeMode(keyword.value, p.cafeId.value, Sort(p.sort), fetch)
    else GeneralMode(keyword.value, Display(p.display), Start(p.start), Sort(p.sort), fetch)
  }

  /** The route handler: the cafe branch runs the paging loops and the
      `seen`-set filter. */
  method Get(p: Params, clientId: Option<string>, clientSecret: Option<string>, fetch: Fetch) returns (r: CafeResponse)
    ensures r == Respond(p, clientId, clientSecret, fetch)
  {
    var keyword := KeywordOf(p.keyword, p.query);
    var display := Display(p.display);
    var start := Start(p.start);
    var sort := Sort(p.sort);
    if keyword.None? || keyword.value == "" {
      return Refused(400, KeywordRequired);
    }
    if OrElse(clientId, "") == "" || OrElse(clientSecret, "") == "" {
      return Refused(500, CredentialsMissing);
    }
    var kw := keyword.value;
    if OrElse(p.cafeId, "") != "" {
      var cafeId := p.cafeId.value;
      var names := ResolveCafeKeywords(cafeId, fetch(LookupRequest(cafeId)));
      var queries := CafeQueries(names.brandWord, names.fullName, kw);
      var raw, _ := Scan(queries, sort, fetch);
      var candidates := Filter(Filter(raw, CafeOf(Lower(cafeId))), MentionOf(Lower(kw)));
      var kept := Dedup(candidates, LinkKey, {""});
      var cafeName := if names.fullName != "" then Some(names.fullName)
                      else if names.brandWord != "" then Some(names.brandWord) else None;
      r := CafeScan(|kept|, cafeId, cafeName, |raw|, ToResults(kept));
    } else {
      r := GeneralMode(kw, display, start, sort, fetch);
    }
  }

  /** The checks run in order (keyword, then credentials); cafe mode reports
      as total the number of kept items, as scanned total the number of
      items read, and a cafe name exactly when one was resolved; general
      mode reports the upstream total when present. */
  lemma RespondSpec(p: Params, clientId: Option<string>, clientSecret: Option<string>, fetch: Fetch)
    ensures KeywordOf(p.keyword, p.query) == None || KeywordOf(p.keyword, p.query) == Some("") ==>
      Respond(p, clientId, clientSecret, fetch) == Refused(400, KeywordRequired)
    ensures p.keyword == Some("") ==> Respond(p, clientId, clientSecret, fetch) == Refused(400, KeywordRequired)
    ensures (OrElse(KeywordOf(p.keyword, p.query), "") != ""
        && (OrElse(clientId, "") == "" || OrElse(clientSecret, "") == "")) ==>
      Respond(p, clientId, clientSecret, fetch) == Refused(500, CredentialsMissing)
    ensures var r := Respond(p, clientId, clientSecret, fetch);
      r.CafeScan? ==> (r.total == |r.items| && r.cafeId == p.cafeId.value
        && (r.cafeName.None? <==> ResolveCafeKeywords(r.cafeId, fetch(LookupRequest(r.cafeId))).fullName == ""))
    ensures var r := Respond(p, clientId, clientSecret, fetch);
      r.General? ==> var reply := fetch(Request(p.keyword.GetOr(p.query.GetOr("")), Display(p.display), Start(p.start), Sort(p.sort)));
        reply.Page? && (reply.total.Some? ==> r.total == reply.total.value)
        && (reply.total.None? ==> r.total == |r.items|)
  {
    var r := Respond(p, clientId, clientSecret, fetch);
    if r.CafeScan? {
      ResolvedNames(p.cafeId.value, fetch(LookupRequest(p.cafeId.value)));
    }
  }
}
