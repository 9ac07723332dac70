/** The unified scan (components/unified-scan.tsx): one comma-separated
    input is split into keywords and searched on four platforms at once —
    Naver blogs through the expanded Naver queries, Naver cafes, Google
    through the keyword, its risk query and the social queries, and YouTube.
    Each platform's rows are tagged with the keyword they were found for and
    kept once per link (blog rows only when their title or content mentions
    a keyword, cafe rows only with a link); the four lists together are kept
    once per link again and grouped by keyword. Each platform route is a
    function from the query to the items of its reply, `None` standing for
    a reply that is not ok or a request that throws; the scan converts the
    items into rows. */
module UnifiedScan {
  import opened Wrappers
  import opened Text
  import opened Seqs
  import opened Types
  import opened Recent
  import opened Tabs
  import opened QueryPacks
  import opened KeywordMatch
  import YouTube

  /** `MAX_RECENT` */
  const MaxRecent: nat := 8

  /** `ALL_CATEGORIES` */
  const AllCategories: seq<string> := ["blog", "cafe", "google", "youtube"]

  /** The keys of `platformStates`; `Key` gives the source's string for
      each. */
  datatype Platform = NaverBlogs | NaverCafes | GoogleWeb | YouTubeVideos

  function Key(p: Platform): string
  {
    match p
    case NaverBlogs => "naver"
    case NaverCafes => "cafe"
    case GoogleWeb => "google"
    case YouTubeVideos => "youtube"
  }

  // ---------------------------------------------------------------------
  // Per-platform progress

  /** `"idle" | "scanning" | "filtering" | "done" | "error"` */
  datatype ScanStatus = Idle | Scanning | Filtering | Finished | Failed

  /** `PlatformScanState` */
  datatype ScanState = ScanState(status: ScanStatus, collected: nat, filtered: nat, message: string)

  /** A `Partial<PlatformScanState>`: the fields it sets. */
  datatype Patch = Patch(status: Option<ScanStatus>, collected: Option<nat>, filtered: Option<nat>,
                         message: Option<string>)

  /** `{ ...state, ...patch }` */
  function Apply(s: ScanState, p: Patch): ScanState
  {
    ScanState(p.status.GetOr(s.status), p.collected.GetOr(s.collected), p.filtered.GetOr(s.filtered),
              p.message.GetOr(s.message))
  }

  /** Two patches in a row: the later one's fields win. */
  function Then(p: Patch, q: Patch): Patch
  {
    Patch(if q.status.Some? then q.status else p.status,
          if q.collected.Some? then q.collected else p.collected,
          if q.filtered.Some? then q.filtered else p.filtered,
          if q.message.Some? then q.message else p.message)
  }

  /** A patch that sets nothing changes nothing; applying a patch twice is
      applying it once; two patches in a row are one patch with the later
      fields winning; a patch that sets every field decides the state
      alone. */
  lemma ApplyLaws(s: ScanState, p: Patch, q: Patch)
    ensures Apply(s, Patch(None, None, None, None)) == s
    ensures Apply(Apply(s, p), p) == Apply(s, p)
    ensures Apply(Apply(s, p), q) == Apply(s, Then(p, q))
    ensures p.status.Some? && p.collected.Some? && p.filtered.Some? && p.message.Some? ==>
      forall t :: Apply(t, p) == Apply(s, p)
  {
  }

  /** `progressValue` */
  function Progress(s: ScanState): nat
  {
    match s.status
    case Finished => 100
    case Filtering => 80
    case Scanning => if s.collected < 60 then s.collected else 60
    case _ => 0
  }

  /** The stage a status stands for; an error stands for none. */
  function Stage(st: ScanStatus): nat
  {
    match st
    case Idle => 0
    case Scanning => 1
    case Filtering => 2
    case Finished => 3
    case Failed => 0
  }

  /** The bar is full exactly when the platform is done, a scanning
      platform never passes 60, and a later stage never shows less than an
      earlier one. */
  lemma ProgressSpec(a: ScanState, b: ScanState)
    ensures Progress(a) <= 100
    ensures Progress(a) == 100 <==> a.status == Finished
    ensures a.status == Scanning ==> Progress(a) <= 60 && (Progress(a) == 60 <==> a.collected >= 60)
    ensures a.status != Failed && b.status != Failed && Stage(a.status) < Stage(b.status) ==>
      Progress(a) <= Progress(b)
  {
  }

  /** The text of a finished platform. */
  function DoneMessage(n: nat): string
  {
    "완료 - " + NatToString(n) + "건"
  }

  /** The patch a platform's scan ends with. */
  function DonePatch(collected: nat, filtered: nat): Patch
  {
    Patch(Some(Finished), Some(collected), Some(filtered), Some(DoneMessage(filtered)))
  }

  /** The state a platform shows before any scan. */
  const Waiting := ScanState(Idle, 0, 0, "대기 중")

  /** The state every platform is reset to when a scan starts. */
  const Preparing := ScanState(Idle, 0, 0, "준비 중...")

  /** The patch a platform's scan starts with. */
  function StartPatch(name: string): Patch
  {
    Patch(Some(Scanning), Some(0), Some(0), Some(name + " 검색 시작..."))
  }

  // ---------------------------------------------------------------------
  // Category filters (KeywordResults)

  /** `ALL_CATEGORIES.every((c) => activeFilters.includes(c))` */
  predicate AllSelected(active: seq<string>)
  {
    forall i :: 0 <= i < |AllCategories| ==> AllCategories[i] in active
  }

  /** `toggleFilter(cat)` */
  function ToggleFilter(active: seq<string>, cat: string): seq<string>
  {
    if cat in active then Without(active, cat) else active + [cat]
  }

  /** `toggleAll()` */
  function ToggleAll(active: seq<string>): seq<string>
  {
    if AllSelected(active) then [] else AllCategories
  }

  /** Toggling a category flips its membership and no other; toggling it
      twice restores every membership. */
  lemma ToggleFilterSpec(active: seq<string>, cat: string, c: string)
    ensures cat in ToggleFilter(active, cat) <==> cat !in active
    ensures c != cat ==> (c in ToggleFilter(active, cat) <==> c in active)
    ensures c in ToggleFilter(ToggleFilter(active, cat), cat) <==> c in active
  {
  }

  /** "All" clears a full selection and selects everything otherwise, so
      it flips whether everything is selected. */
  lemma ToggleAllSpec(active: seq<string>)
    ensures AllSelected(ToggleAll(active)) <==> !AllSelected(active)
    ensures AllSelected(active) ==> ToggleAll(active) == []
  {
    if !AllSelected(active) {
      assert AllSelected(AllCategories);
    } else {
      assert AllCategories[0] !in ToggleAll(active);
    }
  }

  // ---------------------------------------------------------------------
  // Scanning one platform

  /** A converted row tagged with the keyword it was searched for
      (`searchKeyword: baseKeyword`). */
  datatype Tagged = Tagged(item: MonitoringItem, searchKeyword: string)

  function LinkOf(t: Tagged): string
  {
    t.item.link
  }

  /** A request to a route and the keyword its rows belong to. */
  datatype Query = Query(query: string, base: string)

  /** An item of a route's JSON reply, with the fields the scan reads:
      `id`, `type`, `title`, `content`, `author`, `authorUrl`, `link`,
      `publishedAt` and `cafeName` of the blog, cafe and Google routes, and
      `videoId`, `description` and `channelTitle` of the YouTube route. */
  datatype RouteItem = RouteItem(
    id: string,
    kind: MonitoringType,
    title: string,
    content: string,
    author: string,
    authorUrl: Option<string>,
    link: string,
    publishedAt: Option<string>,
    cafeName: Option<string>,
    videoId: string,
    description: string,
    channelTitle: string)

  /** A route's items for a query, `None` for a reply that is not ok or a
      request that throws. */
  type RouteFetch = string -> Option<seq<RouteItem>>

  /** The four routes a scan calls. */
  datatype Routes = Routes(blog: RouteFetch, cafe: RouteFetch, google: RouteFetch, youtube: RouteFetch)

  /** A Google row: a web item, `publishedAt || ""`. */
  function GoogleRow(it: RouteItem): MonitoringItem
  {
    MonitoringItem(it.id, Google, Web, it.title, it.content, it.author, None, it.link,
      OrElse(it.publishedAt, ""), [], false)
  }

  /** A YouTube row: a general item named and linked by its video id. */
  function YouTubeRow(it: RouteItem): MonitoringItem
  {
    MonitoringItem("yt-search-" + it.videoId, Types.YouTube, General, it.title, it.description,
      it.channelTitle, None, YouTube.WatchPrefix + it.videoId, OrElse(it.publishedAt, ""), [], false)
  }

  /** A blog row: a Naver item of the type the route gives, with its
      author URL. */
  function BlogRow(it: RouteItem): MonitoringItem
  {
    MonitoringItem(it.id, Naver, it.kind, it.title, it.content, it.author, it.authorUrl, it.link,
      it.publishedAt.GetOr(""), [], false)
  }

  /** A cafe row: a Naver cafe item authored by `cafeName || author`. */
  function CafeRow(it: RouteItem): MonitoringItem
  {
    MonitoringItem(it.id, Naver, Cafe, it.title, it.content, OrElse(it.cafeName, it.author), None, it.link,
      it.publishedAt.GetOr(""), [], false)
  }

  /** A route's converted rows for a query. */
  type Fetch = string -> Option<seq<MonitoringItem>>

  /** `data.items.map(convert)` after each request of a route. */
  function Converted(route: RouteFetch, convert: RouteItem -> MonitoringItem): Fetch
  {
    (q: string) =>
      match route(q)
      case None => None
      case Some(items) => Some(Map(items, convert))
  }

  function BlogFetch(routes: Routes): Fetch
  {
    Converted(routes.blog, BlogRow)
  }

  function CafeFetch(routes: Routes): Fetch
  {
    Converted(routes.cafe, CafeRow)
  }

  function GoogleFetch(routes: Routes): Fetch
  {
    Converted(routes.google, GoogleRow)
  }

  function YouTubeFetch(routes: Routes): Fetch
  {
    Converted(routes.youtube, YouTubeRow)
  }

  /** Two YouTube rows have the same link, and the same id, exactly when
      they are of the same video. */
  lemma YouTubeRowKeys(a: RouteItem, b: RouteItem)
    ensures YouTubeRow(a).link == YouTubeRow(b).link <==> a.videoId == b.videoId
    ensures YouTubeRow(a).id == YouTubeRow(b).id <==> a.videoId == b.videoId
  {
    var p := YouTube.WatchPrefix;
    if YouTubeRow(a).link == YouTubeRow(b).link {
      assert (p + a.videoId)[|p|..] == a.videoId;
      assert (p + b.videoId)[|p|..] == b.videoId;
    }
    var q := "yt-search-";
    if YouTubeRow(a).id == YouTubeRow(b).id {
      assert (q + a.videoId)[|q|..] == a.videoId;
      assert (q + b.videoId)[|q|..] == b.videoId;
    }
  }

  /** `keywords.map((keyword) => ...)`: one request per keyword (YouTube,
      cafes). */
  function PerKeyword(keywords: seq<string>): seq<Query>
  {
    Map(keywords, (kw: string) => Query(kw, kw))
  }

  /** One keyword's Google requests: the keyword, its risk query and the
      two social queries. */
  function GoogleQueries(kw: string): (r: seq<Query>)
    ensures |r| == 4
  {
    [Query(kw, kw), Query(GoogleRiskQuery(kw), kw)] + Map(SocialQueries(kw), (q: string) => Query(q, kw))
  }

  /** One keyword's blog requests: the five Naver queries. */
  function NaverQueriesFor(kw: string): (r: seq<Query>)
    ensures |r| == 5
  {
    Map(NaverQueries(kw), (q: string) => Query(q, kw))
  }

  /** `allQueries` of the Google scan. */
  function GooglePlan(keywords: seq<string>): seq<Query>
  {
    FlatMap(keywords, (kw: string, i: nat) => GoogleQueries(kw))
  }

  /** The blog scan's tasks (`keywords.flatMap`). */
  function NaverPlan(keywords: seq<string>): seq<Query>
  {
    FlatMap(keywords, (kw: string, i: nat) => NaverQueriesFor(kw))
  }

  /** A keyword's requests belong to it. */
  lemma QueriesBelong(kw: string, q: Query)
    ensures q in GoogleQueries(kw) ==> q.base == kw
    ensures q in NaverQueriesFor(kw) ==> q.base == kw
  {
    var g := GoogleQueries(kw);
    if q in g {
      var j :| 0 <= j < 4 && g[j] == q;
    }
    var n := NaverQueriesFor(kw);
    if q in n {
      var j :| 0 <= j < 5 && n[j] == q;
    }
  }

  /** Every request of every plan belongs to a searched keyword. */
  lemma PlansBelong(keywords: seq<string>, q: Query)
    ensures q in PerKeyword(keywords) ==> q.base in keywords
    ensures q in GooglePlan(keywords) ==> q.base in keywords
    ensures q in NaverPlan(keywords) ==> q.base in keywords
  {
    if q in PerKeyword(keywords) {
      var i :| 0 <= i < |keywords| && PerKeyword(keywords)[i] == q;
    }
    if q in GooglePlan(keywords) {
      FlatMapMember(keywords, (kw: string, i: nat) => GoogleQueries(kw), q);
      var i :| 0 <= i < |keywords| && q in GoogleQueries(keywords[i]);
      QueriesBelong(keywords[i], q);
    }
    if q in NaverPlan(keywords) {
      FlatMapMember(keywords, (kw: string, i: nat) => NaverQueriesFor(kw), q);
      var i :| 0 <= i < |keywords| && q in NaverQueriesFor(keywords[i]);
      QueriesBelong(keywords[i], q);
    }
  }

  /** Four Google requests and five blog requests per keyword. */
  lemma PlanSizes(keywords: seq<string>)
    ensures |PerKeyword(keywords)| == |keywords|
    ensures |GooglePlan(keywords)| == 4 * |keywords|
    ensures |NaverPlan(keywords)| == 5 * |keywords|
  {
    GooglePlanSize(keywords);
    NaverPlanSize(keywords);
  }

  lemma {:induction false} GooglePlanSize(keywords: seq<string>)
    ensures |GooglePlan(keywords)| == 4 * |keywords|
    decreases |keywords|
  {
    if keywords != [] {
      GooglePlanSize(keywords[..|keywords| - 1]);
    }
  }

  lemma {:induction false} NaverPlanSize(keywords: seq<string>)
    ensures |NaverPlan(keywords)| == 5 * |keywords|
    decreases |keywords|
  {
    if keywords != [] {
      NaverPlanSize(keywords[..|keywords| - 1]);
    }
  }

  /** One task: its rows tagged with its keyword, none when the request
      fails. */
  function TaskRows(fetch: Fetch): (Query, nat) -> seq<Tagged>
  {
    (q: Query, i: nat) =>
      match fetch(q.query)
      case None => []
      case Some(items) => Map(items, (it: MonitoringItem) => Tagged(it, q.base))
  }

  /** `for (const batch of results) allResults.push(...batch)` */
  function Rows(plan: seq<Query>, fetch: Fetch): seq<Tagged>
  {
    FlatMap(plan, TaskRows(fetch))
  }

  /** A task's rows carry the task's keyword. */
  lemma TaskRowsBelong(fetch: Fetch, q: Query, i: nat, t: Tagged)
    requires t in TaskRows(fetch)(q, i)
    ensures t.searchKeyword == q.base
  {
    match fetch(q.query)
    case Some(items) =>
      var rows := Map(items, (it: MonitoringItem) => Tagged(it, q.base));
      var j :| 0 <= j < |rows| && rows[j] == t;
  }

  /** Every row is tagged with the keyword of the task that returned it. */
  lemma RowsBelong(plan: seq<Query>, fetch: Fetch, t: Tagged) returns (q: Query)
    requires t in Rows(plan, fetch)
    ensures q in plan && t.searchKeyword == q.base
  {
    FlatMapMember(plan, TaskRows(fetch), t);
    var i :| 0 <= i < |plan| && t in TaskRows(fetch)(plan[i], i);
    TaskRowsBelong(fetch, plan[i], i, t);
    q := plan[i];
  }

  /** The rows with their requests and their first-seen survivors. */
  datatype PlatformRun = PlatformRun(rows: seq<Tagged>, kept: seq<Tagged>)

  /** The blog filter: a row survives when its title or its content
      mentions some searched keyword. */
  function Relevant(keywords: seq<string>): Tagged -> bool
  {
    (t: Tagged) => MatchesAny(t.item.title, keywords) || MatchesAny(t.item.content, keywords)
  }

  /** `scanNaver`: relevant rows once per link. */
  function NaverRun(keywords: seq<string>, fetch: Fetch): PlatformRun
  {
    var rows := Rows(NaverPlan(keywords), fetch);
    PlatformRun(rows, DedupBy(Filter(rows, Relevant(keywords)), LinkOf))
  }

  /** `scanCafe`: rows with a link, once per link. */
  function CafeRun(keywords: seq<string>, fetch: Fetch): PlatformRun
  {
    var rows := Rows(PerKeyword(keywords), fetch);
    PlatformRun(rows, DedupFrom(rows, LinkOf, {""}))
  }

  /** `scanGoogle`: rows once per link. */
  function GoogleRun(keywords: seq<string>, fetch: Fetch): PlatformRun
  {
    var rows := Rows(GooglePlan(keywords), fetch);
    PlatformRun(rows, DedupBy(rows, LinkOf))
  }

  /** `scanYouTube`: rows once per link. */
  function YouTubeRun(keywords: seq<string>, fetch: Fetch): PlatformRun
  {
    var rows := Rows(PerKeyword(keywords), fetch);
    PlatformRun(rows, DedupBy(rows, LinkOf))
  }

  /** Rows kept from a plan whose requests all belong to searched keywords
      belong to searched keywords. */
  lemma KeptBelong(keywords: seq<string>, plan: seq<Query>, fetch: Fetch, kept: seq<Tagged>)
    requires forall q :: q in plan ==> q.base in keywords
    requires IsSubseq(kept, Rows(plan, fetch))
    ensures forall t :: t in kept ==> t.searchKeyword in keywords
  {
    forall t | t in kept ensures t.searchKeyword in keywords {
      SubseqMember(kept, Rows(plan, fetch), t);
      var q := RowsBelong(plan, fetch, t);
    }
  }

  /** The blog scan keeps exactly the links of the relevant rows, each
      once, every kept row relevant. */
  lemma NaverRunSpec(keywords: seq<string>, fetch: Fetch)
    ensures var r := NaverRun(keywords, fetch);
      && DistinctKeys(r.kept, LinkOf)
      && Keys(r.kept, LinkOf) == Keys(Filter(r.rows, Relevant(keywords)), LinkOf)
      && (forall t :: t in r.kept ==> Relevant(keywords)(t))
  {
    var r := NaverRun(keywords, fetch);
    var relevant := Filter(r.rows, Relevant(keywords));
    DedupDistinct(relevant, LinkOf, {});
    DedupKeys(relevant, LinkOf, {});
    forall t | t in r.kept ensures Relevant(keywords)(t) {
      SubseqMember(r.kept, relevant, t);
    }
  }

  /** The cafe scan keeps every non-empty link of its rows once and drops
      rows without a link. */
  lemma CafeRunSpec(keywords: seq<string>, fetch: Fetch)
    ensures var r := CafeRun(keywords, fetch);
      && DistinctKeys(r.kept, LinkOf)
      && Keys(r.kept, LinkOf) == Keys(r.rows, LinkOf) - {""}
  {
    var r := CafeRun(keywords, fetch);
    DedupDistinct(r.rows, LinkOf, {""});
    DedupKeys(r.rows, LinkOf, {""});
  }

  /** The Google scan keeps every link of its rows once. */
  lemma GoogleRunSpec(keywords: seq<string>, fetch: Fetch)
    ensures var r := GoogleRun(keywords, fetch);
      DistinctKeys(r.kept, LinkOf) && Keys(r.kept, LinkOf) == Keys(r.rows, LinkOf)
  {
    var r := GoogleRun(keywords, fetch);
    DedupDistinct(r.rows, LinkOf, {});
    DedupKeys(r.rows, LinkOf, {});
  }

  /** The YouTube scan keeps every link of its rows once. */
  lemma YouTubeRunSpec(keywords: seq<string>, fetch: Fetch)
    ensures var r := YouTubeRun(keywords, fetch);
      DistinctKeys(r.kept, LinkOf) && Keys(r.kept, LinkOf) == Keys(r.rows, LinkOf)
  {
    var r := YouTubeRun(keywords, fetch);
    DedupDistinct(r.rows, LinkOf, {});
    DedupKeys(r.rows, LinkOf, {});
  }

  /** Every row any platform keeps was searched for one of the keywords. */
  lemma RunsBelong(keywords: seq<string>, routes: Routes)
    ensures forall t :: t in NaverRun(keywords, BlogFetch(routes)).kept ==> t.searchKeyword in keywords
    ensures forall t :: t in CafeRun(keywords, CafeFetch(routes)).kept ==> t.searchKeyword in keywords
    ensures forall t :: t in GoogleRun(keywords, GoogleFetch(routes)).kept ==> t.searchKeyword in keywords
    ensures forall t :: t in YouTubeRun(keywords, YouTubeFetch(routes)).kept ==> t.searchKeyword in keywords
  {
    forall q | q in NaverPlan(keywords) || q in PerKeyword(keywords) || q in GooglePlan(keywords)
      ensures q.base in keywords
    {
      PlansBelong(keywords, q);
    }
    var n := NaverRun(keywords, BlogFetch(routes));
    var relevant := Filter(n.rows, Relevant(keywords));
    DedupDistinct(relevant, LinkOf, {});
    FilterSubseq(n.rows, Relevant(keywords));
    SubseqTrans(n.kept, relevant, n.rows);
    KeptBelong(keywords, NaverPlan(keywords), BlogFetch(routes), n.kept);
    var c := CafeRun(keywords, CafeFetch(routes));
    DedupDistinct(c.rows, LinkOf, {""});
    KeptBelong(keywords, PerKeyword(keywords), CafeFetch(routes), c.kept);
    var g := GoogleRun(keywords, GoogleFetch(routes));
    DedupDistinct(g.rows, LinkOf, {});
    KeptBelong(keywords, GooglePlan(keywords), GoogleFetch(routes), g.kept);
    var y := YouTubeRun(keywords, YouTubeFetch(routes));
    DedupDistinct(y.rows, LinkOf, {});
    KeptBelong(keywords, PerKeyword(keywords), YouTubeFetch(routes), y.kept);
  }

  /** Every row of a route is the conversion of one of its items. */
  lemma RowConverted(plan: seq<Query>, route: RouteFetch, convert: RouteItem -> MonitoringItem, t: Tagged)
    returns (it: RouteItem)
    requires t in Rows(plan, Converted(route, convert))
    ensures t.item == convert(it)
  {
    var fetch := Converted(route, convert);
    FlatMapMember(plan, TaskRows(fetch), t);
    var i :| 0 <= i < |plan| && t in TaskRows(fetch)(plan[i], i);
    var items := route(plan[i].query).value;
    var rows := Map(Map(items, convert), (x: MonitoringItem) => Tagged(x, plan[i].base));
    var j :| 0 <= j < |rows| && rows[j] == t;
    it := items[j];
  }

  /** A kept row was one of the run's rows. */
  lemma KeptRow(kept: seq<Tagged>, relevant: seq<Tagged>, rows: seq<Tagged>, t: Tagged)
    requires IsSubseq(kept, relevant) && IsSubseq(relevant, rows) && t in kept
    ensures t in rows
  {
    SubseqTrans(kept, relevant, rows);
    SubseqMember(kept, rows, t);
  }

  /** Each platform's rows fall under its own summary count: cafe rows are
      Naver cafe items, Google rows Google items, YouTube rows YouTube
      items, and blog rows Naver items of the type their route gives. */
  lemma RunsCounted(keywords: seq<string>, routes: Routes)
    ensures forall t :: t in NaverRun(keywords, BlogFetch(routes)).kept ==>
      t.item.source == Naver && !IsGoogle(t) && !IsYouTube(t)
    ensures forall t :: t in CafeRun(keywords, CafeFetch(routes)).kept ==> IsCafe(t) && !IsBlog(t)
    ensures forall t :: t in GoogleRun(keywords, GoogleFetch(routes)).kept ==> IsGoogle(t)
    ensures forall t :: t in YouTubeRun(keywords, YouTubeFetch(routes)).kept ==> IsYouTube(t)
  {
    var n := NaverRun(keywords, BlogFetch(routes));
    var relevant := Filter(n.rows, Relevant(keywords));
    DedupDistinct(relevant, LinkOf, {});
    FilterSubseq(n.rows, Relevant(keywords));
    forall t | t in n.kept ensures t.item.source == Naver {
      KeptRow(n.kept, relevant, n.rows, t);
      var it := RowConverted(NaverPlan(keywords), routes.blog, BlogRow, t);
    }
    var c := CafeRun(keywords, CafeFetch(routes));
    DedupDistinct(c.rows, LinkOf, {""});
    forall t | t in c.kept ensures IsCafe(t) {
      SubseqMember(c.kept, c.rows, t);
      var it := RowConverted(PerKeyword(keywords), routes.cafe, CafeRow, t);
    }
    var g := GoogleRun(keywords, GoogleFetch(routes));
    DedupDistinct(g.rows, LinkOf, {});
    forall t | t in g.kept ensures IsGoogle(t) {
      SubseqMember(g.kept, g.rows, t);
      var it := RowConverted(GooglePlan(keywords), routes.google, GoogleRow, t);
    }
    var y := YouTubeRun(keywords, YouTubeFetch(routes));
    DedupDistinct(y.rows, LinkOf, {});
    forall t | t in y.kept ensures IsYouTube(t) {
      SubseqMember(y.kept, y.rows, t);
      var it := RowConverted(PerKeyword(keywords), routes.youtube, YouTubeRow, t);
    }
  }

  /** The YouTube scan keeps each video once: its kept rows have pairwise
      distinct ids. */
  lemma YouTubeOncePerVideo(keywords: seq<string>, routes: Routes)
    ensures var kept := YouTubeRun(keywords, YouTubeFetch(routes)).kept;
      forall i, j :: 0 <= i < j < |kept| ==> kept[i].item.id != kept[j].item.id
  {
    var y := YouTubeRun(keywords, YouTubeFetch(routes));
    DedupDistinct(y.rows, LinkOf, {});
    forall i, j | 0 <= i < j < |y.kept| ensures y.kept[i].item.id != y.kept[j].item.id {
      SubseqMember(y.kept, y.rows, y.kept[i]);
      SubseqMember(y.kept, y.rows, y.kept[j]);
      var a := RowConverted(PerKeyword(keywords), routes.youtube, YouTubeRow, y.kept[i]);
      var b := RowConverted(PerKeyword(keywords), routes.youtube, YouTubeRow, y.kept[j]);
      YouTubeRowKeys(a, b);
    }
  }

  /** The tasks of a plan, their batches appended in plan order. */
  method Collect(plan: seq<Query>, fetch: Fetch) returns (rows: seq<Tagged>)
    ensures rows == Rows(plan, fetch)
  {
    var task := TaskRows(fetch);
    rows := [];
    for i := 0 to |plan|
      invariant rows == FlatMap(plan[..i], task)
    {
      FlatMapSnoc(plan, task, i);
      rows := rows + task(plan[i], i);
    }
    assert plan[..|plan|] == plan;
  }

  /** `scanNaver` */
  method ScanNaver(keywords: seq<string>, fetch: Fetch) returns (r: PlatformRun)
    ensures r == NaverRun(keywords, fetch)
  {
    var rows := Collect(NaverPlan(keywords), fetch);
    var kept := Dedup(Filter(rows, Relevant(keywords)), LinkOf, {});
    r := PlatformRun(rows, kept);
  }

  /** `scanCafe` */
  method ScanCafe(keywords: seq<string>, fetch: Fetch) returns (r: PlatformRun)
    ensures r == CafeRun(keywords, fetch)
  {
    var rows := Collect(PerKeyword(keywords), fetch);
    var kept := Dedup(rows, LinkOf, {""});
    r := PlatformRun(rows, kept);
  }

  /** `scanGoogle` */
  method ScanGoogle(keywords: seq<string>, fetch: Fetch) returns (r: PlatformRun)
    ensures r == GoogleRun(keywords, fetch)
  {
    var rows := Collect(GooglePlan(keywords), fetch);
    var kept := Dedup(rows, LinkOf, {});
    r := PlatformRun(rows, kept);
  }

  /** `scanYouTube` */
  method ScanYouTube(keywords: seq<string>, fetch: Fetch) returns (r: PlatformRun)
    ensures r == YouTubeRun(keywords, fetch)
  {
    var rows := Collect(PerKeyword(keywords), fetch);
    var kept := Dedup(rows, LinkOf, {});
    r := PlatformRun(rows, kept);
  }

  // ---------------------------------------------------------------------
  // Combining the platforms

  /** The rows searched for `kw`. */
  function ForKeyword(kw: string): Tagged -> bool
  {
    (t: Tagged) => t.searchKeyword == kw
  }

  /** `grouped`: each keyword's rows. */
  function Grouped(keywords: seq<string>, items: seq<Tagged>): (r: map<string, seq<Tagged>>)
    ensures r.Keys == set kw | kw in keywords
  {
    map kw | kw in keywords :: Filter(items, ForKeyword(kw))
  }

  /** Each keyword's group holds exactly the rows searched for it; so
      every row searched for a keyword lies in that keyword's group and in
      no other. */
  lemma GroupedSpec(keywords: seq<string>, items: seq<Tagged>, kw: string, t: Tagged)
    requires kw in keywords
    ensures t in Grouped(keywords, items)[kw] <==> t in items && t.searchKeyword == kw
  {
    FilterMembers(items, ForKeyword(kw), t);
  }

  /** The groups grow one keyword at a time. */
  lemma GroupedStep(keywords: seq<string>, items: seq<Tagged>, i: nat)
    requires i < |keywords|
    ensures Grouped(keywords[..i + 1], items)
      == Grouped(keywords[..i], items)[keywords[i] := Filter(items, ForKeyword(keywords[i]))]
  {
    assert keywords[..i + 1] == keywords[..i] + [keywords[i]];
  }

  /** The grouping loop. */
  method Group(keywords: seq<string>, items: seq<Tagged>) returns (grouped: map<string, seq<Tagged>>)
    ensures grouped == Grouped(keywords, items)
  {
    grouped := map[];
    for i := 0 to |keywords|
      invariant grouped == Grouped(keywords[..i], items)
    {
      GroupedStep(keywords, items, i);
      grouped := grouped[keywords[i] := Filter(items, ForKeyword(keywords[i]))];
    }
    assert keywords[..|keywords|] == keywords;
  }

  /** The four platforms' results, as `Promise.all` hands them back. */
  datatype Runs = Runs(naver: PlatformRun, cafe: PlatformRun, google: PlatformRun, youtube: PlatformRun)

  /** The run of a platform, by its key in `platformStates`. */
  function RunOf(platform: Platform, keywords: seq<string>, routes: Routes): PlatformRun
  {
    match platform
    case NaverBlogs => NaverRun(keywords, BlogFetch(routes))
    case NaverCafes => CafeRun(keywords, CafeFetch(routes))
    case GoogleWeb => GoogleRun(keywords, GoogleFetch(routes))
    case YouTubeVideos => YouTubeRun(keywords, YouTubeFetch(routes))
  }

  /** What the four scans of `keywords` return. */
  function RunsFor(keywords: seq<string>, routes: Routes): Runs
  {
    Runs(RunOf(NaverBlogs, keywords, routes), RunOf(NaverCafes, keywords, routes),
         RunOf(GoogleWeb, keywords, routes), RunOf(YouTubeVideos, keywords, routes))
  }

  /** Each platform's part of the results is its own run. */
  lemma RunsForParts(keywords: seq<string>, routes: Routes)
    ensures RunsFor(keywords, routes).naver == NaverRun(keywords, BlogFetch(routes))
    ensures RunsFor(keywords, routes).cafe == CafeRun(keywords, CafeFetch(routes))
    ensures RunsFor(keywords, routes).google == GoogleRun(keywords, GoogleFetch(routes))
    ensures RunsFor(keywords, routes).youtube == YouTubeRun(keywords, YouTubeFetch(routes))
  {
  }

  /** `[...naverResults, ...cafeResults, ...googleResults, ...youtubeResults]` */
  function Joined(runs: Runs): seq<Tagged>
  {
    runs.naver.kept + runs.cafe.kept + runs.google.kept + runs.youtube.kept
  }

  /** The scan's final list: the platforms' rows once per link. */
  function Scanned(runs: Runs): seq<Tagged>
  {
    DedupBy(Joined(runs), LinkOf)
  }

  /** The scan's final list holds every link any platform kept, once, and
      each of its rows lies in its own keyword's group. */
  lemma ScannedSpec(keywords: seq<string>, routes: Routes)
    ensures var runs := RunsFor(keywords, routes);
      && DistinctKeys(Scanned(runs), LinkOf)
      && Keys(Scanned(runs), LinkOf) == Keys(Joined(runs), LinkOf)
      && forall t :: t in Scanned(runs) ==>
        t.searchKeyword in keywords && t in Grouped(keywords, Scanned(runs))[t.searchKeyword]
  {
    var runs := RunsFor(keywords, routes);
    var joined := Joined(runs);
    var all := Scanned(runs);
    DedupDistinct(joined, LinkOf, {});
    DedupKeys(joined, LinkOf, {});
    RunsBelong(keywords, routes);
    RunsForParts(keywords, routes);
    forall t | t in all ensures t.searchKeyword in keywords && t in Grouped(keywords, all)[t.searchKeyword] {
      SubseqMember(all, joined, t);
      GroupedSpec(keywords, all, t.searchKeyword, t);
    }
  }

  /** The name in a platform's start message. */
  function StartName(platform: Platform): string
  {
    match platform
    case NaverBlogs => "블로그"
    case NaverCafes => "카페"
    case GoogleWeb => "Google"
    case YouTubeVideos => "YouTube"
  }

  /** A finished platform's state: done, with its row count and its kept
      count. */
  function DoneState(r: PlatformRun): ScanState
  {
    Apply(Preparing, DonePatch(|r.rows|, |r.kept|))
  }

  /** The platform states, one per platform. */
  function Reported(naver: ScanState, cafe: ScanState, google: ScanState, youtube: ScanState): map<Platform, ScanState>
  {
    map[NaverBlogs := naver, NaverCafes := cafe, GoogleWeb := google, YouTubeVideos := youtube]
  }

  /** Every platform's state when a scan starts. */
  function Reset(): map<Platform, ScanState>
  {
    map[NaverBlogs := Preparing, NaverCafes := Preparing, GoogleWeb := Preparing, YouTubeVideos := Preparing]
  }

  /** The platform states a finished scan leaves. */
  function FinalStates(runs: Runs): map<Platform, ScanState>
  {
    Reported(DoneState(runs.naver), DoneState(runs.cafe), DoneState(runs.google), DoneState(runs.youtube))
  }

  /** A finished patch sets every field, so the state before it does not
      matter. */
  lemma DoneStateAfter(t: ScanState, r: PlatformRun)
    ensures Apply(t, DonePatch(|r.rows|, |r.kept|)) == DoneState(r)
  {
  }

  /** The reset states with each platform's state written in. */
  lemma ReportedBuilt(a: ScanState, b: ScanState, c: ScanState, d: ScanState)
    ensures Reset()[NaverBlogs := a][NaverCafes := b][GoogleWeb := c][YouTubeVideos := d]
      == Reported(a, b, c, d)
  {
  }

  /** After a scan every platform has a state, and each shows a full bar,
      the rows it collected and the rows it kept. */
  lemma FinalStatesSpec(n: PlatformRun, c: PlatformRun, g: PlatformRun, y: PlatformRun, p: Platform)
    ensures var states := Reported(DoneState(n), DoneState(c), DoneState(g), DoneState(y));
      var r := match p case NaverBlogs => n case NaverCafes => c case GoogleWeb => g case YouTubeVideos => y;
      && p in states && Progress(states[p]) == 100
      && states[p].collected == |r.rows| && states[p].filtered == |r.kept|
      && states[p].message == DoneMessage(|r.kept|)
  {
  }

  /** Every platform has a state. */
  predicate Complete(states: map<Platform, ScanState>)
  {
    NaverBlogs in states && NaverCafes in states && GoogleWeb in states && YouTubeVideos in states
  }

  lemma CompleteHas(states: map<Platform, ScanState>, p: Platform)
    requires Complete(states)
    ensures p in states
  {
  }

  /** The states after `updatePlatform(platform, patch)`. */
  function Updated(states: map<Platform, ScanState>, platform: Platform, patch: Patch): (r: map<Platform, ScanState>)
    requires platform in states
    ensures r.Keys == states.Keys
  {
    states[platform := Apply(states[platform], patch)]
  }

  /** A patch changes only its platform's state, and only the fields it
      sets. */
  lemma UpdatedSpec(states: map<Platform, ScanState>, platform: Platform, patch: Patch, p: Platform)
    requires platform in states && p in states
    ensures p != platform ==> Updated(states, platform, patch)[p] == states[p]
    ensures patch.status.None? ==> Updated(states, platform, patch)[p].status == states[p].status
    ensures patch.collected.None? ==> Updated(states, platform, patch)[p].collected == states[p].collected
    ensures patch.message.Some? && p == platform ==> Updated(states, platform, patch)[p].message == patch.message.value
  {
  }

  /** A second write of a platform's state replaces the first. */
  lemma OverwriteState(states: map<Platform, ScanState>, p: Platform, a: ScanState, b: ScanState)
    ensures states[p := a][p := b] == states[p := b]
  {
    assert states[p := a][p := b].Keys == states[p := b].Keys;
  }

  /** One platform's scan: its state starts scanning, the platform is
      scanned, and its state ends done with the counts. */
  method ScanPlatform(states: map<Platform, ScanState>, platform: Platform, keywords: seq<string>, routes: Routes)
    returns (r: PlatformRun, after: map<Platform, ScanState>)
    requires platform in states
    ensures r == RunOf(platform, keywords, routes)
    ensures after == states[platform := DoneState(r)]
  {
    var started := Updated(states, platform, StartPatch(StartName(platform)));
    match platform {
      case NaverBlogs => r := ScanNaver(keywords, BlogFetch(routes));
      case NaverCafes => r := ScanCafe(keywords, CafeFetch(routes));
      case GoogleWeb => r := ScanGoogle(keywords, GoogleFetch(routes));
      case YouTubeVideos => r := ScanYouTube(keywords, YouTubeFetch(routes));
    }
    DoneStateAfter(started[platform], r);
    after := Updated(started, platform, DonePatch(|r.rows|, |r.kept|));
    OverwriteState(states, platform, started[platform], DoneState(r));
  }

  /** `Promise.all` over the four platforms after every platform's state is
      reset, then the union once per link. */
  method ScanAll(keywords: seq<string>, routes: Routes) returns (all: seq<Tagged>, states: map<Platform, ScanState>)
    ensures all == Scanned(RunsFor(keywords, routes))
    ensures states == FinalStates(RunsFor(keywords, routes))
  {
    states := Reset();
    var n, c, g, y;
    n, states := ScanPlatform(states, NaverBlogs, keywords, routes);
    c, states := ScanPlatform(states, NaverCafes, keywords, routes);
    g, states := ScanPlatform(states, GoogleWeb, keywords, routes);
    y, states := ScanPlatform(states, YouTubeVideos, keywords, routes);
    ReportedBuilt(DoneState(n), DoneState(c), DoneState(g), DoneState(y));
    all := Dedup(Joined(Runs(n, c, g, y)), LinkOf, {});
  }

  // ---------------------------------------------------------------------
  // The component

  class Scanner {
    var searchQuery: string
    var recentSearches: seq<string>
    var scanComplete: bool
    var searchedKeywords: seq<string>
    /** `itemsByKeyword` */
    var groups: map<string, seq<Tagged>>
    var activeKeyword: string
    var activeFilters: seq<string>
    var platformStates: map<Platform, ScanState>

    /** Every platform has a state. */
    ghost predicate Valid()
      reads this
    {
      Complete(platformStates)
    }

    constructor()
      ensures Valid()
      ensures searchQuery == "" && recentSearches == [] && !scanComplete && searchedKeywords == []
      ensures groups == map[] && activeKeyword == "" && activeFilters == AllCategories
      ensures platformStates == Reported(Waiting, Waiting, Waiting, Waiting)
    {
      searchQuery := "";
      recentSearches := [];
      scanComplete := false;
      searchedKeywords := [];
      groups := map[];
      activeKeyword := "";
      activeFilters := AllCategories;
      platformStates := Reported(Waiting, Waiting, Waiting, Waiting);
    }

    /** The mount effect: the saved list, when there is one. */
    method LoadRecent(stored: Option<seq<string>>)
      modifies this`recentSearches
      ensures recentSearches == if stored.Some? then stored.value else old(recentSearches)
    {
      if stored.Some? {
        recentSearches := stored.value;
      }
    }

    /** `saveRecentSearch(queries)` */
    method SaveRecentSearch(queries: seq<string>)
      modifies this`recentSearches
      ensures recentSearches == Take(FrontAll(old(recentSearches), queries), MaxRecent)
    {
      recentSearches := SaveAll(recentSearches, queries, MaxRecent);
    }

    /** `removeRecentSearch(query)` */
    method RemoveRecentSearch(query: string)
      modifies this`recentSearches
      ensures recentSearches == Without(old(recentSearches), query)
    {
      recentSearches := Without(recentSearches, query);
    }

    /** `updatePlatform(platform, patch)`: the platform's state takes the
        patch's fields, the other platforms keep theirs. */
    method UpdatePlatform(platform: Platform, patch: Patch)
      requires Valid()
      modifies this`platformStates
      ensures Valid()
      ensures platformStates == Updated(old(platformStates), platform, patch)
    {
      CompleteHas(platformStates, platform);
      platformStates := Updated(platformStates, platform, patch);
    }

    /** `handleScan(query)`: `keywords` are the keywords scanned and
        `collected` what is handed to `onItemsCollected` (None when it is
        not called). A blank input, or one with nothing between its
        commas, starts no scan. */
    method HandleScan(query: Option<string>, routes: Routes, hasListener: bool)
      returns (keywords: seq<string>, collected: Option<seq<Tagged>>)
      requires Valid()
      modifies this`recentSearches, this`scanComplete, this`groups, this`searchedKeywords,
        this`activeKeyword, this`activeFilters, this`platformStates
      ensures Valid()
      ensures keywords == SplitKeywords(if query.Some? && query.value != "" then query.value else old(searchQuery))
      ensures keywords == [] ==>
        && collected.None? && recentSearches == old(recentSearches) && scanComplete == old(scanComplete)
        && groups == old(groups) && searchedKeywords == old(searchedKeywords)
        && activeKeyword == old(activeKeyword) && activeFilters == old(activeFilters)
        && platformStates == old(platformStates)
      ensures keywords != [] ==>
        && recentSearches == Take(FrontAll(old(recentSearches), keywords), MaxRecent)
        && scanComplete && searchedKeywords == keywords && activeKeyword == keywords[0]
        && activeFilters == AllCategories
        && groups == Grouped(keywords, Scanned(RunsFor(keywords, routes)))
        && platformStates == FinalStates(RunsFor(keywords, routes))
        && collected == (if hasListener then Some(Scanned(RunsFor(keywords, routes))) else None)
    {
      var terms := if query.Some? && query.value != "" then query.value else searchQuery;
      if Trim(terms) == "" {
        SplitKeywordsBlank(terms);
        keywords := [];
        collected := None;
        return;
      }
      keywords := SplitKeywords(terms);
      if keywords == [] {
        collected := None;
        return;
      }
      SaveRecentSearch(keywords);
      collected := Run(keywords, routes, hasListener);
    }

    /** The scan itself, once there are keywords: the four platforms are
        scanned, the union is grouped, and the results replace the previous
        scan's, the first keyword active and every category selected. */
    method Run(keywords: seq<string>, routes: Routes, hasListener: bool) returns (collected: Option<seq<Tagged>>)
      requires keywords != []
      modifies this`scanComplete, this`groups, this`searchedKeywords, this`activeKeyword,
        this`activeFilters, this`platformStates
      ensures Valid()
      ensures scanComplete && searchedKeywords == keywords && activeKeyword == keywords[0]
      ensures activeFilters == AllCategories
      ensures groups == Grouped(keywords, Scanned(RunsFor(keywords, routes)))
      ensures platformStates == FinalStates(RunsFor(keywords, routes))
      ensures collected == if hasListener then Some(Scanned(RunsFor(keywords, routes))) else None
    {
      var all, states := ScanAll(keywords, routes);
      collected := Publish(keywords, all, states, hasListener);
    }

    /** The scan's end: the grouped rows, the keywords, the platform
        states and the handed-over rows replace the previous scan's. */
    method Publish(keywords: seq<string>, all: seq<Tagged>, states: map<Platform, ScanState>, hasListener: bool)
      returns (collected: Option<seq<Tagged>>)
      requires keywords != [] && Complete(states)
      modifies this`scanComplete, this`groups, this`searchedKeywords, this`activeKeyword,
        this`activeFilters, this`platformStates
      ensures Valid()
      ensures scanComplete && searchedKeywords == keywords && activeKeyword == keywords[0]
      ensures activeFilters == AllCategories
      ensures groups == Grouped(keywords, all) && platformStates == states
      ensures collected == if hasListener then Some(all) else None
    {
      scanComplete := false;
      groups := map[];
      searchedKeywords := keywords;
      activeKeyword := keywords[0];
      activeFilters := AllCategories;
      platformStates := states;
      groups := Group(keywords, all);
      collected := if hasListener then Some(all) else None;
      scanComplete := true;
    }

    /** `currentItems`: the active keyword's rows. */
    function CurrentItems(): seq<Tagged>
      reads this
    {
      if activeKeyword in groups then groups[activeKeyword] else []
    }
  }

  /** The summary counts of a keyword's rows (`blogCount`, `cafeCount`,
      `googleCount`, `youtubeCount`). */
  predicate IsBlog(t: Tagged)
  {
    t.item.source == Naver && t.item.kind == Blog
  }

  predicate IsCafe(t: Tagged)
  {
    t.item.source == Naver && t.item.kind == Cafe
  }

  predicate IsGoogle(t: Tagged)
  {
    t.item.source == Google
  }

  predicate IsYouTube(t: Tagged)
  {
    t.item.source == YouTube
  }

  /** A row one of the four counts includes. */
  predicate Counted(t: Tagged)
  {
    IsBlog(t) || IsCafe(t) || IsGoogle(t) || IsYouTube(t)
  }

  function BlogCount(items: seq<Tagged>): nat
  {
    Count(items, IsBlog)
  }

  function CafeCount(items: seq<Tagged>): nat
  {
    Count(items, IsCafe)
  }

  function GoogleCount(items: seq<Tagged>): nat
  {
    Count(items, IsGoogle)
  }

  function YouTubeCount(items: seq<Tagged>): nat
  {
    Count(items, IsYouTube)
  }

  /** No row is counted twice: the four summary counts add up to the
      number of rows that are a blog, cafe, Google or YouTube row. */
  lemma {:induction false} CountsSplit(items: seq<Tagged>)
    ensures BlogCount(items) + CafeCount(items) + GoogleCount(items) + YouTubeCount(items) == Count(items, Counted)
  {
    if items != [] {
      CountsSplit(items[1..]);
      CountCons(items, IsBlog);
      CountCons(items, IsCafe);
      CountCons(items, IsGoogle);
      CountCons(items, IsYouTube);
      CountCons(items, Counted);
    }
  }

  /** The four summary counts together never exceed the keyword's rows,
      and reach them exactly when every row is a blog, cafe, Google or
      YouTube row. */
  lemma CountsWithin(items: seq<Tagged>)
    ensures BlogCount(items) + CafeCount(items) + GoogleCount(items) + YouTubeCount(items) <= |items|
    ensures BlogCount(items) + CafeCount(items) + GoogleCount(items) + YouTubeCount(items) == |items|
      <==> forall i :: 0 <= i < |items| ==> Counted(items[i])
  {
    CountsSplit(items);
    CountFull(items, Counted);
  }
}
