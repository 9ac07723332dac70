/** The Google search route (app/api/google/search/route.ts): it reads
    `keyword`, `start` and `num`, asks SerpAPI for one page of Korean Google
    results, and flattens the answer box, the organic results with their
    sitelinks, the knowledge-graph profiles, the top stories and the inline
    images into one list of items, keeping the first item seen per link. */
module GoogleSearch {
  import opened Wrappers
  import opened Text
  import opened Seqs
  import NaverSearch

  datatype ItemKind = AnswerBox | Organic | Sitelink | Profile | TopStory | InlineImage

  /** A result row; `source` is always "google" and `type` always "web". */
  datatype GoogleItem = GoogleItem(
    id: string, kind: ItemKind, title: string, content: string,
    author: string, link: string, publishedAt: string)

  // The SerpAPI body. A field that is absent, null or not a string is
  // `None`; a list field that is absent or not an array is `[]`.

  datatype SerpAnswer = SerpAnswer(
    title: Option<string>, link: Option<string>, snippet: Option<string>,
    answer: Option<string>, source: Option<string>, date: Option<string>)

  datatype SerpSitelink = SerpSitelink(title: Option<string>, link: Option<string>)

  datatype SerpOrganic = SerpOrganic(
    position: Option<int>, title: Option<string>, link: Option<string>,
    snippet: Option<string>, source: Option<string>, displayedLink: Option<string>,
    date: Option<string>, inline: seq<SerpSitelink>, expanded: seq<SerpSitelink>)

  datatype SerpProfile = SerpProfile(name: Option<string>, link: Option<string>)

  /** `knowledge_graph`; `profiles` is `None` unless it is an array. */
  datatype SerpGraph = SerpGraph(title: Option<string>, profiles: Option<seq<SerpProfile>>)

  datatype SerpStory = SerpStory(
    title: Option<string>, link: Option<string>, source: Option<string>, date: Option<string>)

  /** One value of a `top_stories` object. */
  datatype StoryValue = StoryArray(stories: seq<SerpStory>) | NotArray

  /** `top_stories`: an array, an object (its values in order), or anything
      else. */
  datatype TopStories = StoryList(list: seq<SerpStory>) | StoryObject(values: seq<StoryValue>) | NoStories

  datatype SerpImage = SerpImage(source: Option<string>, link: Option<string>)

  datatype SerpData = SerpData(
    answerBox: Option<SerpAnswer>, organic: seq<SerpOrganic>, graph: Option<SerpGraph>,
    topStories: TopStories, images: seq<SerpImage>)

  /** `safeHost` (the host name of a URL, "" when it does not parse) and
      `parseSerpDate` (which reads the clock), both given. */
  datatype Env = Env(host: string -> string, serpDate: Option<string> -> string)

  /** The upstream request; engine, domain, country, language, location,
      device and `filter=0` are constants of the route. */
  datatype SerpRequest = SerpRequest(q: string, apiKey: string, num: int, start: int)

  datatype Upstream =
    | Serp(data: SerpData)
    | HttpError(status: int, body: string)
    | Thrown(message: string)

  datatype Response =
    | Found(total: int, items: seq<GoogleItem>, start: int, num: int)
    | Refused(status: int, error: string)

  const KeywordRequired := "keyword 파라미터가 필요합니다."
  const KeyMissing := "GOOGLE_API_KEY(SerpAPI key)가 설정되지 않았습니다."


  // ---------------------------------------------------------------------
  // Parameters

  /** `parseInt(param || "d", 10) || d`: an absent or empty parameter reads
      the default, and NaN or 0 fall back to it as well. */
  function NumberOr(param: Option<string>, d: nat): (r: int)
    ensures var n := ParseInt(OrElse(param, NatToString(d)));
      if n.Some? && n.value != 0 then r == n.value else r == d
  {
    var n := ParseInt(OrElse(param, NatToString(d)));
    if n.None? || n.value == 0 then d else n.value
  }

  /** `Math.max(0, …)`: the result offset. */
  function StartOf(param: Option<string>): (r: int)
    ensures r >= 0
  {
    NaverSearch.Max(0, NumberOr(param, 0))
  }

  /** `Math.min(100, Math.max(5, …))`: the page size. */
  function NumOf(param: Option<string>): (r: int)
    ensures 5 <= r <= 100
  {
    NaverSearch.Min(100, NaverSearch.Max(5, NumberOr(param, 10)))
  }

  /** A missing, empty or non-numeric parameter gives the defaults: offset
      0 and page size 10. */
  lemma ParamDefaults(param: Option<string>)
    requires OrElse(param, "") == "" || ParseInt(param.value).None?
    ensures StartOf(param) == 0 && NumOf(param) == 10
  {
    NumberOrDefault(param, 0);
    NumberOrDefault(param, 10);
  }

  lemma NumberOrDefault(param: Option<string>, d: nat)
    requires OrElse(param, "") == "" || ParseInt(param.value).None?
    ensures NumberOr(param, d) == d
  {
    ParseIntRoundTrip(d);
  }

  /** A number is taken as the offset as is; as the page size it is moved
      into [5, 100], except that 0 reads as the default 10. */
  lemma ParamNumber(n: nat)
    ensures StartOf(Some(NatToString(n))) == n
    ensures NumOf(Some(NatToString(n))) == if n == 0 then 10 else if n < 5 then 5 else if n > 100 then 100 else n
  {
    ParseIntRoundTrip(n);
  }

  /** A negative number gives offset 0 and page size 5. */
  lemma ParamNegative(param: Option<string>)
    requires param.Some? && ParseInt(param.value).Some? && ParseInt(param.value).value < 0
    ensures StartOf(param) == 0 && NumOf(param) == 5
  {
    var s := param.value;
    assert s != "" by {
      assert TrimStart("") == "";
    }
    assert OrElse(param, NatToString(0)) == s;
    assert OrElse(param, NatToString(10)) == s;
    var n := ParseInt(s).value;
    assert NumberOr(param, 0) == n;
    assert NumberOr(param, 10) == n;
  }

  // ---------------------------------------------------------------------
  // The candidate items, section by section, in the order they are pushed

  function LinkOf(it: GoogleItem): string
  {
    it.link
  }

  /** `data.answer_box?.link || data.answer_box?.snippet` */
  predicate AnswerShown(ab: Option<SerpAnswer>)
  {
    ab.Some? && (OrElse(ab.value.link, "") != "" || OrElse(ab.value.snippet, "") != "")
  }

  function AnswerItem(kw: string, ab: SerpAnswer, env: Env): GoogleItem
  {
    var link := OrElse(ab.link, "");
    GoogleItem("google-" + kw + "-answer-" + link, AnswerBox,
      OrElse(ab.title, "Answer Box"), OrElse(ab.snippet, OrElse(ab.answer, "")),
      OrElse(ab.source, env.host(link)), link, env.serpDate(ab.date))
  }

  function AnswerSection(kw: string, ab: Option<SerpAnswer>, env: Env): seq<GoogleItem>
  {
    if AnswerShown(ab) then [AnswerItem(kw, ab.value, env)] else []
  }

  /** `r.position ?? idx` as printed in an id. */
  function Position(r: SerpOrganic, idx: nat): string
  {
    IntToString(if r.position.Some? then r.position.value else idx)
  }

  /** `r.source || r.displayed_link || safeHost(link)`, shared by the
      organic result and its sitelinks. */
  function OrganicAuthor(r: SerpOrganic, env: Env): string
  {
    OrElse(r.source, OrElse(r.displayedLink, env.host(OrElse(r.link, ""))))
  }

  function OrganicItem(kw: string, r: SerpOrganic, idx: nat, env: Env): GoogleItem
  {
    var link := OrElse(r.link, "");
    GoogleItem("google-" + kw + "-org-" + Position(r, idx) + "-" + link, Organic,
      OrElse(r.title, ""), OrElse(r.snippet, ""), OrganicAuthor(r, env), link, env.serpDate(r.date))
  }

  /** The inline sitelinks, then the expanded ones. */
  function Sitelinks(r: SerpOrganic): seq<SerpSitelink>
  {
    r.inline + r.expanded
  }

  function SitelinkItem(kw: string, r: SerpOrganic, idx: nat, sl: SerpSitelink, i: nat, env: Env): GoogleItem
  {
    var slink := OrElse(sl.link, "");
    GoogleItem("google-" + kw + "-sl-" + Position(r, idx) + "-" + NatToString(i) + "-" + slink, Sitelink,
      "↳ " + OrElse(sl.title, "사이트링크"), "", OrganicAuthor(r, env), slink, "")
  }

  /** A sitelink without a link is skipped before `push`. */
  function SitelinkStep(kw: string, r: SerpOrganic, idx: nat, env: Env): (SerpSitelink, nat) -> seq<GoogleItem>
  {
    (sl: SerpSitelink, i: nat) => if OrElse(sl.link, "") == "" then [] else [SitelinkItem(kw, r, idx, sl, i, env)]
  }

  /** An organic result followed by its sitelinks. */
  function OrganicGroup(kw: string, r: SerpOrganic, idx: nat, env: Env): seq<GoogleItem>
  {
    [OrganicItem(kw, r, idx, env)] + FlatMap(Sitelinks(r), SitelinkStep(kw, r, idx, env))
  }

  function OrganicStep(kw: string, env: Env): (SerpOrganic, nat) -> seq<GoogleItem>
  {
    (r: SerpOrganic, idx: nat) => OrganicGroup(kw, r, idx, env)
  }

  function ProfileItem(kw: string, graphTitle: Option<string>, p: SerpProfile, idx: nat): GoogleItem
  {
    var link := OrElse(p.link, "");
    GoogleItem("google-" + kw + "-profile-" + NatToString(idx) + "-" + link, Profile,
      if OrElse(p.name, "") != "" then "프로필: " + p.name.value else "프로필",
      if OrElse(graphTitle, "") != "" then graphTitle.value + " 관련 프로필" else "",
      "Knowledge Graph", link, "")
  }

  function ProfileStep(kw: string, graphTitle: Option<string>): (SerpProfile, nat) -> seq<GoogleItem>
  {
    (p: SerpProfile, idx: nat) => if OrElse(p.link, "") == "" then [] else [ProfileItem(kw, graphTitle, p, idx)]
  }

  /** `kg?.profiles && Array.isArray(kg.profiles)` */
  function Profiles(g: Option<SerpGraph>): seq<SerpProfile>
  {
    if g.Some? && g.value.profiles.Some? then g.value.profiles.value else []
  }

  function GraphTitle(g: Option<SerpGraph>): Option<string>
  {
    if g.Some? then g.value.title else None
  }

  /** The array values of a `top_stories` object. */
  function ArrayPart(v: StoryValue, i: nat): seq<SerpStory>
  {
    if v.StoryArray? then v.stories else []
  }

  /** `top_stories` as an array: an array is taken whole, an object
      contributes the concatenation of its array values, anything else
      nothing. */
  function Stories(t: TopStories): seq<SerpStory>
  {
    match t
    case StoryList(list) => list
    case StoryObject(values) => FlatMap(values, ArrayPart)
    case NoStories => []
  }

  /** A story of an object comes from one of its array values, and every
      story of every array value is there. */
  lemma StoriesMember(values: seq<StoryValue>, s: SerpStory)
    ensures s in Stories(StoryObject(values)) <==>
      exists i :: 0 <= i < |values| && values[i].StoryArray? && s in values[i].stories
  {
    FlatMapMember(values, ArrayPart, s);
  }

  function StoryItem(kw: string, t: SerpStory, idx: nat, env: Env): GoogleItem
  {
    var link := OrElse(t.link, "");
    GoogleItem("google-" + kw + "-top-" + NatToString(idx) + "-" + link, TopStory,
      OrElse(t.title, "Top Story"), "", OrElse(t.source, env.host(link)), link, env.serpDate(t.date))
  }

  function StoryStep(kw: string, env: Env): (SerpStory, nat) -> seq<GoogleItem>
  {
    (t: SerpStory, idx: nat) => if OrElse(t.link, "") == "" then [] else [StoryItem(kw, t, idx, env)]
  }

  /** `img.source || img.link || ""` */
  function ImageLink(img: SerpImage): string
  {
    OrElse(img.source, OrElse(img.link, ""))
  }

  function ImageItem(kw: string, img: SerpImage, idx: nat, env: Env): GoogleItem
  {
    var link := ImageLink(img);
    var host := env.host(OrElse(img.source, ""));
    GoogleItem("google-" + kw + "-img-" + NatToString(idx) + "-" + link, InlineImage,
      "이미지 결과", "", if host == "" then "Inline Images" else host, link, "")
  }

  function ImageStep(kw: string, env: Env): (SerpImage, nat) -> seq<GoogleItem>
  {
    (img: SerpImage, idx: nat) => if ImageLink(img) == "" then [] else [ImageItem(kw, img, idx, env)]
  }

  function OrganicSection(kw: string, d: SerpData, env: Env): seq<GoogleItem>
  {
    FlatMap(d.organic, OrganicStep(kw, env))
  }

  function ProfileSection(kw: string, d: SerpData): seq<GoogleItem>
  {
    FlatMap(Profiles(d.graph), ProfileStep(kw, GraphTitle(d.graph)))
  }

  function StorySection(kw: string, d: SerpData, env: Env): seq<GoogleItem>
  {
    FlatMap(Stories(d.topStories), StoryStep(kw, env))
  }

  function ImageSection(kw: string, d: SerpData, env: Env): seq<GoogleItem>
  {
    FlatMap(d.images, ImageStep(kw, env))
  }

  /** Everything handed to `push`, in order. */
  function Candidates(kw: string, d: SerpData, env: Env): seq<GoogleItem>
  {
    AnswerSection(kw, d.answerBox, env) + OrganicSection(kw, d, env) + ProfileSection(kw, d)
    + StorySection(kw, d, env) + ImageSection(kw, d, env)
  }

  /** What `push` keeps: items with a link not seen before. */
  function Items(kw: string, d: SerpData, env: Env): seq<GoogleItem>
  {
    DedupFrom(Candidates(kw, d, env), LinkOf, {""})
  }

  // ---------------------------------------------------------------------
  // `items` and `seen`, and the route

  /** The `items` list and the `seen` set that `push` updates. `pushed`
      records every item handed to `push`. */
  class Collector {
    var items: seq<GoogleItem>
    var seen: set<string>
    ghost var pushed: seq<GoogleItem>

    ghost predicate Valid()
      reads this
    {
      items == DedupFrom(pushed, LinkOf, {""}) && seen == Keys(pushed, LinkOf) - {""}
    }

    constructor()
      ensures Valid() && pushed == [] && items == [] && seen == {}
    {
      items := [];
      seen := {};
      pushed := [];
    }

    /** `push(it)`: an empty or already seen link is ignored; otherwise
        the link is remembered and the item appended. */
    method Push(it: GoogleItem)
      requires Valid()
      modifies this
      ensures Valid() && pushed == old(pushed) + [it]
      ensures items == old(items) + (if it.link == "" || it.link in old(seen) then [] else [it])
      ensures seen == old(seen) + (if it.link == "" then {} else {it.link})
    {
      DedupSnoc(pushed, it, LinkOf, {""});
      KeysSnoc(pushed, it, LinkOf);
      if it.link != "" && it.link !in seen {
        seen := seen + {it.link};
        items := items + [it];
      }
      pushed := pushed + [it];
    }
  }

  /** `organicResults.forEach(...)`: each result, then its sitelinks. */
  method PushOrganic(c: Collector, kw: string, rs: seq<SerpOrganic>, env: Env)
    requires c.Valid()
    modifies c
    ensures c.Valid() && c.pushed == old(c.pushed) + FlatMap(rs, OrganicStep(kw, env))
  {
    ghost var p0 := c.pushed;
    for idx := 0 to |rs|
      invariant c.Valid()
      invariant c.pushed == p0 + FlatMap(rs[..idx], OrganicStep(kw, env))
    {
      FlatMapSnoc(rs, OrganicStep(kw, env), idx);
      assert OrganicStep(kw, env)(rs[idx], idx) == OrganicGroup(kw, rs[idx], idx, env);
      AppendAssoc(p0, FlatMap(rs[..idx], OrganicStep(kw, env)), OrganicGroup(kw, rs[idx], idx, env));
      PushResult(c, kw, rs[idx], idx, env);
    }
    assert rs[..|rs|] == rs;
  }

  /** One organic result, then its sitelinks. */
  method PushResult(c: Collector, kw: string, r: SerpOrganic, idx: nat, env: Env)
    requires c.Valid()
    modifies c
    ensures c.Valid() && c.pushed == old(c.pushed) + OrganicGroup(kw, r, idx, env)
  {
    AppendAssoc(c.pushed, [OrganicItem(kw, r, idx, env)], FlatMap(Sitelinks(r), SitelinkStep(kw, r, idx, env)));
    c.Push(OrganicItem(kw, r, idx, env));
    PushSitelinks(c, kw, r, idx, env);
  }

  /** `sitelinks.forEach(...)` for one organic result. */
  method PushSitelinks(c: Collector, kw: string, r: SerpOrganic, idx: nat, env: Env)
    requires c.Valid()
    modifies c
    ensures c.Valid() && c.pushed == old(c.pushed) + FlatMap(Sitelinks(r), SitelinkStep(kw, r, idx, env))
  {
    ghost var p0 := c.pushed;
    var sls := Sitelinks(r);
    for i := 0 to |sls|
      invariant c.Valid()
      invariant c.pushed == p0 + FlatMap(sls[..i], SitelinkStep(kw, r, idx, env))
    {
      FlatMapSnoc(sls, SitelinkStep(kw, r, idx, env), i);
      AppendAssoc(p0, FlatMap(sls[..i], SitelinkStep(kw, r, idx, env)), SitelinkStep(kw, r, idx, env)(sls[i], i));
      PushSitelink(c, kw, r, idx, sls[i], i, env);
    }
    assert sls[..|sls|] == sls;
  }

  /** One sitelink: skipped without a link, pushed otherwise. */
  method PushSitelink(c: Collector, kw: string, r: SerpOrganic, idx: nat, sl: SerpSitelink, i: nat, env: Env)
    requires c.Valid()
    modifies c
    ensures c.Valid() && c.pushed == old(c.pushed) + SitelinkStep(kw, r, idx, env)(sl, i)
  {
    if OrElse(sl.link, "") != "" {
      c.Push(SitelinkItem(kw, r, idx, sl, i, env));
    }
  }

  /** `kg.profiles.forEach(...)` */
  method PushProfiles(c: Collector, kw: string, g: Option<SerpGraph>)
    requires c.Valid()
    modifies c
    ensures c.Valid() && c.pushed == old(c.pushed) + FlatMap(Profiles(g), ProfileStep(kw, GraphTitle(g)))
  {
    ghost var p0 := c.pushed;
    var ps := Profiles(g);
    for idx := 0 to |ps|
      invariant c.Valid()
      invariant c.pushed == p0 + FlatMap(ps[..idx], ProfileStep(kw, GraphTitle(g)))
    {
      FlatMapSnoc(ps, ProfileStep(kw, GraphTitle(g)), idx);
      AppendAssoc(p0, FlatMap(ps[..idx], ProfileStep(kw, GraphTitle(g))), ProfileStep(kw, GraphTitle(g))(ps[idx], idx));
      if OrElse(ps[idx].link, "") != "" {
        c.Push(ProfileItem(kw, GraphTitle(g), ps[idx], idx));
      }
    }
    assert ps[..|ps|] == ps;
  }

  /** `topStories.forEach(...)` */
  method PushStories(c: Collector, kw: string, ts: seq<SerpStory>, env: Env)
    requires c.Valid()
    modifies c
    ensures c.Valid() && c.pushed == old(c.pushed) + FlatMap(ts, StoryStep(kw, env))
  {
    ghost var p0 := c.pushed;
    for idx := 0 to |ts|
      invariant c.Valid()
      invariant c.pushed == p0 + FlatMap(ts[..idx], StoryStep(kw, env))
    {
      FlatMapSnoc(ts, StoryStep(kw, env), idx);
      AppendAssoc(p0, FlatMap(ts[..idx], StoryStep(kw, env)), StoryStep(kw, env)(ts[idx], idx));
      if OrElse(ts[idx].link, "") != "" {
        c.Push(StoryItem(kw, ts[idx], idx, env));
      }
    }
    assert ts[..|ts|] == ts;
  }

  /** `inlineImages.forEach(...)` */
  method PushImages(c: Collector, kw: string, ims: seq<SerpImage>, env: Env)
    requires c.Valid()
    modifies c
    ensures c.Valid() && c.pushed == old(c.pushed) + FlatMap(ims, ImageStep(kw, env))
  {
    ghost var p0 := c.pushed;
    for idx := 0 to |ims|
      invariant c.Valid()
      invariant c.pushed == p0 + FlatMap(ims[..idx], ImageStep(kw, env))
    {
      FlatMapSnoc(ims, ImageStep(kw, env), idx);
      AppendAssoc(p0, FlatMap(ims[..idx], ImageStep(kw, env)), ImageStep(kw, env)(ims[idx], idx));
      if ImageLink(ims[idx]) != "" {
        c.Push(ImageItem(kw, ims[idx], idx, env));
      }
    }
    assert ims[..|ims|] == ims;
  }

  /** The sections of the route in order, all through one `push`. */
  method Collect(kw: string, d: SerpData, env: Env) returns (items: seq<GoogleItem>)
    ensures items == Items(kw, d, env)
  {
    var c := new Collector();
    if AnswerShown(d.answerBox) {
      c.Push(AnswerItem(kw, d.answerBox.value, env));
    }
    assert c.pushed == AnswerSection(kw, d.answerBox, env);
    PushOrganic(c, kw, d.organic, env);
    PushProfiles(c, kw, d.graph);
    PushStories(c, kw, Stories(d.topStories), env);
    PushImages(c, kw, d.images, env);
    items := c.items;
  }

  /** The route: keyword first, then the key, then the upstream outcome. */
  function Respond(keyword: Option<string>, startParam: Option<string>, numParam: Option<string>,
                   apiKey: Option<string>, fetch: SerpRequest -> Upstream, env: Env): Response
  {
    var start := StartOf(startParam);
    var num := NumOf(numParam);
    if OrElse(keyword, "") == "" then Refused(400, KeywordRequired)
    else if OrElse(apiKey, "") == "" then Refused(500, KeyMissing)
    else match fetch(SerpRequest(keyword.value, apiKey.value, num, start))
      case HttpError(status, body) => Refused(status, "SerpAPI 오류: " + IntToString(status) + " " + body)
      case Thrown(message) => Refused(500, "Google(SerpAPI) 검색 실패: " + message)
      case Serp(d) =>
        var items := Items(keyword.value, d, env);
        Found(|items|, items, start, num)
  }

  method Get(keyword: Option<string>, startParam: Option<string>, numParam: Option<string>,
             apiKey: Option<string>, fetch: SerpRequest -> Upstream, env: Env) returns (r: Response)
    ensures r == Respond(keyword, startParam, numParam, apiKey, fetch, env)
  {
    var start := StartOf(startParam);
    var num := NumOf(numParam);
    if OrElse(keyword, "") == "" {
      return Refused(400, KeywordRequired);
    }
    if OrElse(apiKey, "") == "" {
      return Refused(500, KeyMissing);
    }
    var reply := fetch(SerpRequest(keyword.value, apiKey.value, num, start));
    match reply {
      case HttpError(status, body) =>
        r := Refused(status, "SerpAPI 오류: " + IntToString(status) + " " + body);
      case Thrown(message) =>
        r := Refused(500, "Google(SerpAPI) 검색 실패: " + message);
      case Serp(d) =>
        var items := Collect(keyword.value, d, env);
        r := Found(|items|, items, start, num);
    }
  }

  // ---------------------------------------------------------------------
  // Properties

  /** The section of a kind: answer box, organic results with their
      sitelinks, profiles, top stories, inline images. */
  function Rank(it: GoogleItem): int
  {
    match it.kind
    case AnswerBox => 0
    case Organic => 1
    case Sitelink => 1
    case Profile => 2
    case TopStory => 3
    case InlineImage => 4
  }

  function RankIs(k: int): GoogleItem -> bool
  {
    (it: GoogleItem) => Rank(it) == k
  }

  /** Every item of the n-th section has rank n. */
  lemma SectionRanks(kw: string, d: SerpData, env: Env)
    ensures forall y :: y in AnswerSection(kw, d.answerBox, env) ==> Rank(y) == 0
    ensures forall y :: y in OrganicSection(kw, d, env) ==> Rank(y) == 1
    ensures forall y :: y in ProfileSection(kw, d) ==> Rank(y) == 2
    ensures forall y :: y in StorySection(kw, d, env) ==> Rank(y) == 3
    ensures forall y :: y in ImageSection(kw, d, env) ==> Rank(y) == 4
  {
    forall i | 0 <= i < |d.organic|
      ensures forall y :: y in OrganicStep(kw, env)(d.organic[i], i) ==> RankIs(1)(y)
    {
      var r := d.organic[i];
      FlatMapAll(Sitelinks(r), SitelinkStep(kw, r, i, env), RankIs(1));
    }
    FlatMapAll(d.organic, OrganicStep(kw, env), RankIs(1));
    FlatMapAll(Profiles(d.graph), ProfileStep(kw, GraphTitle(d.graph)), RankIs(2));
    FlatMapAll(Stories(d.topStories), StoryStep(kw, env), RankIs(3));
    FlatMapAll(d.images, ImageStep(kw, env), RankIs(4));
  }

  /** A sequence whose items all have rank k is ordered. */
  lemma SameRank(xs: seq<GoogleItem>, k: int)
    requires forall y :: y in xs ==> Rank(y) == k
    ensures Ordered(xs, Rank)
  {
    forall i, j | 0 <= i < j < |xs| ensures Rank(xs[i]) <= Rank(xs[j]) {
      assert xs[i] in xs && xs[j] in xs;
    }
  }

  /** The candidates come section by section. */
  lemma CandidatesOrdered(kw: string, d: SerpData, env: Env)
    ensures Ordered(Candidates(kw, d, env), Rank)
  {
    var a := AnswerSection(kw, d.answerBox, env);
    var o := OrganicSection(kw, d, env);
    var p := ProfileSection(kw, d);
    var s := StorySection(kw, d, env);
    var m := ImageSection(kw, d, env);
    SectionRanks(kw, d, env);
    SameRank(a, 0);
    SameRank(o, 1);
    SameRank(p, 2);
    SameRank(s, 3);
    SameRank(m, 4);
    forall x, y | x in a + o && y in p ensures Rank(x) <= Rank(y) {
      assert x in a || x in o;
    }
    forall x, y | x in a + o + p && y in s ensures Rank(x) <= Rank(y) {
      assert x in a || x in o || x in p;
    }
    forall x, y | x in a + o + p + s && y in m ensures Rank(x) <= Rank(y) {
      assert x in a || x in o || x in p || x in s;
    }
    OrderedAppend(a, o, Rank);
    OrderedAppend(a + o, p, Rank);
    OrderedAppend(a + o + p, s, Rank);
    OrderedAppend(a + o + p + s, m, Rank);
  }

  /** The items have non-empty, pairwise distinct links; they are the
      candidates in order with the empty and repeated links dropped, and
      every non-empty candidate link is present. They come section by
      section: answer box, organic results and sitelinks, profiles, top
      stories, inline images. */
  lemma ItemsSpec(kw: string, d: SerpData, env: Env)
    ensures forall i :: 0 <= i < |Items(kw, d, env)| ==> Items(kw, d, env)[i].link != ""
    ensures DistinctKeys(Items(kw, d, env), LinkOf)
    ensures Keys(Items(kw, d, env), LinkOf) == Keys(Candidates(kw, d, env), LinkOf) - {""}
    ensures IsSubseq(Items(kw, d, env), Candidates(kw, d, env))
    ensures Ordered(Items(kw, d, env), Rank)
  {
    var xs := Items(kw, d, env);
    DedupDistinct(Candidates(kw, d, env), LinkOf, {""});
    DedupKeys(Candidates(kw, d, env), LinkOf, {""});
    forall i | 0 <= i < |xs| ensures xs[i].link != "" {
      assert LinkOf(xs[i]) in Keys(xs, LinkOf);
    }
    CandidatesOrdered(kw, d, env);
    SubseqOrdered(xs, Candidates(kw, d, env), Rank);
  }

  /** An answer box with a link is the first item. */
  lemma AnswerFirst(kw: string, d: SerpData, env: Env)
    requires d.answerBox.Some? && OrElse(d.answerBox.value.link, "") != ""
    ensures |Items(kw, d, env)| > 0 && Items(kw, d, env)[0] == AnswerItem(kw, d.answerBox.value, env)
  {
    var c := Candidates(kw, d, env);
    assert c[0] == AnswerItem(kw, d.answerBox.value, env);
  }

  /** An answer box with a snippet but no link passes the guard and is
      built, but `push` drops it: no item of the answer-box kind appears. */
  lemma SnippetOnlyAnswerDropped(kw: string, d: SerpData, env: Env)
    requires d.answerBox.Some? && OrElse(d.answerBox.value.link, "") == ""
    ensures forall i :: 0 <= i < |Items(kw, d, env)| ==> Items(kw, d, env)[i].kind != AnswerBox
  {
    var xs := Items(kw, d, env);
    var c := Candidates(kw, d, env);
    var a := AnswerSection(kw, d.answerBox, env);
    assert forall y :: y in a ==> y.link == "";
    ItemsSpec(kw, d, env);
    SectionRanks(kw, d, env);
    forall i | 0 <= i < |xs| ensures xs[i].kind != AnswerBox {
      SubseqMember(xs, c, xs[i]);
      assert xs[i] !in a;
      assert Rank(xs[i]) > 0;
    }
  }

  /** An organic result is followed by its non-empty inline sitelinks and
      then its non-empty expanded ones, numbered on from the inline ones. */
  lemma OrganicGroupShape(kw: string, r: SerpOrganic, idx: nat, env: Env)
    ensures var g := OrganicGroup(kw, r, idx, env);
      |g| >= 1 && g[0] == OrganicItem(kw, r, idx, env)
      && g[1..] == FlatMap(r.inline, SitelinkStep(kw, r, idx, env))
                   + FlatMap(r.expanded, Shifted(SitelinkStep(kw, r, idx, env), |r.inline|))
  {
    var sls := Sitelinks(r);
    FlatMapSplit(sls, SitelinkStep(kw, r, idx, env), |r.inline|);
    assert sls[..|r.inline|] == r.inline;
    assert sls[|r.inline|..] == r.expanded;
  }

  /** The route checks the keyword, then the key; a SerpAPI error keeps its
      status; a listing reports as total the number of items, and the page
      size and offset it asked for. */
  lemma RespondSpec(keyword: Option<string>, startParam: Option<string>, numParam: Option<string>,
                    apiKey: Option<string>, fetch: SerpRequest -> Upstream, env: Env)
    ensures OrElse(keyword, "") == "" ==>
      Respond(keyword, startParam, numParam, apiKey, fetch, env) == Refused(400, KeywordRequired)
    ensures OrElse(keyword, "") != "" && OrElse(apiKey, "") == "" ==>
      Respond(keyword, startParam, numParam, apiKey, fetch, env) == Refused(500, KeyMissing)
    ensures var r := Respond(keyword, startParam, numParam, apiKey, fetch, env);
      r.Found? <==> OrElse(keyword, "") != "" && OrElse(apiKey, "") != ""
                    && fetch(SerpRequest(keyword.value, apiKey.value, NumOf(numParam), StartOf(startParam))).Serp?
    ensures var r := Respond(keyword, startParam, numParam, apiKey, fetch, env);
      r.Found? ==> r.total == |r.items| && 5 <= r.num <= 100 && r.start >= 0
                   && r.items == Items(keyword.value, fetch(SerpRequest(keyword.value, apiKey.value, r.num, r.start)).data, env)
    ensures OrElse(keyword, "") != "" && OrElse(apiKey, "") != "" ==>
      var reply := fetch(SerpRequest(keyword.value, apiKey.value, NumOf(numParam), StartOf(startParam)));
      reply.HttpError? ==> Respond(keyword, startParam, numParam, apiKey, fetch, env).status == reply.status
  {
  }
}
