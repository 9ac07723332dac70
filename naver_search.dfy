/** The Naver blog and cafe search route (app/api/naver/search/route.ts):
    request checks, the upstream request, and the normalisation of each
    upstream item (markup stripping, absolute links, ISO post dates, author
    fields chosen by search type). The HTTP call is a parameter: the route
    is modelled as a function of the upstream reply. */
module NaverSearch {
  import opened Wrappers
  import opened Text
  import YouTube

  /** The route's entity decoding: `&quot;`, `&#39;`, `&amp;`, `&lt;`,
      `&gt;`, in that order, each replaced everywhere. */
  function DecodeEntities(s: string): string
  {
    var a := ReplaceAll(s, "&quot;", "\"");
    var b := ReplaceAll(a, "&#39;", "'");
    var c := ReplaceAll(b, "&amp;", "&");
    var d := ReplaceAll(c, "&lt;", "<");
    ReplaceAll(d, "&gt;", ">")
  }

  /** `stripHtml(input)`: tags removed, entities decoded, then trimmed. The
      result never starts or ends with white space. */
  function StripHtml(input: string): (r: string)
    ensures r == [] || (!IsSpace(r[0]) && !IsSpace(r[|r| - 1]))
  {
    if input == "" then ""
    else
      var decoded := DecodeEntities(YouTube.RemoveTags(input));
      TrimShape(decoded);
      Trim(decoded)
  }

  lemma DecodeNoAmp(s: string)
    requires '&' !in s
    ensures DecodeEntities(s) == s
  {
    AbsentHeadNotContained(s, "&quot;");
    ReplaceAllAbsent(s, "&quot;", "\"");
    AbsentHeadNotContained(s, "&#39;");
    ReplaceAllAbsent(s, "&#39;", "'");
    AbsentHeadNotContained(s, "&amp;");
    ReplaceAllAbsent(s, "&amp;", "&");
    AbsentHeadNotContained(s, "&lt;");
    ReplaceAllAbsent(s, "&lt;", "<");
    AbsentHeadNotContained(s, "&gt;");
    ReplaceAllAbsent(s, "&gt;", ">");
  }

  /** Text with no markup and no entity is only trimmed. */
  lemma StripHtmlPlain(s: string)
    requires '<' !in s && '&' !in s
    ensures StripHtml(s) == Trim(s)
  {
    YouTube.RemoveTagsNoLt(s);
    DecodeNoAmp(s);
  }

  /** A pattern that does not start the string and whose first character
      is absent from the rest is not replaced. */
  lemma ReplaceMisses(s: string, pat: string, rep: string)
    requires |pat| > 0 && |s| > 0 && !StartsWith(s, pat) && pat[0] !in s[1..]
    ensures ReplaceAll(s, pat, rep) == s
  {
    AbsentHeadNotContained(s[1..], pat);
    ReplaceAllAbsent(s[1..], pat, rep);
  }

  /** `&lt;` is decoded after `&amp;`, so an escaped `&lt;` is decoded twice. */
  lemma DecodeEscapedLt()
    ensures DecodeEntities("&amp;lt;") == "<"
  {
    EscapedLtUntouched();
    LtAfterAmp();
    LtDecoded();
    assert ReplaceAll("<", "&gt;", ">") == "<";
  }

  /** Neither `&quot;` nor `&#39;` occurs in `&amp;lt;`. */
  lemma EscapedLtUntouched()
    ensures ReplaceAll("&amp;lt;", "&quot;", "\"") == "&amp;lt;"
    ensures ReplaceAll("&amp;lt;", "&#39;", "'") == "&amp;lt;"
  {
    var lt := "&amp;lt;";
    assert lt[1..] == "amp;lt;" && lt[..6] == "&amp;l" && lt[..5] == "&amp;";
    ReplaceMisses(lt, "&quot;", "\"");
    ReplaceMisses(lt, "&#39;", "'");
  }

  lemma LtAfterAmp()
    ensures ReplaceAll("&amp;lt;", "&amp;", "&") == "&lt;"
  {
    var lt := "&amp;lt;";
    assert StartsWith(lt, "&amp;");
    assert lt[5..] == "lt;";
    assert ReplaceAll("lt;", "&amp;", "&") == "lt;";
  }

  lemma LtDecoded()
    ensures ReplaceAll("&lt;", "&lt;", "<") == "<"
  {
    assert StartsWith("&lt;", "&lt;");
    assert "&lt;"[4..] == "";
  }

  /** `&quot;` is decoded before `&amp;`, so an escaped `&quot;` is decoded
      only once. */
  lemma DecodeEscapedQuot()
    ensures DecodeEntities("&amp;quot;") == "&quot;"
  {
    EscapedQuotUntouched();
    QuotAfterAmp();
    QuotUntouched();
  }

  /** Neither `&quot;` nor `&#39;` occurs in `&amp;quot;`. */
  lemma EscapedQuotUntouched()
    ensures ReplaceAll("&amp;quot;", "&quot;", "\"") == "&amp;quot;"
    ensures ReplaceAll("&amp;quot;", "&#39;", "'") == "&amp;quot;"
  {
    var q := "&amp;quot;";
    assert q[1..] == "amp;quot;" && q[..6] == "&amp;q" && q[..5] == "&amp;";
    ReplaceMisses(q, "&quot;", "\"");
    ReplaceMisses(q, "&#39;", "'");
  }

  /** Neither `&lt;` nor `&gt;` occurs in `&quot;`. */
  lemma QuotUntouched()
    ensures ReplaceAll("&quot;", "&lt;", "<") == "&quot;"
    ensures ReplaceAll("&quot;", "&gt;", ">") == "&quot;"
  {
    var e := "&quot;";
    assert e[1..] == "quot;" && e[..4] == "&quo";
    ReplaceMisses(e, "&lt;", "<");
    ReplaceMisses(e, "&gt;", ">");
  }

  lemma QuotAfterAmp()
    ensures ReplaceAll("&amp;quot;", "&amp;", "&") == "&quot;"
  {
    var q := "&amp;quot;";
    assert q[..5] == "&amp;" && q[5..] == "quot;";
    AbsentHeadNotContained("quot;", "&amp;");
    ReplaceAllAbsent("quot;", "&amp;", "&");
  }

  // Parameter clamping

  function Min(a: int, b: int): int
  {
    if a <= b then a else b
  }

  function Max(a: int, b: int): int
  {
    if a >= b then a else b
  }

  /** `Math.max(lo, Math.min(n, hi))` as written, on a number that may be
      NaN (`None`): NaN passes through both. */
  function ClampAsWritten(n: Option<int>, lo: int, hi: int): (r: Option<int>)
    ensures r.None? <==> n.None?
    ensures lo <= hi && r.Some? ==> lo <= r.value <= hi
  {
    if n.None? then None else Some(Max(lo, Min(n.value, hi)))
  }

  /** A non-numeric `start` parameter reaches the upstream request as NaN,
      outside [1, 1000]. */
  lemma ClampLetsNaNThrough()
    ensures ParseInt(OrElse(Some("abc"), "1")) == None
    ensures ClampAsWritten(ParseInt(OrElse(Some("abc"), "1")), 1, 1000) == None
  {
    assert TrimStart("abc") == "abc";
  }

  /** The clamp as intended: a number outside [lo, hi] is moved to the
      nearer end, and NaN is read as the parameter's default. */
  function Clamp(n: Option<int>, fallback: int, lo: int, hi: int): (r: int)
    requires lo <= hi
    ensures lo <= r <= hi
    ensures n.Some? ==> Some(r) == ClampAsWritten(n, lo, hi)
    ensures n.Some? && lo <= n.value <= hi ==> r == n.value
    ensures n.None? && lo <= fallback <= hi ==> r == fallback
  {
    Max(lo, Min(if n.Some? then n.value else fallback, hi))
  }

  // URLs and dates

  /** `ensureAbsoluteUrl(url)` */
  function EnsureAbsoluteUrl(url: string): string
  {
    if url == "" then "" else WithScheme(Trim(url))
  }

  /** The scheme completion applied to the trimmed link. */
  function WithScheme(t: string): string
  {
    if StartsWith(t, "http://") || StartsWith(t, "https://") then t
    else if StartsWith(t, "//") then "https:" + t
    else "https://" + t
  }

  predicate Absolute(u: string)
  {
    StartsWith(u, "http://") || StartsWith(u, "https://")
  }

  lemma RelativeShape(t: string)
    requires StartsWith(t, "//") && !IsSpace(t[|t| - 1])
    ensures Absolute("https:" + t) && Trimmed("https:" + t)
  {
    var r := "https:" + t;
    assert r[..8] == "https:" + t[..2];
    assert r[0] == 'h' && r[|r| - 1] == t[|t| - 1];
  }

  lemma BareShape(t: string)
    requires t == [] || !IsSpace(t[|t| - 1])
    ensures Absolute("https://" + t) && Trimmed("https://" + t)
  {
    var r := "https://" + t;
    assert r[..8] == "https://";
    assert r[0] == 'h' && r[|r| - 1] == if t == [] then '/' else t[|t| - 1];
  }

  /** Completing the scheme of a trimmed link gives a trimmed absolute URL. */
  lemma WithSchemeShape(t: string)
    requires Trimmed(t)
    ensures Absolute(WithScheme(t)) && Trimmed(WithScheme(t))
  {
    if Absolute(t) {
    } else if StartsWith(t, "//") {
      RelativeShape(t);
    } else {
      BareShape(t);
    }
  }

  /** Only the empty string maps to the empty string; anything else becomes
      an http or https URL with no surrounding white space. */
  lemma AbsoluteUrlShape(url: string)
    ensures EnsureAbsoluteUrl(url) == "" <==> url == ""
    ensures url != "" ==> Absolute(EnsureAbsoluteUrl(url)) && Trimmed(EnsureAbsoluteUrl(url))
  {
    if url != "" {
      TrimShape(url);
      WithSchemeShape(Trim(url));
    }
  }

  /** Absolutising twice is absolutising once. */
  lemma AbsoluteUrlIdempotent(url: string)
    ensures EnsureAbsoluteUrl(EnsureAbsoluteUrl(url)) == EnsureAbsoluteUrl(url)
  {
    var r := EnsureAbsoluteUrl(url);
    AbsoluteUrlShape(url);
    if r != "" {
      TrimNoSpace(r);
    }
  }

  lemma RelativeScheme(t: string)
    requires StartsWith(t, "//")
    ensures WithScheme(t) == "https:" + t
    ensures StartsWith(WithScheme(t), "https://")
  {
    assert t[0] == '/';
    var r := "https:" + t;
    assert r[..8] == "https:" + t[..2];
  }

  /** A protocol-relative link gets the https scheme. */
  lemma ProtocolRelative(url: string)
    requires StartsWith(Trim(url), "//")
    ensures EnsureAbsoluteUrl(url) == "https:" + Trim(url)
    ensures StartsWith(EnsureAbsoluteUrl(url), "https://")
  {
    var t := Trim(url);
    assert url != "";
    assert EnsureAbsoluteUrl(url) == WithScheme(t);
    RelativeScheme(t);
  }

  /** `formatPostDate(postdate)`: "YYYYMMDD" becomes midnight UTC of that day
      in ISO form; any other length gives the current time `now`. */
  function FormatPostDate(postdate: string, now: string): (r: string)
    ensures |postdate| == 8 ==> |r| == 24 && r[..4] + r[5..7] + r[8..10] == postdate
    ensures |postdate| == 8 ==> r[4] == '-' && r[7] == '-' && r[10..] == "T00:00:00.000Z"
    ensures |postdate| != 8 ==> r == now
  {
    if |postdate| == 8 then
      var r := postdate[..4] + "-" + postdate[4..6] + "-" + postdate[6..8] + "T00:00:00.000Z";
      assert r[..4] + r[5..7] + r[8..10] == postdate[..4] + postdate[4..6] + postdate[6..8];
      assert postdate[..4] + postdate[4..6] + postdate[6..8] == postdate;
      r
    else now
  }

  // The route

  datatype NaverItem = NaverItem(
    title: string, link: string, description: string,
    bloggername: Option<string>, bloggerlink: Option<string>,
    cafename: Option<string>, cafeurl: Option<string>,
    postdate: string)

  datatype SearchItem = SearchItem(
    id: string, kind: string, title: string, content: string,
    author: string, authorUrl: string, link: string, publishedAt: string)

  /** The upstream outcome: a JSON body, a non-2xx status with its body, or
      a thrown error with its message. */
  datatype Upstream =
    | Listing(total: int, start: int, display: int, items: seq<NaverItem>)
    | HttpError(status: int, body: string)
    | Thrown(message: string)

  datatype Response =
    | Found(total: int, start: int, display: int, items: seq<SearchItem>)
    | Refused(status: int, error: string)

  datatype Request = Request(path: string, query: string, display: string, start: int, sort: string)

  const KeywordRequired := "keyword 파라미터가 필요합니다."
  const CredentialsMissing := "NAVER_CLIENT_ID 또는 NAVER_CLIENT_SECRET 환경변수가 설정되지 않았습니다."
  const TypeInvalid := "type은 'blog' 또는 'cafe'만 가능합니다."

  /** `${n}` for a number that may be NaN. */
  function NumberText(n: Option<int>): string
  {
    if n.None? then "NaN" else IntToString(n.value)
  }

  /** The start parameter as parsed, before clamping. */
  function StartOf(startParam: Option<string>): Option<int>
  {
    ParseInt(OrElse(startParam, "1"))
  }

  /** The upstream request for a validated keyword and type. */
  function UpstreamRequest(keyword: string, kind: string, start: Option<int>): Request
  {
    Request("https://openapi.naver.com/v1/search/" + kind + ".json", keyword, "100", Clamp(start, 1, 1, 1000), "date")
  }

  /** The request always asks for 100 results by date, from a start in
      [1, 1000], echoing a numeric start inside that range. */
  lemma RequestParams(keyword: string, kind: string, start: Option<int>)
    ensures 1 <= UpstreamRequest(keyword, kind, start).start <= 1000
    ensures start.Some? && 1 <= start.value <= 1000 ==> UpstreamRequest(keyword, kind, start).start == start.value
    ensures UpstreamRequest(keyword, kind, start).display == "100"
    ensures UpstreamRequest(keyword, kind, start).sort == "date"
    ensures UpstreamRequest(keyword, kind, start).query == keyword
  {
  }

  /** The `start` the route as written puts on the upstream URL:
      `String(Math.max(1, Math.min(start, 1000)))`, "NaN" for a
      non-numeric parameter. */
  function StartSentAsWritten(startParam: Option<string>): string
  {
    NumberText(ClampAsWritten(StartOf(startParam), 1, 1000))
  }

  /** As written, the request carries "NaN" exactly when the parameter is
      not a number; otherwise it carries the start of the corrected
      request. */
  lemma StartSentAsWrittenSpec(keyword: string, kind: string, startParam: Option<string>)
    ensures StartSentAsWritten(startParam) == "NaN" <==> StartOf(startParam).None?
    ensures StartOf(startParam).Some? ==>
      StartSentAsWritten(startParam) == IntToString(UpstreamRequest(keyword, kind, StartOf(startParam)).start)
    ensures StartSentAsWritten(Some("abc")) == "NaN"
  {
    ClampLetsNaNThrough();
    var n := ClampAsWritten(StartOf(startParam), 1, 1000);
    if n.Some? {
      IntToStringNotNaN(n.value);
    }
  }

  /** One upstream item in the route's shape; `idx` is its position. */
  function ToItem(item: NaverItem, kind: string, keyword: string, start: Option<int>, idx: nat, now: string): SearchItem
  {
    var position := if start.Some? then Some(start.value + idx) else None;
    SearchItem(
      "naver-" + kind + "-" + keyword + "-" + NumberText(position) + "-" + item.postdate,
      kind,
      StripHtml(item.title),
      StripHtml(item.description),
      if kind == "blog" then StripHtml(OrElse(item.bloggername, "")) else StripHtml(OrElse(item.cafename, "")),
      EnsureAbsoluteUrl(if kind == "blog" then OrElse(item.bloggerlink, "") else OrElse(item.cafeurl, "")),
      EnsureAbsoluteUrl(item.link),
      FormatPostDate(item.postdate, now))
  }

  function ToItems(items: seq<NaverItem>, kind: string, keyword: string, start: Option<int>, now: string): (r: seq<SearchItem>)
    ensures |r| == |items|
    ensures forall i :: 0 <= i < |items| ==> r[i] == ToItem(items[i], kind, keyword, start, i, now)
  {
    seq(|items|, i requires 0 <= i < |items| => ToItem(items[i], kind, keyword, start, i, now))
  }

  /** The author fields of a blog result depend only on the blogger fields,
      those of a cafe result only on the cafe fields; an absent name gives
      an empty author. */
  lemma AuthorFields(item: NaverItem, kind: string, keyword: string, start: Option<int>, idx: nat, now: string,
                     otherName: Option<string>, otherUrl: Option<string>)
    ensures kind == "blog" ==>
      ToItem(item.(cafename := otherName, cafeurl := otherUrl), kind, keyword, start, idx, now)
        == ToItem(item, kind, keyword, start, idx, now)
    ensures kind != "blog" ==>
      ToItem(item.(bloggername := otherName, bloggerlink := otherUrl), kind, keyword, start, idx, now)
        == ToItem(item, kind, keyword, start, idx, now)
    ensures kind == "blog" && item.bloggername == None ==> ToItem(item, kind, keyword, start, idx, now).author == ""
    ensures kind != "blog" && item.cafeurl == None ==> ToItem(item, kind, keyword, start, idx, now).authorUrl == ""
  {
  }

  /** Every result link is absolute, or empty when the upstream link is. */
  lemma ResultLinks(item: NaverItem, kind: string, keyword: string, start: Option<int>, idx: nat, now: string)
    ensures var r := ToItem(item, kind, keyword, start, idx, now);
      (item.link == "" <==> r.link == "") && (r.link != "" ==> Absolute(r.link))
  {
    AbsoluteUrlShape(item.link);
  }

  /** `GET /api/naver/search` given the query parameters, the two
      credentials and the upstream outcome; `now` is the current time. */
  function Search(keyword: Option<string>, typeParam: Option<string>, startParam: Option<string>,
                  clientId: Option<string>, clientSecret: Option<string>,
                  upstream: Upstream, now: string): Response
  {
    var kind := OrElse(typeParam, "blog");
    var start := StartOf(startParam);
    if keyword.None? || keyword.value == "" then Refused(400, KeywordRequired)
    else if clientId.None? || clientId.value == "" || clientSecret.None? || clientSecret.value == "" then
      Refused(500, CredentialsMissing)
    else if kind != "blog" && kind != "cafe" then Refused(400, TypeInvalid)
    else
      match upstream
      case HttpError(status, body) => Refused(status, "Naver API 오류: " + IntToString(status) + " " + body)
      case Thrown(message) => Refused(500, "Naver 검색 실패: " + message)
      case Listing(total, s, display, items) =>
        Found(total, s, display, ToItems(items, kind, keyword.value, start, now))
  }

  /** The checks run in order: keyword, then credentials, then type. A
      missing type is a blog search; a listing is echoed with one result per
      upstream item, in upstream order. */
  lemma SearchChecks(keyword: Option<string>, typeParam: Option<string>, startParam: Option<string>,
                     clientId: Option<string>, clientSecret: Option<string>, upstream: Upstream, now: string)
    ensures keyword.None? || keyword == Some("") ==>
      Search(keyword, typeParam, startParam, clientId, clientSecret, upstream, now) == Refused(400, KeywordRequired)
    ensures keyword.Some? && keyword.value != "" && (clientId.None? || clientSecret.None?) ==>
      Search(keyword, typeParam, startParam, clientId, clientSecret, upstream, now) == Refused(500, CredentialsMissing)
    ensures Search(keyword, typeParam, startParam, clientId, clientSecret, upstream, now) == Refused(400, TypeInvalid)
      <==> keyword.Some? && keyword.value != "" && OrElse(clientId, "") != "" && OrElse(clientSecret, "") != ""
           && OrElse(typeParam, "blog") != "blog" && OrElse(typeParam, "blog") != "cafe"
    ensures var r := Search(keyword, typeParam, startParam, clientId, clientSecret, upstream, now);
      r.Found? ==> upstream.Listing? && |r.items| == |upstream.items| && r.total == upstream.total
                   && forall i :: 0 <= i < |r.items| ==> r.items[i].kind == OrElse(typeParam, "blog")
    ensures typeParam == None && upstream.Listing? && keyword.Some? && keyword.value != ""
            && OrElse(clientId, "") != "" && OrElse(clientSecret, "") != "" ==>
      Search(keyword, typeParam, startParam, clientId, clientSecret, upstream, now).Found?
  {
    var r := Search(keyword, typeParam, startParam, clientId, clientSecret, upstream, now);
    assert KeywordRequired[0] == 'k' && TypeInvalid[0] == 't';
    if upstream.HttpError? {
      var msg := "Naver API 오류: " + IntToString(upstream.status) + " " + upstream.body;
      assert msg[0] == 'N';
    }
  }
}
