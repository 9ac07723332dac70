/** The search query builders (lib/query-packs.ts): a single Google query
    that ORs every risk modifier, two social site queries, five Naver
    queries, and the three query packs of the unified scan. */
module QueryPacks {
  import opened Text

  const RiskModifiers: seq<string> := [
    "환불", "사기", "먹튀", "피해", "후기", "논란", "불만", "민원", "고소", "신고",
    "최악", "절대", "하지마", "비추", "거르", "조작", "구라"]

  /** The Naver risk words, in query order. */
  const NaverRiskWords: seq<string> := ["환불", "사기", "피해", "논란"]

  /** The words of the "brand-risk" pack, in query order. */
  const PackRiskWords: seq<string> := ["환불", "사기", "먹튀", "피해", "논란", "신고"]

  /** `"${s}"` */
  function Quote(s: string): (r: string)
    ensures |r| == |s| + 2 && r[0] == '"' && r[|r| - 1] == '"' && r[1..|r| - 1] == s
  {
    "\"" + s + "\""
  }

  /** `"${brand}" "${w}"` for each `w`, in order. */
  function Paired(brand: string, ws: seq<string>): (r: seq<string>)
    ensures |r| == |ws|
    ensures forall i :: 0 <= i < |ws| ==> r[i] == Quote(brand) + " " + Quote(ws[i])
  {
    seq(|ws|, i requires 0 <= i < |ws| => Quote(brand) + " " + Quote(ws[i]))
  }

  function QuoteAll(ws: seq<string>): (r: seq<string>)
    ensures |r| == |ws| && forall i :: 0 <= i < |ws| ==> r[i] == Quote(ws[i])
  {
    seq(|ws|, i requires 0 <= i < |ws| => Quote(ws[i]))
  }

  /** `"${brand}" ("w1" OR "w2" OR ...)` */
  function OrQuery(brand: string, words: seq<string>): string
  {
    Quote(brand) + " (" + Join(QuoteAll(words), " OR ") + ")"
  }

  /** `buildGoogleRiskQuery(brand)` */
  function GoogleRiskQuery(brand: string): string
  {
    OrQuery(brand, RiskModifiers)
  }

  /** Every part of a join occurs in it. */
  lemma {:induction false} JoinContainsParts(parts: seq<string>, sep: string, k: nat)
    requires k < |parts|
    ensures exists i :: OccursAt(Join(parts, sep), parts[k], i)
    decreases |parts|
  {
    var j := Join(parts, sep);
    if |parts| == 1 {
      assert OccursAt(j, parts[k], 0);
    } else if k == 0 {
      assert j == parts[0] + (sep + Join(parts[1..], sep));
      assert OccursAt(j, parts[k], 0);
    } else {
      JoinContainsParts(parts[1..], sep, k - 1);
      var tail := Join(parts[1..], sep);
      var i :| OccursAt(tail, parts[1..][k - 1], i);
      assert j == (parts[0] + sep) + tail + "";
      OccursInside(parts[0] + sep, tail, "", parts[k], i);
    }
  }

  /** Each word occurs quoted in an OR query. */
  lemma OrQueryNames(brand: string, words: seq<string>, k: nat)
    requires k < |words|
    ensures Contains(OrQuery(brand, words), Quote(words[k]))
  {
    var head := Quote(brand) + " (";
    var body := Join(QuoteAll(words), " OR ");
    assert OrQuery(brand, words) == head + body + ")";
    JoinContainsParts(QuoteAll(words), " OR ", k);
    var i :| OccursAt(body, QuoteAll(words)[k], i);
    OccursInside(head, body, ")", Quote(words[k]), i);
    OccursAtContains(head + body + ")", Quote(words[k]), |head| + i);
  }

  /** An OR query starts with the quoted brand, ends with the closing
      parenthesis, and names every word in quotes. */
  lemma OrQueryShape(brand: string, words: seq<string>)
    ensures StartsWith(OrQuery(brand, words), Quote(brand) + " (")
    ensures OrQuery(brand, words)[|OrQuery(brand, words)| - 1] == ')'
    ensures forall k :: 0 <= k < |words| ==> Contains(OrQuery(brand, words), Quote(words[k]))
  {
    var head := Quote(brand) + " (";
    var q := head + Join(QuoteAll(words), " OR ") + ")";
    assert OrQuery(brand, words) == q;
    assert q[..|head|] == head;
    forall k | 0 <= k < |words| {
      OrQueryNames(brand, words, k);
    }
  }

  /** The risk query names all seventeen modifiers. */
  lemma GoogleRiskQueryShape(brand: string)
    ensures StartsWith(GoogleRiskQuery(brand), Quote(brand) + " (")
    ensures forall k :: 0 <= k < |RiskModifiers| ==> Contains(GoogleRiskQuery(brand), Quote(RiskModifiers[k]))
  {
    OrQueryShape(brand, RiskModifiers);
  }

  /** `buildSocialQueries(brand)` */
  function SocialQueries(brand: string): (r: seq<string>)
    ensures |r| == 2
    ensures StartsWith(r[0], "site:instagram.com ") && StartsWith(r[1], "site:threads.net ")
  {
    var q := Quote(brand);
    var insta := "site:instagram.com " + q;
    var threads := "site:threads.net " + q + " OR site:threads.com " + q;
    assert insta[..19] == "site:instagram.com ";
    assert threads[..17] == "site:threads.net ";
    [insta, threads]
  }

  /** `buildNaverQueries(brand)` */
  function NaverQueries(brand: string): (r: seq<string>)
    ensures |r| == 5
    ensures r[0] == Quote(brand)
    ensures forall i :: 1 <= i < 5 ==> r[i] == Quote(brand) + " " + Quote(NaverRiskWords[i - 1])
  {
    [Quote(brand)] + Paired(brand, NaverRiskWords)
  }

  datatype QueryPack = QueryPack(id: string, caption: string)

  const QueryPackList: seq<QueryPack> := [
    QueryPack("brand-basic", "브랜드 기본"),
    QueryPack("brand-risk", "공격 탐지"),
    QueryPack("brand-social", "소셜 탐지")]

  /** `pack.makeQueries(brand)`; an unknown pack yields no query. */
  function MakeQueries(pack: QueryPack, brand: string): seq<string>
  {
    if pack.id == "brand-basic" then [Quote(brand)]
    else if pack.id == "brand-risk" then Paired(brand, PackRiskWords)
    else if pack.id == "brand-social" then SocialQueries(brand)
    else []
  }

  /** The three packs yield 1, 6 and 2 queries; the risk pack pairs the
      brand with each of its words, and the social pack is the social
      query builder. */
  lemma QueryPackCounts(brand: string)
    ensures |QueryPackList| == 3
    ensures MakeQueries(QueryPackList[0], brand) == [Quote(brand)]
    ensures |MakeQueries(QueryPackList[1], brand)| == 6
    ensures forall i :: 0 <= i < 6 ==>
      MakeQueries(QueryPackList[1], brand)[i] == Quote(brand) + " " + Quote(PackRiskWords[i])
    ensures MakeQueries(QueryPackList[2], brand) == SocialQueries(brand)
  {
    assert QueryPackList[1].id == "brand-risk";
    assert QueryPackList[1].id != "brand-basic";
    assert QueryPackList[2].id != "brand-basic" && QueryPackList[2].id != "brand-risk";
  }

  /** Seventeen risk modifiers, all distinct. */
  lemma RiskModifierCount()
    ensures |RiskModifiers| == 17
    ensures forall i, j :: 0 <= i < j < |RiskModifiers| ==> RiskModifiers[i] != RiskModifiers[j]
  {
  }
}
