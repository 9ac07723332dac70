/** `getSourceBadge(link)`: the label and colour shown beside a result,
    looked up by host name. A leading "www." is dropped; the host is looked
    up as it is, then by its last two labels. A link the URL parser rejects
    has no badge. The Google tab and the timeline feed each have their own
    table; only the Google tab's has a generic "naver.com" entry
    (components/google-tab.tsx, components/timeline-feed.tsx). */
module SourceBadge {
  import opened Wrappers
  import opened Text

  datatype Badge = Badge(name: string, color: string)

  const Gray := "bg-gray-100 text-gray-700 border-gray-300"
  const Pink := "bg-pink-50 text-pink-700 border-pink-200"
  const Blue := "bg-blue-50 text-blue-700 border-blue-200"
  const Orange := "bg-orange-50 text-orange-700 border-orange-200"
  const Red := "bg-red-50 text-red-700 border-red-200"
  const Green := "bg-green-50 text-green-700 border-green-200"
  const Emerald := "bg-emerald-50 text-emerald-700 border-emerald-200"

  /** The Google tab's `SOCIAL_DOMAINS`. */
  const GoogleTabDomains: map<string, Badge> := map[
    "threads.net" := Badge("Threads", Gray),
    "threads.com" := Badge("Threads", Gray),
    "instagram.com" := Badge("Instagram", Pink),
    "twitter.com" := Badge("X/Twitter", Blue),
    "x.com" := Badge("X/Twitter", Blue),
    "facebook.com" := Badge("Facebook", Blue),
    "reddit.com" := Badge("Reddit", Orange),
    "tiktok.com" := Badge("TikTok", Gray),
    "youtube.com" := Badge("YouTube", Red),
    "naver.com" := Badge("Naver", Green),
    "blog.naver.com" := Badge("Naver Blog", Green),
    "cafe.naver.com" := Badge("Naver Cafe", Green),
    "brunch.co.kr" := Badge("Brunch", Emerald),
    "tistory.com" := Badge("Tistory", Orange),
    "daum.net" := Badge("Daum", Blue)]

  /** The timeline feed's `SOCIAL_DOMAINS`. */
  const TimelineDomains: map<string, Badge> := map[
    "threads.net" := Badge("Threads", Gray),
    "threads.com" := Badge("Threads", Gray),
    "instagram.com" := Badge("Instagram", Pink),
    "twitter.com" := Badge("X/Twitter", Blue),
    "x.com" := Badge("X/Twitter", Blue),
    "facebook.com" := Badge("Facebook", Blue),
    "reddit.com" := Badge("Reddit", Orange),
    "tiktok.com" := Badge("TikTok", Gray),
    "youtube.com" := Badge("YouTube", Red),
    "blog.naver.com" := Badge("네이버 블로그", Green),
    "cafe.naver.com" := Badge("네이버 카페", Green)]

  /** `hostname.replace(/^www\./, "")` */
  function StripWww(host: string): (r: string)
    ensures StartsWith(host, "www.") ==> host == "www." + r
    ensures !StartsWith(host, "www.") ==> r == host
  {
    if StartsWith(host, "www.") then host[4..] else host
  }

  /** `parts.slice(-2).join(".")` when the host has more than two labels. */
  function ParentDomain(host: string): Option<string>
  {
    var parts := Split(host, '.');
    if |parts| > 2 then Some(Join(parts[|parts| - 2..], ".")) else None
  }

  /** The parent domain is the host's last two labels: it ends the host
      after a dot and holds exactly one dot itself. */
  lemma ParentDomainSuffix(host: string)
    requires ParentDomain(host).Some?
    ensures var p := ParentDomain(host).value;
      EndsWith(host, "." + p)
      && exists a, b :: '.' !in a && '.' !in b && p == a + "." + b
  {
    var parts := Split(host, '.');
    var n := |parts|;
    var p := ParentDomain(host).value;
    JoinSplit(host, '.');
    assert parts == parts[..n - 2] + parts[n - 2..];
    JoinAppend(parts[..n - 2], parts[n - 2..], ".");
    assert host == Join(parts[..n - 2], ".") + "." + p;
    assert parts[n - 2..][1..] == [parts[n - 1]];
    assert p == parts[n - 2] + "." + parts[n - 1];
    assert '.' !in parts[n - 2] && '.' !in parts[n - 1];
  }

  /** `getSourceBadge(link)`, given the host name the URL parser finds in
      the link, or None when it throws. */
  function SourceBadgeOf(table: map<string, Badge>, host: Option<string>): (r: Option<Badge>)
    ensures r.Some? ==> r.value in table.Values
  {
    if host.None? then None
    else
      var h := StripWww(host.value);
      if h in table then Some(table[h])
      else match ParentDomain(h)
        case Some(p) => if p in table then Some(table[p]) else None
        case None => None
  }

  /** A badge comes from the table entry for the host itself or, when the
      host has none, for a suffix of it that starts after a dot; an
      unparsable link has none. */
  lemma SourceBadgeSpec(table: map<string, Badge>, host: Option<string>)
    ensures host.None? ==> SourceBadgeOf(table, host).None?
    ensures SourceBadgeOf(table, host).Some? ==> (
      && host.Some?
      && var h := StripWww(host.value);
         var b := SourceBadgeOf(table, host).value;
         || (h in table && b == table[h])
         || (h !in table && exists p :: p in table && EndsWith(h, "." + p) && b == table[p]))
  {
    if host.Some? && StripWww(host.value) !in table && SourceBadgeOf(table, host).Some? {
      ParentDomainSuffix(StripWww(host.value));
    }
  }

  /** A leading "www." makes no difference. */
  lemma WwwIgnored(table: map<string, Badge>, host: string)
    requires !StartsWith(host, "www.")
    ensures SourceBadgeOf(table, Some("www." + host)) == SourceBadgeOf(table, Some(host))
  {
    assert StartsWith("www." + host, "www.");
    assert ("www." + host)[4..] == host;
  }

  /** The two tables differ on Naver: the Google tab labels any host under
      naver.com, the timeline only blogs and cafes; a blog host gets a
      different label in each. */
  lemma TablesDiffer()
    ensures "naver.com" in GoogleTabDomains && "naver.com" !in TimelineDomains
    ensures GoogleTabDomains["blog.naver.com"].name != TimelineDomains["blog.naver.com"].name
    ensures TimelineDomains.Keys < GoogleTabDomains.Keys
  {
  }
}
