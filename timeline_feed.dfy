/** The live feed (components/timeline-feed.tsx): items deduplicated by
    link, each put in one of four categories, filtered by the selected
    categories, and stamped with a coarse "time ago". The elapsed time is
    an input: the component reads the clock. */
module TimelineFeed {
  import opened Wrappers
  import opened Text
  import opened Seqs
  import opened Types

  /** `ALL_CATEGORIES` */
  const AllCategories: seq<string> := ["blog", "cafe", "google", "youtube"]

  /** `getItemCategory(item)` */
  function ItemCategory(item: MonitoringItem): (r: string)
    ensures r in AllCategories
  {
    if item.source == Naver && item.kind == Blog then "blog"
    else if item.source == Naver && item.kind == Cafe then "cafe"
    else if item.source == Google then "google"
    else if item.source == YouTube then "youtube"
    else "google"
  }

  /** Naver blogs and cafes have their own categories, YouTube items theirs,
      and everything else (Google items, and Naver items of any other kind)
      is shown as Google. */
  lemma ItemCategorySpec(item: MonitoringItem)
    ensures ItemCategory(item) == "blog" <==> item.source == Naver && item.kind == Blog
    ensures ItemCategory(item) == "cafe" <==> item.source == Naver && item.kind == Cafe
    ensures ItemCategory(item) == "youtube" <==> item.source == YouTube
    ensures ItemCategory(item) == "google" <==>
      item.source == Google || (item.source == Naver && item.kind != Blog && item.kind != Cafe)
  {
  }

  /** `activeFilters ?? [...ALL_CATEGORIES]`: only an absent list defaults;
      an empty one stays empty. */
  function Filters(activeFilters: Option<seq<string>>): seq<string>
  {
    match activeFilters
      case Some(fs) => fs
      case None => AllCategories
  }

  function InFilters(filters: seq<string>): MonitoringItem -> bool
  {
    (item: MonitoringItem) => ItemCategory(item) in filters
  }

  /** `filteredItems`, before the date sort. */
  function FilteredItems(items: seq<MonitoringItem>, activeFilters: Option<seq<string>>): seq<MonitoringItem>
  {
    var filters := Filters(activeFilters);
    if |filters| == 0 then [] else Filter(DedupBy(items, ItemLink), InFilters(filters))
  }

  /** The feed shows exactly the deduplicated items whose category is
      selected, in order and with distinct links; the guard for an empty
      selection agrees with the filter itself; with no selection given,
      every deduplicated item is shown. */
  lemma FilteredItemsSpec(items: seq<MonitoringItem>, activeFilters: Option<seq<string>>)
    ensures var d := DedupBy(items, ItemLink);
      && IsSubseq(FilteredItems(items, activeFilters), d)
      && DistinctKeys(FilteredItems(items, activeFilters), ItemLink)
      && (forall x :: x in FilteredItems(items, activeFilters) <==>
            x in d && ItemCategory(x) in Filters(activeFilters))
      && FilteredItems(items, activeFilters) == Filter(d, InFilters(Filters(activeFilters)))
      && (activeFilters.None? ==> FilteredItems(items, activeFilters) == d)
  {
    var d := DedupBy(items, ItemLink);
    var filters := Filters(activeFilters);
    var r := FilteredItems(items, activeFilters);
    DedupDistinct(items, ItemLink, {});
    if |filters| == 0 {
      FilterNone(d, InFilters(filters));
    }
    FilterSubseq(d, InFilters(filters));
    SubseqDistinct(r, d, ItemLink);
    forall x {
      FilterMembers(d, InFilters(filters), x);
    }
    if activeFilters.None? {
      FilterAll(d, InFilters(filters));
    }
  }

  /** A subsequence of a list with distinct keys has distinct keys. */
  lemma {:induction false} SubseqDistinct<T, K>(a: seq<T>, b: seq<T>, key: T -> K)
    requires IsSubseq(a, b) && DistinctKeys(b, key)
    ensures DistinctKeys(a, key)
    decreases |b|
  {
    if a != [] {
      assert DistinctKeys(b[1..], key) by {
        forall i, j | 0 <= i < j < |b[1..]| ensures key(b[1..][i]) != key(b[1..][j]) {
          assert b[1..][i] == b[i + 1] && b[1..][j] == b[j + 1];
        }
      }
      if a[0] == b[0] && IsSubseq(a[1..], b[1..]) {
        SubseqDistinct(a[1..], b[1..], key);
        forall j | 0 < j < |a| ensures key(a[0]) != key(a[j]) {
          assert a[j] == a[1..][j - 1];
          SubseqMember(a[1..], b[1..], a[j]);
          var k :| 0 <= k < |b[1..]| && b[1..][k] == a[j];
          assert b[k + 1] == a[j];
        }
      } else {
        SubseqDistinct(a, b[1..], key);
      }
    }
  }

  // ---------------------------------------------------------------------
  // timeAgo

  const MinuteMs: int := 60000
  const HourMs: int := 3600000
  const DayMs: int := 86400000

  /** Whole minutes, then whole hours of those, are whole hours; likewise
      for days. */
  lemma NestedDivision(ms: int)
    requires ms >= 0
    ensures ms / MinuteMs / 60 == ms / HourMs
    ensures ms / HourMs / 24 == ms / DayMs
  {
  }

  /** The buckets of `timeAgo`, each with its count. */
  datatype Ago =
    | Unknown
    | JustNow
    | Minutes(n: nat)
    | Hours(n: nat)
    | Days(n: nat)
    | Weeks(n: nat)
    | Months(n: nat)
    | Years(n: nat)

  /** `timeAgo(iso)`, given the milliseconds elapsed since the date, or None
      when the date is empty or invalid. */
  function TimeAgo(elapsed: Option<int>): Ago
  {
    if elapsed.None? || elapsed.value < 0 then Unknown
    else
      var mins := elapsed.value / MinuteMs;
      if mins < 1 then JustNow
      else if mins < 60 then Minutes(mins)
      else
        var hrs := mins / 60;
        if hrs < 24 then Hours(hrs)
        else
          var days := hrs / 24;
          if days < 7 then Days(days)
          else if days < 30 then Weeks(days / 7)
          else if days < 365 then Months(days / 30)
          else Years(days / 365)
  }

  /** The text shown for a bucket. */
  function AgoText(a: Ago): string
  {
    match a
      case Unknown => "날짜 미상"
      case JustNow => "방금 전"
      case Minutes(n) => NatToString(n) + "분 전"
      case Hours(n) => NatToString(n) + "시간 전"
      case Days(n) => NatToString(n) + "일 전"
      case Weeks(n) => NatToString(n) + "주 전"
      case Months(n) => NatToString(n) + "개월 전"
      case Years(n) => NatToString(n) + "년 전"
  }

  /** The bucket is "unknown" exactly for a missing, invalid or future
      date; otherwise its count is the elapsed time in whole units of the
      bucket, and within the bucket's range. */
  lemma TimeAgoSpec(elapsed: Option<int>)
    ensures TimeAgo(elapsed) == Unknown <==> elapsed.None? || elapsed.value < 0
    ensures TimeAgo(elapsed) == JustNow ==> 0 <= elapsed.value < MinuteMs
    ensures TimeAgo(elapsed).Minutes? ==>
      1 <= TimeAgo(elapsed).n < 60 && TimeAgo(elapsed).n == elapsed.value / MinuteMs
    ensures TimeAgo(elapsed).Hours? ==>
      1 <= TimeAgo(elapsed).n < 24 && TimeAgo(elapsed).n == elapsed.value / HourMs
    ensures TimeAgo(elapsed).Days? ==>
      1 <= TimeAgo(elapsed).n < 7 && TimeAgo(elapsed).n == elapsed.value / DayMs
    ensures TimeAgo(elapsed).Weeks? ==>
      1 <= TimeAgo(elapsed).n <= 4 && TimeAgo(elapsed).n == elapsed.value / DayMs / 7
      && elapsed.value / DayMs < 30
    ensures TimeAgo(elapsed).Months? ==>
      1 <= TimeAgo(elapsed).n <= 12 && TimeAgo(elapsed).n == elapsed.value / DayMs / 30
      && elapsed.value / DayMs < 365
    ensures TimeAgo(elapsed).Years? ==>
      1 <= TimeAgo(elapsed).n && TimeAgo(elapsed).n == elapsed.value / DayMs / 365
  {
    if elapsed.Some? && elapsed.value >= 0 {
      NestedDivision(elapsed.value);
    }
  }

  /** The order of the buckets, from most to least recent. */
  function Rank(a: Ago): nat
  {
    match a
      case Unknown => 0
      case JustNow => 1
      case Minutes(_) => 2
      case Hours(_) => 3
      case Days(_) => 4
      case Weeks(_) => 5
      case Months(_) => 6
      case Years(_) => 7
  }

  /** An older date never lands in a more recent bucket, nor with a smaller
      count in the same bucket. */
  lemma TimeAgoMonotone(x: int, y: int)
    requires 0 <= x <= y
    ensures Rank(TimeAgo(Some(x))) <= Rank(TimeAgo(Some(y)))
    ensures var a, b := TimeAgo(Some(x)), TimeAgo(Some(y));
      Rank(a) == Rank(b) && Rank(a) >= 2 ==> a.n <= b.n
  {
  }
}
