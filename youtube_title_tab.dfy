/** The YouTube title-search tab (components/youtube-title-tab.tsx): one
    keyword is searched among video titles, the results are listed, and
    they are handed on as monitoring items. The tab keeps its own recent
    searches. */
module YouTubeTitleTab {
  import opened Wrappers
  import opened Text
  import opened Seqs
  import opened Types
  import opened Recent
  import opened Tabs
  import YouTube

  /** `MAX_RECENT` */
  const MaxRecent: nat := 8

  const EmptyKeyword := "검색어를 입력해주세요."

  /** A result of the video search route (the thumbnail is left out). */
  datatype VideoResult = VideoResult(
    videoId: string,
    title: string,
    description: string,
    channelTitle: string,
    publishedAt: string)

  function VideoIdOf(v: VideoResult): string
  {
    v.videoId
  }

  /** The monitoring item a search result becomes. */
  function VideoItem(v: VideoResult): MonitoringItem
  {
    MonitoringItem("yt-search-" + v.videoId, YouTube, General, v.title, v.description,
      v.channelTitle, None, YouTube.WatchPrefix + v.videoId, v.publishedAt, [], false)
  }

  /** Two results give the same item link, and the same item id, exactly
      when they are the same video. */
  lemma VideoItemKeys(a: VideoResult, b: VideoResult)
    ensures VideoItem(a).link == VideoItem(b).link <==> a.videoId == b.videoId
    ensures VideoItem(a).id == VideoItem(b).id <==> a.videoId == b.videoId
  {
    var p := YouTube.WatchPrefix;
    if VideoItem(a).link == VideoItem(b).link {
      assert (p + a.videoId)[|p|..] == a.videoId;
      assert (p + b.videoId)[|p|..] == b.videoId;
    }
    if VideoItem(a).id == VideoItem(b).id {
      assert ("yt-search-" + a.videoId)[10..] == a.videoId;
      assert ("yt-search-" + b.videoId)[10..] == b.videoId;
    }
  }

  /** Results for distinct videos become items with distinct links. */
  lemma VideoItemsDistinct(results: seq<VideoResult>)
    requires DistinctKeys(results, VideoIdOf)
    ensures DistinctKeys(Map(results, VideoItem), ItemLink)
  {
    var items := Map(results, VideoItem);
    forall i, j | 0 <= i < j < |items| ensures ItemLink(items[i]) != ItemLink(items[j]) {
      VideoItemKeys(results[i], results[j]);
    }
  }

  function SearchFailed(status: nat): string
  {
    "YouTube 검색 실패 (" + NatToString(status) + ")"
  }

  /** The list after a search: the reply's items, none when the field is
      missing; a failed search keeps the previous list. */
  function SearchResults(prev: seq<VideoResult>, reply: Reply<Option<seq<VideoResult>>>): seq<VideoResult>
  {
    if reply.Ok? then reply.body.GetOr([]) else prev
  }

  function SearchError(reply: Reply<Option<seq<VideoResult>>>): Option<string>
  {
    if reply.Ok? then None else Some(FailureText(reply, SearchFailed))
  }

  /** What is handed to `onItemsCollected`, when there is a listener: the
      mapped items of a successful, non-empty reply. */
  function Collected(reply: Reply<Option<seq<VideoResult>>>, hasListener: bool): (r: Option<seq<MonitoringItem>>)
    ensures r.Some? ==> hasListener && reply.Ok? && reply.body.Some? && |r.value| == |reply.body.value| > 0
    ensures r.Some? ==> forall i :: 0 <= i < |r.value| ==> r.value[i] == VideoItem(reply.body.value[i])
    ensures hasListener && reply.Ok? && reply.body.GetOr([]) != [] ==> r.Some?
  {
    if hasListener && reply.Ok? && reply.body.GetOr([]) != [] then Some(Map(reply.body.value, VideoItem)) else None
  }

  class TitleTab {
    /** The search field. */
    var searchKeyword: string
    var recentSearches: seq<string>
    var results: seq<VideoResult>
    var error: Option<string>
    var searched: bool

    constructor()
      ensures searchKeyword == "" && recentSearches == [] && results == [] && error == None && !searched
    {
      searchKeyword := "";
      recentSearches := [];
      results := [];
      error := None;
      searched := false;
    }

    /** The mount effect: the saved list, when there is one. */
    method LoadRecent(stored: Option<seq<string>>)
      modifies this`recentSearches
      ensures recentSearches == if stored.Some? then stored.value else old(recentSearches)
    {
      if stored.Some? {
        recentSearches := stored.value;
      }
    }

    /** `saveRecent(query)` */
    method SaveRecent(query: string)
      modifies this`recentSearches
      ensures recentSearches == MoveToFront(old(recentSearches), query, MaxRecent)
    {
      recentSearches := Take([query] + Without(recentSearches, query), MaxRecent);
    }

    /** `removeRecent(query)` */
    method RemoveRecent(query: string)
      modifies this`recentSearches
      ensures recentSearches == Without(old(recentSearches), query)
    {
      recentSearches := Without(recentSearches, query);
    }

    /** `search(input)`: `requested` is the keyword sent, None when the
        trimmed keyword is empty; `collected` is what is handed to
        `onItemsCollected`, None when it is not called. */
    method Search(input: Option<string>, reply: Reply<Option<seq<VideoResult>>>, hasListener: bool)
      returns (requested: Option<string>, collected: Option<seq<MonitoringItem>>)
      modifies this`recentSearches, this`results, this`error, this`searched
      ensures requested == NonBlank(input.GetOr(old(searchKeyword)))
      ensures requested.None? ==>
        && error == Some(EmptyKeyword) && collected.None?
        && recentSearches == old(recentSearches) && results == old(results) && searched == old(searched)
      ensures requested.Some? ==>
        && recentSearches == MoveToFront(old(recentSearches), requested.value, MaxRecent)
        && searched
        && results == SearchResults(old(results), reply)
        && error == SearchError(reply)
        && collected == Collected(reply, hasListener)
    {
      requested := NonBlank(input.GetOr(searchKeyword));
      collected := SearchFor(requested, reply, hasListener);
    }

    /** `search` once the trimmed keyword is known (None when it is
        empty). */
    method SearchFor(requested: Option<string>, reply: Reply<Option<seq<VideoResult>>>, hasListener: bool)
      returns (collected: Option<seq<MonitoringItem>>)
      modifies this`recentSearches, this`results, this`error, this`searched
      ensures requested.None? ==>
        && error == Some(EmptyKeyword) && collected.None?
        && recentSearches == old(recentSearches) && results == old(results) && searched == old(searched)
      ensures requested.Some? ==>
        && recentSearches == MoveToFront(old(recentSearches), requested.value, MaxRecent)
        && searched
        && results == SearchResults(old(results), reply)
        && error == SearchError(reply)
        && collected == Collected(reply, hasListener)
    {
      if requested.None? {
        error := Some(EmptyKeyword);
        collected := None;
        return;
      }
      SaveRecent(requested.value);
      collected := Receive(reply, hasListener);
    }

    /** The part of `search` after the request is sent. */
    method Receive(reply: Reply<Option<seq<VideoResult>>>, hasListener: bool) returns (collected: Option<seq<MonitoringItem>>)
      modifies this`results, this`error, this`searched
      ensures searched
      ensures results == SearchResults(old(results), reply)
      ensures error == SearchError(reply)
      ensures collected == Collected(reply, hasListener)
    {
      error := None;
      searched := true;
      collected := None;
      match reply {
        case Ok(items) =>
          results := items.GetOr([]);
          if hasListener && results != [] {
            collected := Some(Map(results, VideoItem));
          }
        case NotOk(_, _) =>
          error := Some(FailureText(reply, SearchFailed));
        case Thrown(_) =>
          error := Some(FailureText(reply, SearchFailed));
      }
    }

    /** `handleClearResults` */
    method ClearResults()
      modifies this`results, this`searched, this`error
      ensures results == [] && !searched && error == None
    {
      results := [];
      searched := false;
      error := None;
    }
  }
}
