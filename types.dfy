/** The records of the monitoring tower (lib/types.ts): YouTube comment
    records, collection jobs and the platform-neutral monitoring item.
    Timestamps that are compared (`updated_at`, `createdAt`) are kept as
    milliseconds since the epoch; timestamps that are only displayed stay
    strings. */
module Types {
  import opened Wrappers

  /** The value of `source` on every comment record. */
  const CommentSource: string := "youtube_api"

  datatype CommentRecord = CommentRecord(
    videoId: string,
    videoUrl: string,
    commentId: string,
    threadId: string,
    parentId: Option<string>,
    isReply: bool,
    authorDisplayName: string,
    authorChannelId: string,
    authorProfileUrl: string,
    textOriginal: string,
    textPlain: string,
    likeCount: int,
    publishedAt: string,
    updatedAt: int,
    fetchedAt: string,
    source: string)

  datatype JobStatus = Queued | Running | Done | Error

  datatype JobProgress = JobProgress(pages: int, comments: int, currentPage: string)

  datatype Job = Job(
    id: string,
    videoId: string,
    videoUrl: string,
    videoTitle: string,
    order: string,
    maxPages: int,
    includeReplies: bool,
    status: JobStatus,
    progress: JobProgress,
    error: Option<string>,
    createdAt: int,
    comments: seq<CommentRecord>)

  /** The negative keywords a results table starts with. */
  const DefaultNegativeKeywords: seq<string> := [
    "사기", "별로", "비추", "쓰레기", "거짓", "환불", "최악", "짜증",
    "속았다", "후회", "광고", "돈 낭비", "실망", "개쓰레기", "폭로"]

  datatype PlatformSource = YouTube | Naver | Google

  datatype MonitoringType = Comment | Blog | Cafe | Web | News | General

  datatype MonitoringItem = MonitoringItem(
    id: string,
    source: PlatformSource,
    kind: MonitoringType,
    title: string,
    content: string,
    author: string,
    authorUrl: Option<string>,
    link: string,
    publishedAt: string,
    matchedKeywords: seq<string>,
    isFlagged: bool)

  function ItemLink(item: MonitoringItem): string
  {
    item.link
  }
}
