# Fitchnic Monitoring Tower — a Dafny model

The Fitchnic Monitoring Tower is a brand-monitoring dashboard. It watches
what is said about a brand (and about the cafes that use its name) on
YouTube, Naver blogs, Naver cafes and Google, and it flags risky content.

This project models its core in Dafny and proves what that core promises:

- **YouTube comment collection.**
  - Recognising a video id in a link (`lib/youtube.ts`).
  - Turning API comments into plain-text records.
  - `fetchWithRetry`: error classification and exponential back-off on 429 and 5xx.
  - `collectComments`: cursor-paged threads, optional reply expansion, a map keyed by comment id, one progress report per page.
- **Collection jobs.**
  - The job routes (`app/api/jobs/route.ts`): validation, the queued → running → done/error transitions, the recency-based upsert of comments and the translation of error codes.
  - The in-memory job store (`lib/job-store.ts`).
- **Search routes.**
  - Naver blog and cafe search: `app/api/naver/search/route.ts` and `app/api/naver/cafe/route.ts`.
  - Google search through SerpAPI: `app/api/google/search/route.ts`.
  - What they do: parameter checks and clamping, markup stripping, link normalisation, bounded paging, first-seen deduplication by link.
- **Scoring and query building**: `lib/risk-score.ts` and `lib/query-packs.ts`.
- **Client components.** Each one is a class whose fields are the component's state and whose methods are its handlers.
  - Components: the unified scan, the Google, Naver blog, Naver cafe, YouTube and YouTube-title tabs, the results table, the unified list, the timeline feed, the job history and the search bar.
  - What they do: most-recently-used histories, keyword matching and negative-keyword flagging, link deduplication, category filters, "show more" counters, merges and the job-list rules.

## How the model is built

The model has one module per source file. Behaviour shared by several
files is defined once:

- `Text`, `Seqs` and `OrderedMap` model the JavaScript primitives the code relies on: `trim`, `split`, `includes`, `parseInt`, `Map` insertion order and the `Set`-based first-seen filter.
- `Recent` models the history.
- `KeywordMatch` models the matchers.
- `SourceBadge` models the host-name badges.
- `Tabs` models the per-keyword paging.

Methods that loop in the source are `while` loops, proved against a
function that specifies them. Lemmas then prove the source's promises
about that function: no duplicate ids, bounded page counts, round trips,
idempotent merges, and so on.

Everything outside the program is a parameter:

- the network (each upstream is a function from the request, or the attempt number, to its reply);
- `new URL` (a function from the string to its parts, `None` when it throws);
- the clock;
- `localStorage` (`Option` of the stored list);
- the random part of a job id.

Two facts about the code:

- The final `throw new Error("MAX_RETRIES_EXCEEDED")` after the retry loop (lib/youtube.ts:228) is unreachable. A retryable status on the last attempt already throws `API_ERROR`. `Retry.FetchWithRetry` proves it.
- `processJob` sets `running` without checking the current status (app/api/jobs/route.ts:94), and the model does the same.

## Model

| member | source | states |
|---|---|---|
| RiskScore.Matched | lib/risk-score.ts:29-42 | the words of a list found in the lowered text, in list order; never more than the list |
| RiskScore.Tagged | lib/risk-score.ts:32 | each reason is its prefix followed by the word, one per word found |
| RiskScore.Clamp100 | lib/risk-score.ts:52 | the clamped score lies in 0..100, equals the raw score inside that range, is 0 below it and 100 above it |
| RiskScore.MatchedSnoc | lib/risk-score.ts:29-34 | one more loop step appends the word exactly when the text contains its lowered form |
| RiskScore.TaggedSnoc | lib/risk-score.ts:32 | pushing one more reason appends exactly that word's tag |
| RiskScore.Tally | lib/risk-score.ts:29-42 | a word loop adds one per found word and pushes the found words' tags in list order |
| RiskScore.Score | lib/risk-score.ts:23-50 | the unclamped score is 10 plus 15 per attack word, minus 8 per inquiry word, plus 35 on a target-cafe hit; the reasons are the attack tags, the inquiry tags, then `target_cafe` |
| RiskScore.ScoreRisk | lib/risk-score.ts:19-58 | the score lies in 0..100 and is the clamped raw score; HIGH exactly when it is at least 70, MED exactly when 40..69, LOW exactly below 40 |
| RiskScore.TargetHitCases | lib/risk-score.ts:45-46 | with no target list (or an empty one) nothing is a hit; an empty target URL is contained in every link |
| RiskScore.QuietItem | lib/risk-score.ts:25-55 | an item with no listed word and no target hit scores exactly 10, LOW, with no reasons |
| RiskScore.NoneMatched | lib/risk-score.ts:29-42 | when the text contains none of the words, none is matched |
| RiskScore.LevelFloors | lib/risk-score.ts:44-55 | without inquiry words a target-cafe hit is never LOW, and four attack words make it HIGH |
| RiskScore.RawScoreBounds | lib/risk-score.ts:25-52 | consequence of `RiskScore.Score`: the raw score lies between -54 and 255 before the clamp |
| QueryPacks.Quote | lib/query-packs.ts:15 | a quoted word is the word between two double quotes |
| QueryPacks.Paired | lib/query-packs.ts:32 | one query per word, in order, each the quoted brand, a space and the quoted word |
| QueryPacks.QuoteAll | lib/query-packs.ts:15 | one quoted word per word, in order |
| QueryPacks.JoinContainsParts | lib/query-packs.ts:15 | every part of an `OR`-join occurs in the joined text |
| QueryPacks.OrQueryNames | lib/query-packs.ts:14-17 | each modifier occurs quoted in the OR query |
| QueryPacks.OrQueryShape | lib/query-packs.ts:14-17 | the OR query starts with the quoted brand and an opening parenthesis, ends with the closing one, and names every word in quotes |
| QueryPacks.GoogleRiskQueryShape | lib/query-packs.ts:14-17 | the Google risk query starts with the quoted brand and names all seventeen modifiers |
| QueryPacks.SocialQueries | lib/query-packs.ts:20-25 | two queries, the first scoped to instagram.com and the second to threads.net |
| QueryPacks.NaverQueries | lib/query-packs.ts:28-34 | five queries: the quoted brand alone, then the brand paired with each of the four top risk words in order |
| QueryPacks.QueryPackCounts | lib/query-packs.ts:37-56 | three packs: the quoted brand alone, the brand paired with each of six risk words, and the social queries |
| QueryPacks.RiskModifierCount | lib/query-packs.ts:8-11 | seventeen modifiers, pairwise distinct |
| YouTube.PathToken | lib/youtube.ts:27-30 | a `/shorts/`, `/embed/` or `/v/` path yields only an 11-character id token |
| YouTube.ParseVideoIdResult | lib/youtube.ts:9-42 | empty input gives null; every id returned is an 11-character token except the `v` value of a `/watch` URL on a YouTube host, which is passed through unchecked |
| YouTube.ParseBareId | lib/youtube.ts:12-15 | a bare id, with or without surrounding white space, is returned trimmed without parsing a URL |
| YouTube.StripWwwPrefix | lib/youtube.ts:19 | removing the first "www." from "www." + host gives the host back |
| YouTube.ParseOtherHost | lib/youtube.ts:17-41 | a parsable URL on any other host gives null rather than an error |
| YouTube.StripWwwNoW | lib/youtube.ts:19 | a host without "w" is unchanged by the "www." removal |
| YouTube.ParseWatch | lib/youtube.ts:23-25 | a `www.youtube.com/watch` URL yields its `v` value as is |
| YouTube.StripWwwYouTube | lib/youtube.ts:19 | `www.youtube.com` is read as `youtube.com` |
| YouTube.FromYouTubePath | lib/youtube.ts:21-31 | on a YouTube host any path but `/watch` is read by the path pattern alone |
| YouTube.FromShortLinkHost | lib/youtube.ts:33-36 | on `youtu.be` the path after its slash is the id when it is a token, and null otherwise |
| YouTube.ParseShorts | lib/youtube.ts:26-30 | `m.youtube.com/shorts/<id>...` yields the id |
| YouTube.ParseEmbed | lib/youtube.ts:26-30 | `youtube.com/embed/<id>...` yields the id |
| YouTube.EmbedPathToken | lib/youtube.ts:27-30 | the embed prefix is recognised and the id after it read |
| YouTube.ParseShortLink | lib/youtube.ts:33-36 | `youtu.be/<id>` yields the id |
| YouTube.SpaceRun | lib/youtube.ts:46 | the `\s*` of the line-break pattern matches the whole leading run of white space |
| YouTube.BrLen | lib/youtube.ts:46 | a line-break match starts with `<`, ends with `>` and is at least four characters long |
| YouTube.IndexOf | lib/youtube.ts:47 | the first occurrence of a character, or -1 exactly when it is absent |
| YouTube.RemoveTagsLeavesNoTag | lib/youtube.ts:47 | after tag removal no `<` is followed later by a `>`; text without `>` is unchanged; no character is added |
| YouTube.RemoveTagsChars | lib/youtube.ts:47 | tag removal only deletes characters |
| YouTube.RemoveTagsNoClose | lib/youtube.ts:47 | without a `>` there is no tag to remove |
| YouTube.RemoveTagsNoLt | lib/youtube.ts:47 | without a `<` there is no tag to remove |
| YouTube.BrToNewlineNoLt | lib/youtube.ts:46 | without a `<` there is no line break to replace |
| YouTube.SpaceRunPrefix | lib/youtube.ts:46 | a run of white space followed by anything else is matched whole by `\s*` |
| YouTube.BrMatch | lib/youtube.ts:46 | every line break `<br>`, `<br/>`, `<br />` in any letter case and with any white space before the optional `/` becomes one newline, the rest of the text converted on |
| YouTube.DecodeNoAmp | lib/youtube.ts:48-52 | without a `&` there is no entity to decode |
| YouTube.StripHtmlPlain | lib/youtube.ts:44-53 | text with no markup and no entity comes through unchanged |
| YouTube.BrExample | lib/youtube.ts:46 | illustration of `YouTube.BrMatch`: `<br>` becomes a newline |
| YouTube.BrSelfClosingExample | lib/youtube.ts:46 | illustration of `YouTube.BrMatch`: an upper-case self-closing `<BR />` becomes a newline |
| YouTube.TagExample | lib/youtube.ts:47 | illustration: other tags vanish with their brackets |
| YouTube.DoubleDecodeExample | lib/youtube.ts:48-49 | `&amp;` is decoded first, so `&amp;lt;` ends as `<` |
| YouTube.MapCommentSpec | lib/youtube.ts:167-192 | the record keeps the comment id, is a reply exactly when it has a parent, defaults a missing channel id and URL to "", has source `youtube_api`, and keeps plain display text as its plain text |
| Retry.RetryOnlyOnThrottleOrServerError | lib/youtube.ts:200-223 | a reply that arrived is retried exactly when its status is 429 or at least 500 and attempts remain; a rejected request is never retried |
| Retry.DecideClasses | lib/youtube.ts:200-226 | a rejected request rethrows its own error; only an ok reply is returned; a 403 throws, as API_FORBIDDEN exactly when the reason is none of the three known ones; a 404 is VIDEO_NOT_FOUND; any other failure on the last attempt is API_ERROR with its status and body |
| Retry.FetchWithRetry | lib/youtube.ts:194-229 | one to retries+1 attempts, every one but the last retried; the result is the last reply or its error; MAX_RETRIES_EXCEEDED never occurs; the sleeps double from the base delay |
| Retry.FetchWithDefaults | lib/youtube.ts:196-197 | with the defaults there are at most four requests, sleeping 1000, 2000 and 4000 ms in turn |
| Collect.Put | lib/youtube.ts:269 | setting a record keeps the map keyed by comment id and never shrinks it; a top-level record keeps a reply-free map reply-free |
| Collect.PutAll | lib/youtube.ts:273-276 | setting the replies keeps the map keyed by comment id and never shrinks it |
| Collect.ExpandReplies | lib/youtube.ts:281-303 | paging the reply endpoint keeps the map keyed by comment id and never shrinks it |
| Collect.AddThread | lib/youtube.ts:263-304 | one thread keeps the map keyed by comment id and never shrinks it |
| Collect.AddThreads | lib/youtube.ts:263-305 | the threads of a page, stopping at the first error, keep the map keyed by comment id and never shrink it |
| Collect.VisitPage | lib/youtube.ts:260-313 | a page reports its number and the map size after it, unless it failed; the walk goes on exactly when the page succeeded, has a next token and the page cap is not reached, and stops on a failed page, a missing next token or the cap |
| Collect.Walk | lib/youtube.ts:250-314 | a successful walk ends with a map keyed by comment id |
| Collect.WalkStaysInListing | lib/youtube.ts:307-313 | when the listing ends with a failed page or one without a next token, the walk never runs past the end of the listing |
| Collect.PutComments | lib/youtube.ts:273-276 | the reply loop sets exactly the records of its specification |
| Collect.PageReplies | lib/youtube.ts:283-302 | the reply-endpoint loop gives exactly the map of its specification |
| Collect.ProcessThread | lib/youtube.ts:264-304 | one thread's body gives exactly the map of its specification |
| Collect.ProcessThreads | lib/youtube.ts:263-305 | the thread loop gives exactly the map of its specification |
| Collect.ProcessPage | lib/youtube.ts:260-311 | one page-loop turn gives exactly the outcome of its specification |
| Collect.CollectComments | lib/youtube.ts:241-317 | the collection returns the walk's records, progress reports and request count |
| Collect.ValuesDistinctIds | lib/youtube.ts:245 | the records of the map never share a comment id |
| Collect.CollectedIdsDistinct | lib/youtube.ts:241-317 | a successful collection returns records with pairwise distinct ids |
| Collect.WalkPageNumbers | lib/youtube.ts:307-308 | progress reports number the pages 1, 2, 3, ... |
| Collect.WalkCounts | lib/youtube.ts:307-308 | reported comment counts never decrease, and a successful walk ends at the size of its last report |
| Collect.WalkCapped | lib/youtube.ts:310-311 | with a positive cap the walk requests at most the cap's number of thread pages |
| Collect.CollectCapped | lib/youtube.ts:310-311 | a capped collection requests and reports at most `maxPages` pages |
| Collect.AddThreadWithoutReplies | lib/youtube.ts:268-272 | without `includeReplies` a thread adds its top comment only and the reply endpoint is never consulted |
| Collect.ReplyListingIgnored | lib/youtube.ts:272-281 | the reply endpoint is consulted only when more than five replies are missing from the inline ones |
| Collect.ThreadsTopLevelOnly | lib/youtube.ts:263-272 | without `includeReplies` no reply is recorded from a page |
| Collect.WalkTopLevelOnly | lib/youtube.ts:250-314 | without `includeReplies` no reply is ever recorded |
| Collect.SinglePage | lib/youtube.ts:307-310 | a single page without a next token ends the walk after one request and one report |
| JobStore.Insert | lib/job-store.ts:18-20 | one insertion step of the newest-first sort keeps the same jobs (as a multiset) |
| JobStore.InsertNotAfter | lib/job-store.ts:18-20 | inserting a job no newer than a bound into a list no newer than it keeps the bound |
| JobStore.InsertNewestFirst | lib/job-store.ts:18-20 | inserting into a newest-first list keeps it newest first |
| JobStore.SortNewestFirst | lib/job-store.ts:18-20 | the sorted list is newest first and a permutation of its input |
| JobStore.InsertStable | lib/job-store.ts:18-20 | insertion keeps the relative order of jobs created at the same time |
| JobStore.SortStable | lib/job-store.ts:18-20 | the sort is stable: jobs with equal `createdAt` keep their order |
| JobStore.SortSorted | lib/job-store.ts:18-20 | a list that is already newest first is returned unchanged |
| JobStore.Store.constructor | lib/job-store.ts:7 | the store starts empty |
| JobStore.Store.GetJob | lib/job-store.ts:9-11 | a job is found exactly when its id is stored, and the job found carries that id |
| JobStore.Store.SetJob | lib/job-store.ts:13-15 | the job is stored under its id, replacing one of the same id; every other id keeps its job |
| JobStore.Store.AllJobs | lib/job-store.ts:17-21 | the list is newest first, is a permutation of the stored jobs, and holds exactly the jobs stored under some id |
| JobsRoute.Index | app/api/jobs/route.ts:121 | indexing the job's records by id keeps the map's key list and values consistent |
| JobsRoute.IndexKeys | app/api/jobs/route.ts:121 | the ids are kept in order of first occurrence: those already held, then each new id where it first appears |
| JobsRoute.IndexIds | app/api/jobs/route.ts:121 | an id is held after indexing exactly when it was held before or some record carries it |
| JobsRoute.IndexLast | app/api/jobs/route.ts:121 | each id ends with the last record that carries it |
| JobsRoute.IndexUntouched | app/api/jobs/route.ts:121 | an id no record carries keeps its value |
| JobsRoute.Upsert | app/api/jobs/route.ts:122-127 | the upsert loop keeps the map's key list and values consistent |
| JobsRoute.Merge | app/api/jobs/route.ts:121-128 | the loop computes the upserted comment list of the merge specification |
| JobsRoute.UpsertOneKeys | app/api/jobs/route.ts:123-126 | one record's step leaves exactly the previous ids plus its own |
| JobsRoute.UpsertIds | app/api/jobs/route.ts:122-127 | an id is held after the loop exactly when it was held before or some record carries it |
| JobsRoute.UpsertNewest | app/api/jobs/route.ts:122-127 | every id ends with a record at least as new as the one held before and as every record offered for it |
| JobsRoute.UpsertOrigin | app/api/jobs/route.ts:122-127 | every record held afterwards is the one held before or one of the offered records |
| JobsRoute.UpsertCovered | app/api/jobs/route.ts:122-127 | records no newer than those held change nothing |
| JobsRoute.UpsertIdempotent | app/api/jobs/route.ts:122-127 | upserting the same records a second time changes nothing |
| JobsRoute.UpsertKeys | app/api/jobs/route.ts:122-127 | the upsert keeps the ids held and appends each new id where it first appears |
| JobsRoute.UpsertUntouched | app/api/jobs/route.ts:122-127 | an id no offered record carries keeps its record |
| JobsRoute.UpsertFreshStep | app/api/jobs/route.ts:123-126 | a record with a new id is appended last and the later records still have new ids |
| JobsRoute.UpsertFresh | app/api/jobs/route.ts:122-128 | records with pairwise distinct new ids are appended in their order |
| JobsRoute.MergeIntoEmpty | app/api/jobs/route.ts:118-128 | a job without comments ends with exactly the collected records |
| JobsRoute.ValueIds | app/api/jobs/route.ts:128 | the values listed from the map carry its ids in key order |
| JobsRoute.IndexedIds | app/api/jobs/route.ts:121 | indexing a list lists its ids in order of first occurrence, and holds exactly its ids |
| JobsRoute.MergeSpec | app/api/jobs/route.ts:118-128 | the merged list has distinct ids: the stored ids in order of first occurrence, then the new collected ids in order of first occurrence; it holds exactly the ids of both lists |
| JobsRoute.MergeNewest | app/api/jobs/route.ts:118-128 | every collected record's id is in the merged list with a record at least as new |
| JobsRoute.MergeRecords | app/api/jobs/route.ts:118-128 | a stored record that is the last of its id and whose id was not collected again is kept as it is |
| JobsRoute.IndexFresh | app/api/jobs/route.ts:121 | indexing records with pairwise distinct new ids appends them in order |
| JobsRoute.ValuesDetermine | app/api/jobs/route.ts:121-128 | a map keyed by id is determined by its list of values, so re-indexing a stored merge gives back its map |
| JobsRoute.MergeIdempotent | app/api/jobs/route.ts:118-128 | merging the same collected records again into the stored merged list changes nothing |
| JobsRoute.TranslateFetchError | app/api/jobs/route.ts:136-147 | the message a job shows for each error the YouTube client throws; an arbitrary thrown error gets the collection-error prefix exactly when its message is not one of the recognised codes |
| JobsRoute.TranslateDisabled | app/api/jobs/route.ts:137-138 | `COMMENTS_DISABLED` becomes the comments-disabled message |
| JobsRoute.TranslateQuota | app/api/jobs/route.ts:139-140 | `QUOTA_EXCEEDED` becomes the daily-quota message |
| JobsRoute.TranslateNotFound | app/api/jobs/route.ts:141-142 | `VIDEO_NOT_FOUND` becomes the video-not-found message |
| JobsRoute.TranslateForbidden | app/api/jobs/route.ts:143-144 | a message starting `API_FORBIDDEN` is shown after the access-denied prefix |
| JobsRoute.TranslateApiError | app/api/jobs/route.ts:145 | a message starting `API_ERROR` is shown after the API-error prefix |
| JobsRoute.TranslateOther | app/api/jobs/route.ts:136-147 | a message is shown after the collection-error prefix exactly when it is none of the three codes and starts with neither `API_FORBIDDEN` nor `API_ERROR` |
| JobsRoute.TranslateNetworkFailure | app/api/jobs/route.ts:146 | a rejected request's own message (lib/youtube.ts:200) is shown after the collection-error prefix |
| JobsRoute.AcceptedJob | app/api/jobs/route.ts:9-50 | an accepted request had a non-empty string URL naming a video; the new job carries the id, URL, time and video id, a title (the fetched one when non-empty), the defaults `time`, 5 and no replies, status queued, zero progress and no comments |
| JobsRoute.RejectionOrder | app/api/jobs/route.ts:11-32 | a missing or non-string URL is a 400 first, an unparsable one a 400 next, and a 500 for the key only after both; a job is accepted exactly when the URL parses to a non-empty id and the key is set |
| JobsRoute.Post | app/api/jobs/route.ts:6-64 | an accepted request stores the new job under its id and replies with the id; a rejected one stores nothing and replies with the rejection |
| JobsRoute.ProcessJob | app/api/jobs/route.ts:55-62 | a job no longer stored is left alone; otherwise the stored job becomes the processed job and nothing else changes |
| JobsRoute.ApplyReports | app/api/jobs/route.ts:105-115 | each progress report in turn replaces the stored job's progress |
| JobsRoute.ReportStep | app/api/jobs/route.ts:108-112 | one more report shows its page and comment count |
| JobsRoute.SettleJob | app/api/jobs/route.ts:118-133 | the stored job is settled with the collection's outcome, the other jobs unchanged |
| JobsRoute.ProcessedJobSettles | app/api/jobs/route.ts:90-133 | processing keeps the job's identity and options; it ends done exactly when collection succeeded (counting its comments, page `수집 완료`) and error exactly when it failed (the translated message, comments kept) |
| JobsRoute.ProcessedJobProgress | app/api/jobs/route.ts:105-131 | the last progress report's page count shows in the job, and its whole report on failure |
| JobsRoute.SettledProgress | app/api/jobs/route.ts:55-62 | settling keeps the page count shown, and a failure keeps the whole progress |
| JobsRoute.FreshJobResult | app/api/jobs/route.ts:118-132 | a fresh job that finishes holds exactly the collected comments, with distinct ids, and counts them |
| JobsRoute.ListOrder | app/api/jobs/route.ts:73-88 | the listing has one summary per stored job, newest first |
| JobsRoute.ListSound | app/api/jobs/route.ts:73-88 | every listed summary is that of a stored job |
| JobsRoute.ListComplete | app/api/jobs/route.ts:73-88 | every stored job's summary is listed |
| NaverSearch.StripHtml | app/api/naver/search/route.ts:22-32 | the cleaned text never starts or ends with white space |
| NaverSearch.DecodeNoAmp | app/api/naver/search/route.ts:25-30 | text without an ampersand has no entity to decode |
| NaverSearch.StripHtmlPlain | app/api/naver/search/route.ts:22-32 | text with no tag and no entity is only trimmed |
| NaverSearch.ReplaceMisses | app/api/naver/search/route.ts:26-30 | `replaceAll` leaves text alone when the pattern cannot start anywhere in it |
| NaverSearch.DecodeEscapedLt | app/api/naver/search/route.ts:28-29 | `&lt;` is decoded after `&amp;`, so `&amp;lt;` decodes all the way to `<` |
| NaverSearch.EscapedLtUntouched | app/api/naver/search/route.ts:26-27 | the quote entities do not occur in `&amp;lt;` |
| NaverSearch.LtAfterAmp | app/api/naver/search/route.ts:28 | decoding `&amp;` turns `&amp;lt;` into `&lt;` |
| NaverSearch.LtDecoded | app/api/naver/search/route.ts:29 | `&lt;` decodes to `<` |
| NaverSearch.DecodeEscapedQuot | app/api/naver/search/route.ts:26-28 | `&quot;` is decoded before `&amp;`, so `&amp;quot;` decodes only to `&quot;` |
| NaverSearch.EscapedQuotUntouched | app/api/naver/search/route.ts:26-27 | the quote entities do not occur in `&amp;quot;` |
| NaverSearch.QuotUntouched | app/api/naver/search/route.ts:29-30 | the angle-bracket entities do not occur in `&quot;` |
| NaverSearch.QuotAfterAmp | app/api/naver/search/route.ts:28 | decoding `&amp;` turns `&amp;quot;` into `&quot;` |
| NaverSearch.ClampAsWritten | app/api/naver/search/route.ts:71 | the clamp as written is NaN exactly when its input is, and otherwise lies within the bounds |
| NaverSearch.ClampLetsNaNThrough | app/api/naver/search/route.ts:38-71 | a non-numeric `start` stays NaN through the clamp as written |
| NaverSearch.Clamp | app/api/naver/search/route.ts:71 | the intended clamp always lies within the bounds, agrees with the written one on numbers, keeps a number in range, and reads NaN as the default |
| NaverSearch.RelativeShape | app/api/naver/search/route.ts:98-99 | a protocol-relative link with the https scheme is absolute and trimmed |
| NaverSearch.BareShape | app/api/naver/search/route.ts:101 | a bare link with `https://` in front is absolute and trimmed |
| NaverSearch.WithSchemeShape | app/api/naver/search/route.ts:94-101 | completing the scheme of a trimmed link gives a trimmed absolute URL |
| NaverSearch.AbsoluteUrlShape | app/api/naver/search/route.ts:92-102 | only the empty link maps to the empty string; any other becomes an http(s) URL without surrounding white space |
| NaverSearch.AbsoluteUrlIdempotent | app/api/naver/search/route.ts:92-102 | absolutising twice is absolutising once |
| NaverSearch.RelativeScheme | app/api/naver/search/route.ts:98-99 | a trimmed protocol-relative link gets `https:` in front |
| NaverSearch.ProtocolRelative | app/api/naver/search/route.ts:92-100 | a link whose trimmed form starts `//` becomes that form after `https:` |
| NaverSearch.FormatPostDate | app/api/naver/search/route.ts:139-147 | an eight-character date becomes `YYYY-MM-DDT00:00:00.000Z` holding its digits in order; any other length gives the current time |
| NaverSearch.RequestParams | app/api/naver/search/route.ts:68-72 | the corrected upstream request asks for the keyword, 100 results by date, from a start in 1..1000 that echoes a numeric start inside that range |
| NaverSearch.StartSentAsWrittenSpec | app/api/naver/search/route.ts:38-71 | as written, the upstream URL carries `start=NaN` exactly when `start` is not numeric, and otherwise the corrected request's start |
| NaverSearch.ToItems | app/api/naver/search/route.ts:104-119 | one result per upstream item, in upstream order |
| NaverSearch.AuthorFields | app/api/naver/search/route.ts:110-116 | a blog result takes its author from the blogger fields only and a cafe result from the cafe fields only; a missing one gives an empty author |
| NaverSearch.ResultLinks | app/api/naver/search/route.ts:117 | a result link is empty exactly when the upstream link is, and absolute otherwise |
| NaverSearch.SearchChecks | app/api/naver/search/route.ts:34-126 | a missing keyword is a 400, then missing credentials a 500, then a type other than blog or cafe a 400 (exactly then); a listing is echoed with one result per item, each of the requested type, and a missing type searches blogs |
| NaverCafe.Display | app/api/naver/cafe/route.ts:79 | the page size always lies in 1..100 (with NaN read as the default 30) |
| NaverCafe.Start | app/api/naver/cafe/route.ts:80 | the start always lies in 1..1000 (with NaN read as the default 1) |
| NaverCafe.DisplayNaNAsWritten | app/api/naver/cafe/route.ts:16-18 | as written, a non-numeric `display` stays NaN through the clamp |
| NaverCafe.SentAsWrittenSpec | app/api/naver/cafe/route.ts:16-80 | as written, `display` and `start` reach the upstream URL as `NaN` exactly when they are not numeric, and otherwise as the corrected values |
| NaverCafe.NumericParams | app/api/naver/cafe/route.ts:79-80 | a numeric display in 1..100 and a start in 1..1000 are kept; a larger start becomes 1000 |
| NaverCafe.DisplayDefault | app/api/naver/cafe/route.ts:79 | illustration of `NaverCafe.Display`: a missing display gives 30 |
| NaverCafe.StartDefault | app/api/naver/cafe/route.ts:80 | illustration of `NaverCafe.Start`: a missing start gives 1 |
| NaverCafe.Sort | app/api/naver/cafe/route.ts:81 | the sort is `sim` exactly when the parameter lowercases to `sim`, and `date` otherwise |
| NaverCafe.SortCases | app/api/naver/cafe/route.ts:81 | illustration of `NaverCafe.Sort`: no parameter sorts by date, `SIM` by similarity, `Date` by date |
| NaverCafe.FullNameShape | app/api/naver/cafe/route.ts:66 | the full cafe name has no bracket and no surrounding white space |
| NaverCafe.BrandWordShape | app/api/naver/cafe/route.ts:68 | the brand word starts the full name, holds no white space, and is empty exactly when the name is |
| NaverCafe.OneWordName | app/api/naver/cafe/route.ts:68 | a one-word name is its own brand word |
| NaverCafe.FirstInCafe | app/api/naver/cafe/route.ts:61-63 | nothing is found exactly when no item's cafe URL contains the id; a found item is one of the items and of that cafe |
| NaverCafe.FirstInCafeIsFirst | app/api/naver/cafe/route.ts:61-63 | the item found comes before every other item of the cafe |
| NaverCafe.ResolvedNames | app/api/naver/cafe/route.ts:53-73 | the names are both empty or a trimmed full name starting with its non-empty brand word; a failed lookup gives empty names |
| NaverCafe.CafeQueries | app/api/naver/cafe/route.ts:125-135 | one to three queries ending with the keyword alone: the brand word with the keyword first when there is one, and the cafe name with the keyword when it differs from the brand word |
| NaverCafe.QueriesForNames | app/api/naver/cafe/route.ts:122-135 | three queries when the name has more than its brand word, two for a one-word name, one when the name is unknown |
| NaverCafe.QueryRequestsBounded | app/api/naver/cafe/route.ts:138-153 | each query asks for at most ten pages of 100 at starts 1, 101, ... in order, all within 1000 |
| NaverCafe.PageStartGuardIdle | app/api/naver/cafe/route.ts:141-143 | the `pageStart > 1000` guard never fires: the tenth page starts at 901 |
| NaverCafe.FullPagesReadAll | app/api/naver/cafe/route.ts:141-152 | a query whose every page is full reads all ten pages, 1000 items |
| NaverCafe.PagesStep | app/api/naver/cafe/route.ts:144-151 | a page's items come first and the next page is read only after a full page |
| NaverCafe.ScanStop | app/api/naver/cafe/route.ts:148-150 | a short page or a failed request ends the query's paging |
| NaverCafe.ScanNext | app/api/naver/cafe/route.ts:145-148 | a full page goes on to the next one |
| NaverCafe.ScanQuery | app/api/naver/cafe/route.ts:139-152 | one query's paging loop collects exactly the pages and requests of its specification |
| NaverCafe.Scan | app/api/naver/cafe/route.ts:137-153 | the loop over the queries collects their pages and requests in query order |
| NaverCafe.NormalLinkVariants | app/api/naver/cafe/route.ts:167 | the same page under either scheme, with or without a trailing slash, has the same link key |
| NaverCafe.CafeMatchesSound | app/api/naver/cafe/route.ts:155-173 | every kept item is of the cafe, mentions the keyword and has a non-empty link key; keys are distinct and the kept items keep scan order |
| NaverCafe.CafeMatchesComplete | app/api/naver/cafe/route.ts:155-173 | every scanned item of the cafe that mentions the keyword has its non-empty link key among the kept ones |
| NaverCafe.ToResults | app/api/naver/cafe/route.ts:107-119 | one result per kept item, in order |
| NaverCafe.Get | app/api/naver/cafe/route.ts:75-215 | the corrected handler (non-numeric paging parameters read as their defaults), with its paging loops and `seen` filter, replies as the route's specification says |
| NaverCafe.RespondSpec | app/api/naver/cafe/route.ts:78-215 | an absent or empty keyword is a 400 (a present empty `keyword` is not replaced by `query`), then a missing or empty client id or secret a 500; cafe mode reports the kept count as total and a cafe name exactly when one was resolved; general mode reports the upstream total when present |
| GoogleSearch.NumberOr | app/api/google/search/route.ts:77-78 | a parsed non-zero number is used; an absent, empty, non-numeric or zero parameter gives the default |
| GoogleSearch.StartOf | app/api/google/search/route.ts:77 | the offset is never negative |
| GoogleSearch.NumOf | app/api/google/search/route.ts:78 | the page size always lies in 5..100 |
| GoogleSearch.ParamDefaults | app/api/google/search/route.ts:77-78 | a missing, empty or non-numeric parameter gives offset 0 and page size 10 |
| GoogleSearch.NumberOrDefault | app/api/google/search/route.ts:77-78 | a missing, empty or non-numeric parameter falls back to the default |
| GoogleSearch.ParamNumber | app/api/google/search/route.ts:77-78 | a number is the offset as is; as page size it is moved into 5..100, except that 0 reads as 10 |
| GoogleSearch.ParamNegative | app/api/google/search/route.ts:77-78 | a negative number gives offset 0 and page size 5 |
| GoogleSearch.StoriesMember | app/api/google/search/route.ts:197-203 | top stories given as an object are exactly the stories of its array values |
| GoogleSearch.Collector.constructor | app/api/google/search/route.ts:116-117 | the collector starts with no items and no seen links |
| GoogleSearch.Collector.Push | app/api/google/search/route.ts:119-124 | an empty or already seen link is ignored; otherwise the link is remembered and the item appended |
| GoogleSearch.PushOrganic | app/api/google/search/route.ts:142-176 | the organic results, each followed by its sitelinks, are pushed in order |
| GoogleSearch.PushResult | app/api/google/search/route.ts:143-175 | one organic result is pushed, then its sitelinks |
| GoogleSearch.PushSitelinks | app/api/google/search/route.ts:157-175 | the inline then expanded sitelinks of a result are pushed in order |
| GoogleSearch.PushSitelink | app/api/google/search/route.ts:161-174 | a sitelink without a link is skipped; otherwise it is pushed |
| GoogleSearch.PushProfiles | app/api/google/search/route.ts:178-195 | the knowledge-graph profiles with a link are pushed in order |
| GoogleSearch.PushStories | app/api/google/search/route.ts:205-219 | the top stories with a link are pushed in order |
| GoogleSearch.PushImages | app/api/google/search/route.ts:221-236 | the inline images with a source or link are pushed in order |
| GoogleSearch.Collect | app/api/google/search/route.ts:116-236 | the collected items are those of the section-by-section specification |
| GoogleSearch.Get | app/api/google/search/route.ts:73-257 | the handler replies as the route's specification says |
| GoogleSearch.SectionRanks | app/api/google/search/route.ts:126-236 | answer box, organic results with sitelinks, profiles, top stories and images come as sections 0 to 4 |
| GoogleSearch.SameRank | app/api/google/search/route.ts:126-236 | a section whose items share one rank is in order |
| GoogleSearch.CandidatesOrdered | app/api/google/search/route.ts:126-236 | the pushed candidates come section by section |
| GoogleSearch.ItemsSpec | app/api/google/search/route.ts:116-236 | every kept item has a non-empty link, links are distinct, exactly the non-empty candidate links are kept, and the items keep candidate and section order |
| GoogleSearch.AnswerFirst | app/api/google/search/route.ts:126-140 | an answer box with a link is the first item |
| GoogleSearch.SnippetOnlyAnswerDropped | app/api/google/search/route.ts:126-140 | an answer box with a snippet but no link passes the guard yet never appears, since `push` drops empty links |
| GoogleSearch.OrganicGroupShape | app/api/google/search/route.ts:143-175 | an organic result is followed by its inline and then its expanded sitelinks, numbered on from the inline ones |
| GoogleSearch.RespondSpec | app/api/google/search/route.ts:73-257 | no keyword is a 400, then no key a 500; an upstream error keeps its status; a listing has total equal to its item count and the page size and offset it asked for |
| KeywordMatch.Normalise | components/unified-scan.tsx:50-52 | the normal form holds no white space and no upper-case letter |
| KeywordMatch.NormaliseAppend | components/unified-scan.tsx:50-52 | normalising distributes over concatenation |
| KeywordMatch.NormaliseIdempotent | components/unified-scan.tsx:50-52 | normalising twice is normalising once |
| KeywordMatch.FlexibleBlankKeyword | components/unified-scan.tsx:54-56 | a keyword made only of white space, the empty one included, matches every text |
| KeywordMatch.VerbatimMatches | components/unified-scan.tsx:54-56 | a keyword that occurs verbatim in the text also matches flexibly |
| KeywordMatch.FlexibleNormalised | components/unified-scan.tsx:54-56 | a text and a keyword match exactly when their normal forms do |
| KeywordMatch.MatchesAnyCases | components/unified-scan.tsx:58-60 | no keyword matches nothing; a blank keyword matches everything; a verbatim occurrence is enough |
| KeywordMatch.MatchAllSpec | components/naver-tab.tsx:77-80 | the negative keywords listed are exactly those whose lowercase form the lowercased text contains, in list order |
| KeywordMatch.MatchAllAny | components/naver-tab.tsx:77-80 | the list is non-empty exactly when some keyword is found |
| KeywordMatch.FirstMatchNone | components/results-table.tsx:45-56 | the result is null exactly when no keyword is found in the text |
| KeywordMatch.FirstMatchSpec | components/results-table.tsx:45-56 | the result is the keyword at the lowest index found in the lowercased text, or null when there is none |
| KeywordMatch.NoMatchStep | components/results-table.tsx:50-54 | a keyword not found keeps the scanned prefix free of matches |
| KeywordMatch.FirstHit | components/results-table.tsx:50-54 | the loop stops at the first keyword found, which heads the list of matches |
| KeywordMatch.FindFirstMatch | components/results-table.tsx:45-56 | the loop returns the first keyword found, or null |
| SourceBadge.StripWww | components/google-tab.tsx:72 | only a leading "www." is removed |
| SourceBadge.ParentDomainSuffix | components/google-tab.tsx:74-76 | the parent domain is the host's last two labels, ending the host after a dot |
| SourceBadge.SourceBadgeOf | components/google-tab.tsx:70-83 | a badge found is always an entry of the table |
| SourceBadge.SourceBadgeSpec | components/google-tab.tsx:70-83 | an unparsable link has no badge; a badge is the entry of the host without "www.", or, when the host has none, of a parent domain the host ends with |
| SourceBadge.WwwIgnored | components/google-tab.tsx:72 | a leading "www." makes no difference to the badge |
| SourceBadge.TablesDiffer | components/timeline-feed.tsx:25-31 | only the Google tab's table has a generic `naver.com` entry |
| Recent.MoveToFrontSpec | components/google-tab.tsx:264-270 | the saved query comes first, followed by the other entries in order without its older copy, cut to the cap; a duplicate-free list stays duplicate-free |
| Recent.SaveAll | components/unified-scan.tsx:96-102 | each query in turn moves to the front and the list is cut once at the end |
| Recent.FrontAllSpec | components/unified-scan.tsx:96-102 | before the cut the list is duplicate-free, starts with the last query, and holds exactly the old entries and the queries |
| Tabs.TrimAll | components/google-tab.tsx:316 | every piece is trimmed, in order |
| Tabs.GatherFrom | components/google-tab.tsx:333-339 | the per-keyword loop builds a well-formed keyword map |
| Tabs.GatherFromSucceeds | components/google-tab.tsx:333-339 | the search succeeds exactly when every keyword's reply is ok |
| Tabs.GatherFromGet | components/google-tab.tsx:333-339 | a completed search maps every keyword to the list of its own reply and leaves every other key as it was |
| Tabs.GatherFromFailure | components/google-tab.tsx:333-362 | a failed search carries the error of the first keyword whose reply failed |
| Tabs.GatherFromStep | components/google-tab.tsx:334-338 | one turn of the loop records an ok reply and goes on, or stops with the failure |
| Tabs.FirstPages | components/google-tab.tsx:337 | a completed search shows one page of every keyword |
| Tabs.FirstPagesStep | components/google-tab.tsx:337 | the counts grow one keyword at a time |
| Tabs.SplitKeywordsShape | components/google-tab.tsx:316 | every keyword is non-empty, trimmed and free of commas, and the keywords are the non-empty trimmed pieces in input order |
| Tabs.KeptPiece | components/google-tab.tsx:316 | a kept piece is trimmed and holds no comma |
| Tabs.SplitKeywordsBlank | components/google-tab.tsx:316-321 | blank input yields no keyword |
| Tabs.SplitKeywordsSingle | components/google-tab.tsx:316 | input without a comma is its one trimmed self, unless blank |
| Tabs.VisibleOf | components/google-tab.tsx:502 | an absent or zero count reads as one page, so some rows are always visible |
| Tabs.ShowMoreSpec | components/google-tab.tsx:377-382 | showing more adds one page for that keyword only, starting from one page |
| Tabs.DisplayedSpec | components/google-tab.tsx:502-504 | the rows shown are the first min(length, visible) results, and "more" is offered exactly when some result is hidden |
| Tabs.SumLengthsFlatten | components/google-tab.tsx:417 | the total above the tabs is the number of results held |
| UnifiedScan.ApplyLaws | components/unified-scan.tsx:115-123 | an empty patch changes nothing, a patch applied twice acts once, two patches act as their combination, and a patch setting every field forgets the old state |
| UnifiedScan.ProgressSpec | components/unified-scan.tsx:758-762 | the bar never passes 100 and is full exactly when done; while scanning it is capped at 60, reached exactly at 60 rows; a later stage never shows less |
| UnifiedScan.ToggleFilterSpec | components/unified-scan.tsx:628-634 | toggling a category flips its selection and no other, and toggling twice restores every selection |
| UnifiedScan.ToggleAllSpec | components/unified-scan.tsx:626-642 | "all" clears a full selection and selects everything otherwise |
| UnifiedScan.GoogleQueries | components/unified-scan.tsx:136-142 | each keyword makes four Google requests |
| UnifiedScan.NaverQueriesFor | components/unified-scan.tsx:243-245 | each keyword makes five blog requests |
| UnifiedScan.QueriesBelong | components/unified-scan.tsx:136-142 | a keyword's requests carry that keyword as their base |
| UnifiedScan.PlansBelong | components/unified-scan.tsx:136-142 | every request of every plan belongs to a searched keyword |
| UnifiedScan.PlanSizes | components/unified-scan.tsx:136-142 | there are four Google requests and five blog requests per keyword and one cafe and one YouTube request per keyword |
| UnifiedScan.GooglePlanSize | components/unified-scan.tsx:136-142 | the Google plan has four requests per keyword |
| UnifiedScan.NaverPlanSize | components/unified-scan.tsx:243-268 | the blog plan has five requests per keyword |
| UnifiedScan.TaskRowsBelong | components/unified-scan.tsx:144-165 | a task's rows carry the task's keyword |
| UnifiedScan.RowsBelong | components/unified-scan.tsx:167-168 | every collected row is tagged with the keyword of a task of the plan |
| UnifiedScan.KeptBelong | components/unified-scan.tsx:167-175 | rows kept from a plan of searched keywords belong to searched keywords |
| UnifiedScan.NaverRunSpec | components/unified-scan.tsx:270-282 | the blog scan keeps exactly the links of the rows that mention a keyword, each once, every kept row relevant |
| UnifiedScan.CafeRunSpec | components/unified-scan.tsx:326-335 | the cafe scan keeps every non-empty link once and drops rows without a link |
| UnifiedScan.GoogleRunSpec | components/unified-scan.tsx:167-175 | the Google scan keeps every link of its rows once |
| UnifiedScan.YouTubeRunSpec | components/unified-scan.tsx:217-225 | the YouTube scan keeps every link of its rows once |
| UnifiedScan.RunsBelong | components/unified-scan.tsx:128-341 | every row any platform keeps was searched for one of the keywords |
| UnifiedScan.YouTubeRowKeys | components/unified-scan.tsx:201-213 | two YouTube rows share their link, and their id, exactly when they are of the same video |
| UnifiedScan.RowConverted | components/unified-scan.tsx:151-164 | every row of a route is the scan's conversion of one of the route's items |
| UnifiedScan.RunsCounted | components/unified-scan.tsx:151-316 | cafe rows are Naver cafe items, Google rows Google items, YouTube rows YouTube items, and blog rows Naver items of the type the route gives, so each platform's rows fall under its own summary count |
| UnifiedScan.YouTubeOncePerVideo | components/unified-scan.tsx:201-226 | the YouTube scan keeps each video once: its kept rows have pairwise distinct ids |
| UnifiedScan.Collect | components/unified-scan.tsx:167-168 | the tasks' batches are appended in plan order |
| UnifiedScan.ScanNaver | components/unified-scan.tsx:236-288 | the blog scan returns exactly its run |
| UnifiedScan.ScanCafe | components/unified-scan.tsx:293-341 | the cafe scan returns exactly its run |
| UnifiedScan.ScanGoogle | components/unified-scan.tsx:128-181 | the Google scan returns exactly its run |
| UnifiedScan.ScanYouTube | components/unified-scan.tsx:186-231 | the YouTube scan returns exactly its run |
| UnifiedScan.Grouped | components/unified-scan.tsx:396-402 | there is one group per searched keyword |
| UnifiedScan.GroupedSpec | components/unified-scan.tsx:396-402 | a keyword's group holds exactly the rows tagged with that keyword |
| UnifiedScan.GroupedStep | components/unified-scan.tsx:398-402 | the groups grow one keyword at a time |
| UnifiedScan.Group | components/unified-scan.tsx:396-402 | the grouping loop builds exactly the groups |
| UnifiedScan.RunsForParts | components/unified-scan.tsx:368-385 | each platform's part of the results is its own run |
| UnifiedScan.ScannedSpec | components/unified-scan.tsx:387-402 | the final list holds every link any platform kept, once, and each of its rows lies in its own keyword's group |
| UnifiedScan.DoneStateAfter | components/unified-scan.tsx:177 | a finished platform's state does not depend on its earlier progress |
| UnifiedScan.ReportedBuilt | components/unified-scan.tsx:361-385 | the reset states with each platform's final state written in are the four final states |
| UnifiedScan.FinalStatesSpec | components/unified-scan.tsx:177 | after a scan every platform has a state with a full bar, the rows it collected and the rows it kept |
| UnifiedScan.Updated | components/unified-scan.tsx:115-123 | every platform keeps a state after a patch |
| UnifiedScan.UpdatedSpec | components/unified-scan.tsx:115-123 | a patch changes only its platform's state, and only the fields it sets |
| UnifiedScan.OverwriteState | components/unified-scan.tsx:115-123 | a second write of a platform's state replaces the first |
| UnifiedScan.ScanPlatform | components/unified-scan.tsx:130-177 | one platform's scan returns its run and leaves its state done with the run's counts, the others untouched |
| UnifiedScan.ScanAll | components/unified-scan.tsx:361-394 | after the reset, the four scans and the union once per link give the scanned rows and every platform's final state |
| UnifiedScan.Scanner.constructor | components/unified-scan.tsx:64-80 | the scanner starts idle, with every category selected and every platform waiting |
| UnifiedScan.Scanner.LoadRecent | components/unified-scan.tsx:84-92 | on mount the saved history is restored when present |
| UnifiedScan.Scanner.SaveRecentSearch | components/unified-scan.tsx:94-105 | each query in turn moves to the front of the history, which is then cut to the cap |
| UnifiedScan.Scanner.RemoveRecentSearch | components/unified-scan.tsx:107-113 | every copy of the query leaves the history |
| UnifiedScan.Scanner.UpdatePlatform | components/unified-scan.tsx:115-123 | the platform's state takes the patch's fields and the other platforms keep theirs |
| UnifiedScan.Scanner.HandleScan | components/unified-scan.tsx:346-408 | input without keywords starts nothing; otherwise every keyword is saved, the first is active, every category selected, each keyword's group holds its scanned rows, every platform shows its final state, and all rows are handed on when there is a listener |
| UnifiedScan.Scanner.Run | components/unified-scan.tsx:353-407 | the scan of known keywords ends with exactly the groups, states and handed-on rows of the scanned runs |
| UnifiedScan.Scanner.Publish | components/unified-scan.tsx:355-407 | the grouped rows, the keywords, the platform states and the handed-on rows replace the previous scan's |
| UnifiedScan.CountsSplit | components/unified-scan.tsx:419-422 | no row is counted twice: the four summary counts add up to the rows that are blog, cafe, Google or YouTube rows |
| UnifiedScan.CountsWithin | components/unified-scan.tsx:419-422 | the summary counts add up to at most the rows shown, and to all of them exactly when every row is of one of the four kinds |
| GoogleTab.ExpandedQueriesShape | components/google-tab.tsx:229-237 | seven queries: the keyword as typed, the risk query, the two social queries, then the Brunch, Tistory and Daum site queries |
| GoogleTab.QueryRowsTagged | components/google-tab.tsx:288-300 | every row of a query's task is tagged with the keyword |
| GoogleTab.ExpandedSpec | components/google-tab.tsx:281-312 | the rows are those of the tasks in query order, each link once, every link of every task kept, all tagged with the keyword |
| GoogleTab.ExpandedDistinct | components/google-tab.tsx:305-311 | the expanded rows have each link once |
| GoogleTab.ExpandedAllFail | components/google-tab.tsx:289-299 | a failing query contributes nothing, so when every query fails there are no rows |
| GoogleTab.NoRows | components/google-tab.tsx:302-303 | tasks that all return nothing flatten to nothing |
| GoogleTab.FetchExpanded | components/google-tab.tsx:281-312 | the tasks' rows concatenated in query order, then the `seen` filter, give exactly the expanded rows |
| GoogleTab.MergedSpec | components/google-tab.tsx:389-394 | the old list stays as a prefix, only new rows with unseen links are appended in order, the links become those of both lists, and lists with each link once stay so |
| GoogleTab.MergedDistinct | components/google-tab.tsx:389-394 | merging lists that each have each link once gives such a list |
| GoogleTab.MergeKeepsDistinct | components/google-tab.tsx:389-394 | storing a merged list keeps every keyword's list free of repeated links |
| GoogleTab.MergedKeys | components/google-tab.tsx:389-394 | the links after a merge are the links of both lists |
| GoogleTab.Gathered | components/google-tab.tsx:333-339 | the per-keyword loop yields a well-formed keyword map |
| GoogleTab.GatheredGet | components/google-tab.tsx:333-339 | each searched keyword holds its expanded rows from offset 0 and no other key is present |
| GoogleTab.GatheredDistinct | components/google-tab.tsx:333-339 | every list a search leaves has each link once |
| GoogleTab.CollectedItemsSpec | components/google-tab.tsx:346-361 | one reported Google item per result, in order, with the result's link, unflagged and with no matched keyword |
| GoogleTab.Tab.constructor | components/google-tab.tsx:241-252 | the tab starts with empty fields, no results, no offsets and no error |
| GoogleTab.Tab.LoadRecent | components/google-tab.tsx:254-262 | on mount the saved history is restored when present |
| GoogleTab.Tab.SaveRecent | components/google-tab.tsx:264-270 | the query moves to the front of the history, cut to eight |
| GoogleTab.Tab.RemoveRecent | components/google-tab.tsx:272-278 | every copy of the query leaves the history |
| GoogleTab.Tab.Search | components/google-tab.tsx:314-368 | no keyword only sets the error; otherwise the trimmed input is saved, the search marked, every keyword's expanded rows stored with one page visible and the next request at 50, the first keyword's tab activated and the rows reported when there is a listener |
| GoogleTab.Tab.SearchKeywords | components/google-tab.tsx:318-367 | the same outcome, once the keywords are known |
| GoogleTab.Tab.Finish | components/google-tab.tsx:341-361 | the lists, both per-keyword counters and the active tab are replaced, and the rows are reported when there is a listener |
| GoogleTab.Tab.Gather | components/google-tab.tsx:329-339 | the per-keyword loop yields exactly the gathered rows, one page visible each |
| GoogleTab.Tab.ShowMoreRows | components/google-tab.tsx:377-382 | one more page is shown for that keyword |
| GoogleTab.Tab.LoadMoreFromApi | components/google-tab.tsx:385-405 | the rows at the keyword's offset (50 when unset) are merged into its list and the offset advanced by 50, unless none came back |
| GoogleTab.Tab.ClearResults | components/google-tab.tsx:407-415 | results, keywords, both counters, tab, searched flag and error are all reset |
| NaverTab.KeywordResultsSpec | components/naver-tab.tsx:187-198 | a keyword's list holds only blog posts of the reply, each link once, and every blog link of the reply appears in it |
| NaverTab.Gathered | components/naver-tab.tsx:179-200 | a completed loop yields a well-formed keyword map |
| NaverTab.CollectedItemsSpec | components/naver-tab.tsx:206-221 | one reported Naver item per result, in order, with the result's link and an author URL exactly when the result has one |
| NaverTab.IsDangerSpec | components/naver-tab.tsx:283-287 | a result is flagged exactly when some negative keyword occurs, ignoring case, in its title or content |
| NaverTab.FilteredResultsSpec | components/naver-tab.tsx:280-299 | without the danger filter every result is listed; with it exactly the flagged results, in order, as many as the danger badge counts |
| NaverTab.NextActiveTabSpec | components/naver-tab.tsx:266-274 | no tab is active once no keyword remains; removing the active keyword activates the first remaining one; otherwise the active tab stays |
| NaverTab.Tab.constructor | components/naver-tab.tsx:121-132 | the tab starts with empty fields, no results and no error |
| NaverTab.Tab.LoadRecent | components/naver-tab.tsx:135-143 | on mount the saved history is restored when present |
| NaverTab.Tab.SaveRecent | components/naver-tab.tsx:145-151 | the query moves to the front of the history, cut to eight |
| NaverTab.Tab.RemoveRecent | components/naver-tab.tsx:153-159 | every copy of the query leaves the history |
| NaverTab.Tab.SearchBlogs | components/naver-tab.tsx:161-230 | no keyword only sets the error; otherwise the trimmed input is saved and the keywords recorded, and then either every keyword's list, one page each, the first keyword's tab and the reported items are set, or the first failure's message is |
| NaverTab.Tab.SearchKeywords | components/naver-tab.tsx:165-227 | the same outcome, once the keywords are known |
| NaverTab.Tab.Finish | components/naver-tab.tsx:202-224 | a completed loop replaces the lists, counts and active tab and reports the items when there is a listener; a failed one only sets the error |
| NaverTab.Tab.Gather | components/naver-tab.tsx:175-200 | the per-keyword loop yields exactly the gathered results and, when it completes, one page for every keyword |
| NaverTab.Tab.LoadMore | components/naver-tab.tsx:239-244 | one more page is shown for that keyword |
| NaverTab.Tab.ClearResults | components/naver-tab.tsx:246-253 | results, keywords, counts, tab, danger filter and error are all reset |
| NaverTab.Tab.RemoveKeyword | components/naver-tab.tsx:255-275 | the keyword's results and count are deleted, every copy leaves the keyword list, and the active tab moves as the removal rule says |
| CafeTab.ExtractCafeIdShape | components/cafe-tab.tsx:31-42 | the id never holds a "/", and a blank field gives no cafe |
| CafeTab.ExtractCafeIdFromUrl | components/cafe-tab.tsx:33-37 | a URL gives the first segment of its path, up to the next "/" |
| CafeTab.ExtractCafeIdTyped | components/cafe-tab.tsx:38-41 | anything the URL parser rejects is the id itself, trimmed, with every "/" removed |
| CafeTab.RequestParamsSpec | components/cafe-tab.tsx:144-149 | the request names the keyword, asks for 100 rows with a cafe and 30 without, sorts by date, and names the cafe exactly when there is one |
| CafeTab.FieldRequest | components/cafe-tab.tsx:140-148 | the request built from the cafe field targets no cafe and asks for 30 rows when the field is blank, and names only the extracted id, which holds no "/" |
| CafeTab.KeywordResultsSpec | components/cafe-tab.tsx:161-173 | a keyword's list is the reply's items in order, each link once, none without a link, and every non-empty link of the reply appears |
| CafeTab.Gathered | components/cafe-tab.tsx:143-175 | a completed loop yields a well-formed keyword map |
| CafeTab.CollectedItemsSpec | components/cafe-tab.tsx:181-196 | one reported item per result, in order, each a cafe item with the result's link, authored by the cafe name when it is known |
| CafeTab.Tab.constructor | components/cafe-tab.tsx:78-87 | the tab starts with empty fields, no results and no error |
| CafeTab.Tab.LoadSaved | components/cafe-tab.tsx:89-99 | on mount the saved history is restored when it parses to a list, and the saved non-empty target cafe is restored unless the history failed to parse |
| CafeTab.Tab.CafeUrlChange | components/cafe-tab.tsx:101-104 | the target-cafe field takes the new value |
| CafeTab.Tab.SaveRecent | components/cafe-tab.tsx:106-112 | the query moves to the front of the history, cut to eight |
| CafeTab.Tab.RemoveRecent | components/cafe-tab.tsx:114-120 | every copy of the query leaves the history |
| CafeTab.Tab.Search | components/cafe-tab.tsx:122-203 | the keywords are the split input and the cafe the one extracted from the field; no keyword only sets the error; otherwise the trimmed input is saved and the search marked, and then either every keyword's deduplicated list, one page each, the first keyword's tab and the reported items are set, or the first failure's message is |
| CafeTab.Tab.SearchKeywords | components/cafe-tab.tsx:126-202 | the same outcome, once the keywords and the cafe are known |
| CafeTab.Tab.Gather | components/cafe-tab.tsx:138-175 | the per-keyword loop yields exactly the gathered results and, when it completes, one page for every keyword |
| CafeTab.Tab.Finish | components/cafe-tab.tsx:177-199 | a completed loop replaces the lists, counts and active tab and reports the items when there is a listener; a failed one only sets the error |
| CafeTab.Tab.LoadMore | components/cafe-tab.tsx:212-217 | one more page is shown for that keyword |
| CafeTab.Tab.ClearResults | components/cafe-tab.tsx:219-226 | results, keywords, counts, tab, searched flag and error are all reset |
| ResultsTable.ReportUrlInjective | components/results-table.tsx:41-43 | the report link determines its video id (when it has no "&") and comment id, so different comments never share a link |
| ResultsTable.AddedKeywordSpec | components/results-table.tsx:80-86 | adding keeps the list as a prefix and appends at most the trimmed input, never a blank or a duplicate |
| ResultsTable.ParamsSpec | components/results-table.tsx:96-100 | the cursor is always sent first; each filter is sent exactly when it is set, with its own value |
| ResultsTable.DisplayCommentsSpec | components/results-table.tsx:162-169 | with the flag filter off every comment is shown; with it on exactly the flagged comments are shown, in order, as many as the badge counts |
| ResultsTable.FlaggedShown | components/results-table.tsx:167-169 | a comment is counted as flagged exactly when some negative keyword is found in its plain text |
| ResultsTable.Table.constructor | components/results-table.tsx:64-78 | the table starts empty at cursor 0 with the default negative keywords |
| ResultsTable.Table.AddKeyword | components/results-table.tsx:80-86 | the keyword list becomes the checked addition and the input is cleared |
| ResultsTable.Table.RemoveKeyword | components/results-table.tsx:88-90 | every copy of the keyword is removed, the rest keep their order |
| ResultsTable.Table.FetchResults | components/results-table.tsx:92-120 | the query sent carries the current filters; a failed reply changes nothing; otherwise the page replaces or is appended to the list and total and cursor are taken from it |
| ResultsTable.Table.InitialLoad | components/results-table.tsx:123-128 | the first page is fetched once, only when the job is done with comments |
| ResultsTable.Table.HandleSearch | components/results-table.tsx:130-134 | a search resets to cursor 0 and an empty list, then replaces it with the first page |
| ResultsTable.Table.HandleLoadMore | components/results-table.tsx:140-144 | the next page is fetched and appended exactly when there is a cursor |
| UnifiedList.DedupedSpec | components/unified-list.tsx:134-141 | the deduplicated links are distinct, every input link is kept, and the rows are input rows in input order |
| UnifiedList.CountPlatforms | components/unified-list.tsx:150-160 | the counting loop counts the rows of each platform |
| UnifiedList.CountsSum | components/unified-list.tsx:150-160 | the three platform counts add up to the number of rows |
| UnifiedList.RowMatchSpec | components/unified-list.tsx:258-261 | a row is flagged exactly when a negative keyword is in its content or title, and a keyword found in the content is the one shown |
| UnifiedList.FlaggedCountBound | components/unified-list.tsx:162-166 | the flagged count is at most the number of rows, and zero when no row is flagged |
| TimelineFeed.ItemCategory | components/timeline-feed.tsx:228-234 | every item falls into one of the four categories |
| TimelineFeed.ItemCategorySpec | components/timeline-feed.tsx:228-234 | Naver blogs are "blog", Naver cafes "cafe", YouTube "youtube", and Google and every other Naver type "google" |
| TimelineFeed.FilteredItemsSpec | components/timeline-feed.tsx:237-257 | the feed shows, in order and without repeated links, exactly the deduplicated items whose category is selected, and all of them when no filter is given |
| TimelineFeed.SubseqDistinct | components/timeline-feed.tsx:254-257 | filtering keeps links distinct |
| TimelineFeed.NestedDivision | components/timeline-feed.tsx:117-122 | whole minutes then whole hours are whole hours, and likewise for days |
| TimelineFeed.TimeAgoSpec | components/timeline-feed.tsx:109-130 | a missing, invalid or future date is unknown; otherwise the label is the one bucket the elapsed time falls in, with the count of whole units in that bucket's range |
| TimelineFeed.TimeAgoMonotone | components/timeline-feed.tsx:115-126 | an older date never lands in a more recent bucket, nor with a smaller count in the same bucket |
| YouTubeTab.UpdateJobs | components/youtube-tab.tsx:45-59 | the job list keeps its length |
| YouTubeTab.UpdateJobsSpec | components/youtube-tab.tsx:45-59 | only jobs with the polled id change: they take the reply's status, progress, error and comment count, and keep their old title and video id when the reply's are empty |
| YouTubeTab.ReportsOnce | components/youtube-tab.tsx:61-74 | over any run of polls each job's comments are reported at most once, never for a job reported before, and only after a poll saw it done |
| YouTubeTab.CommentItemSpec | components/youtube-tab.tsx:93-115 | an item carries the video title and the comment's plain text, an author URL exactly when there is a channel id, an id that identifies the comment, and (for a video id without "&") a link that does too |
| YouTubeTab.Find | components/youtube-tab.tsx:197 | nothing is found exactly when no job has the id; a found job is in the list with that id |
| YouTubeTab.Retitled | components/youtube-tab.tsx:207-209 | the job list keeps its length |
| YouTubeTab.RetitledSpec | components/youtube-tab.tsx:207-209 | renaming changes the title of the jobs with that id and nothing else |
| YouTubeTab.Tab.constructor | components/youtube-tab.tsx:27-35 | the tab starts with no jobs, no active job, no error, no polling and nothing reported |
| YouTubeTab.Tab.PollJob | components/youtube-tab.tsx:37-81 | a failed poll changes nothing; otherwise the reply becomes the active job and updates the list, polling stops when the job is done or failed, and comments are reported once, when done |
| YouTubeTab.Tab.HandleSubmit | components/youtube-tab.tsx:140-185 | an accepted request puts a queued job with no progress at the head of the list, makes it active, remounts the results and starts polling it; a refused one only sets the error |
| YouTubeTab.Tab.HandleSelectJob | components/youtube-tab.tsx:187-204 | the selected id becomes active and the results remount; polling stops and restarts only for a known job that is queued or running |
| YouTubeTab.Tab.HandleTitleChange | components/youtube-tab.tsx:206-212 | the job's title changes in the list, and in the active job when it is that job |
| YouTubeTitleTab.VideoItemKeys | components/youtube-title-tab.tsx:111-124 | two results give the same item link, and the same item id, exactly when they are the same video |
| YouTubeTitleTab.VideoItemsDistinct | components/youtube-title-tab.tsx:111-124 | results for distinct videos become items with distinct links |
| YouTubeTitleTab.Collected | components/youtube-title-tab.tsx:110-126 | items are reported exactly when there is a listener and the reply is ok and non-empty, one per result in order |
| YouTubeTitleTab.TitleTab.constructor | components/youtube-title-tab.tsx:52-57 | the tab starts with empty fields, no results and no error |
| YouTubeTitleTab.TitleTab.LoadRecent | components/youtube-title-tab.tsx:59-67 | on mount the saved history is restored when present |
| YouTubeTitleTab.TitleTab.SaveRecent | components/youtube-title-tab.tsx:69-75 | the query moves to the front of the history, cut to eight |
| YouTubeTitleTab.TitleTab.RemoveRecent | components/youtube-title-tab.tsx:77-83 | every copy of the query leaves the history |
| YouTubeTitleTab.TitleTab.Search | components/youtube-title-tab.tsx:85-132 | a blank keyword only sets the error and sends nothing; otherwise the trimmed keyword is sent and saved, the search marked, and the results, error and reported items follow the reply |
| YouTubeTitleTab.TitleTab.SearchFor | components/youtube-title-tab.tsx:87-131 | the same outcome, once the trimmed keyword is known |
| YouTubeTitleTab.TitleTab.Receive | components/youtube-title-tab.tsx:97-131 | the reply sets the results, the error and the reported items |
| YouTubeTitleTab.TitleTab.ClearResults | components/youtube-title-tab.tsx:141-145 | results, searched flag and error are reset |
| JobHistory.Editor.constructor | components/job-history.tsx:51-52 | no row is being edited and the edit text is empty |
| JobHistory.Editor.StartEdit | components/job-history.tsx:56-59 | the row's job is being edited, starting from its current title |
| JobHistory.Editor.SetEditValue | components/job-history.tsx:120 | the edit text becomes what was typed |
| JobHistory.Editor.ConfirmEdit | components/job-history.tsx:61-66 | editing ends; a rename is sent exactly when the edit text is not blank, and it carries the job and the trimmed, non-empty text |
| JobHistory.Editor.CancelEdit | components/job-history.tsx:68-71 | editing ends and the edit text is cleared |
| JobHistory.Editor.Activate | components/job-history.tsx:94-105 | a click or Enter selects the row's job exactly when that job is not being edited |
| SearchBar.SavedSpec | components/search-bar.tsx:40-55 | before mounting the history is unchanged; after it the keyword is first, the list is non-empty and at most 10 long, holds only the keyword and earlier entries, and stays free of duplicates |
| SearchBar.SaveFirstAgain | components/search-bar.tsx:43-45 | saving the entry that is already first changes nothing |
| SearchBar.WithoutDistinctTail | components/search-bar.tsx:44 | filtering out the head of a duplicate-free list leaves its tail |
| SearchBar.Bar.constructor | components/search-bar.tsx:20-22 | the input and history start empty, not mounted |
| SearchBar.Bar.Mount | components/search-bar.tsx:25-38 | the bar is mounted and takes the saved array when there is one |
| SearchBar.Bar.Type | components/search-bar.tsx:89 | the input becomes what was typed |
| SearchBar.Bar.SaveToHistory | components/search-bar.tsx:40-55 | the history becomes the saved list for the keyword |
| SearchBar.Bar.HandleSubmit | components/search-bar.tsx:57-65 | a blank input searches nothing and changes nothing; otherwise the trimmed input is searched and saved, and the input cleared |
| SearchBar.Bar.HandleHistoryClick | components/search-bar.tsx:67-70 | the entry is searched and saved to the front |
| SearchBar.Bar.ClearHistory | components/search-bar.tsx:72-79 | the history becomes empty |
| OrderedMap.Set | lib/job-store.ts:13-15 | setting a key gives it the new value, leaves every other key's value alone, and appends the key to the insertion order only when it is new |
| OrderedMap.Remove | components/naver-tab.tsx:258 | deleting a key removes it and its value and leaves the other keys in their order |
| OrderedMap.Values | lib/job-store.ts:18 | the listed values are one per key |
| OrderedMap.SetSize | lib/job-store.ts:13-15 | setting never loses a key: the size grows by one exactly when the key is new |
| OrderedMap.SetTwice | lib/job-store.ts:13-15 | a second set of the same key overrides the first |
| OrderedMap.SetValuesNew | lib/job-store.ts:13-18 | a new key's value is listed after all the others |
| Seqs.Dedup | components/unified-list.tsx:134-141 | the walk with a `seen` set keeps exactly the first item of each key |
| Seqs.DedupDistinct | components/unified-list.tsx:134-141 | the kept items have distinct keys, none already seen, in input order |
| Seqs.DedupKeys | components/unified-list.tsx:134-141 | no key is lost: the kept keys are the input's keys not already seen |
| Seqs.DedupNoop | components/unified-list.tsx:134-141 | input whose keys are already distinct and unseen passes unchanged |
| Seqs.DedupIdempotent | components/unified-list.tsx:134-141 | deduplicating twice is deduplicating once |
| Seqs.Take | components/unified-scan.tsx:101 | the cut keeps a prefix of at most the cap's length, all of the list when it is shorter |
| Seqs.Without | components/unified-scan.tsx:109 | the filter removes every copy of the value and keeps every other element |
| Seqs.WithoutSubseq | components/unified-scan.tsx:109 | removing a value keeps the other elements in their order |
| Seqs.WithoutNoDup | components/unified-scan.tsx:109 | removing a value from a list without repeats leaves one without repeats |
| Seqs.FlatMapMember | components/unified-scan.tsx:167-168 | an element of the flattened results comes from the batch of one task |
| Text.TrimShape | components/naver-tab.tsx:164 | trimming strips white space from both ends only: the result is a slice of the text, what is cut is white space, and the result neither starts nor ends with white space |
| Text.TrimIdempotent | components/naver-tab.tsx:164 | trimming twice is trimming once |
| Text.TrimBlank | components/naver-tab.tsx:164 | a text trims to nothing exactly when it is all white space |
| Text.NonBlankSpec | components/results-table.tsx:81-82 | only all-white-space input is refused; accepted input is non-empty and already trimmed |
| Text.Lower | app/api/naver/cafe/route.ts:156 | lower-casing keeps the length and maps each character on its own |
| Text.LowerIdempotent | app/api/naver/cafe/route.ts:156 | lower-casing twice is lower-casing once |
| Text.ContainsIff | app/api/naver/cafe/route.ts:164 | `includes` holds exactly when the pattern occurs at some position |
| Text.Split | components/naver-tab.tsx:164 | a split gives at least one piece, no piece holds the separator, and text without it is one piece |
| Text.JoinSplit | components/naver-tab.tsx:164 | joining the pieces again with the separator gives the text back |
| Text.TakeUntil | app/api/naver/cafe/route.ts:66 | the part before the first stop character is a prefix of the text free of stop characters |
| Text.RemoveSpaces | components/unified-scan.tsx:51 | removing white space leaves no white space |
| Text.ReplaceAllAbsent | app/api/naver/cafe/route.ts:7-12 | replacing an entity that does not occur changes nothing |
| Text.ParseInt | app/api/naver/search/route.ts:38 | parsing gives NaN exactly when no digit follows the leading white space and an optional sign |
| Text.ParseIntRoundTrip | app/api/naver/search/route.ts:38 | parsing a number's decimal rendering gives the number back |
| Text.NatToString | app/api/naver/cafe/route.ts:31 | a number renders as a non-empty run of decimal digits |

## Left out

- Network, timers, `localStorage`, rendering and toasts. Each upstream, stored value and clock reading is a parameter of the operation that uses it.
- Concurrency of `Promise.all`. The parallel requests of the unified scan and the Google tab are evaluated in order. The source's results do not depend on the order, because each batch keeps its position in the list.
- The intermediate progress updates that the unified scan writes while its requests are in flight (components/unified-scan.tsx:150 and the like). Only the reset and the final state of each platform are modelled.
- The `.catch` branches of the unified scan's `Promise.all` (components/unified-scan.tsx:368-385). Every platform scan catches its own errors, so these branches cannot be reached.
- The loading flags (`isLoading`, `isScanning`, `isSubmitting`) that only disable buttons, the status labels and the badge colours.
- UnifiedScan.Grouped: each keyword's group keeps scan order. The sort by date (components/unified-scan.tsx:401) is not modelled.
- NaverTab.Tab.SearchBlogs: the per-keyword sort by date before deduplication (components/naver-tab.tsx:192) is not modelled. The first post kept per link is the first in reply order.
- UnifiedList.DedupedSpec: the sorts by date of the unified list (components/unified-list.tsx:142) and the timeline feed (components/timeline-feed.tsx:247) are not modelled, because dates are display strings there.
- Unicode case. Lower-casing covers ASCII letters only. `Text.IsSpace` is the whole ECMAScript white-space and line-terminator class, the Unicode spaces included. Korean text has no case, so matching on Korean keywords is unaffected.
- `new URL`. The URL parser is a function parameter, and its parsing rules are not modelled.
- `generateJobId` (lib/job-store.ts:24-26). Its clock and random parts are parameters, so the model does not capture that ids are unique.
- The request that `fetchAndReportComments` sends and the polling timer of the YouTube tab. A poll is a call with the reply it received.
- The server request of the title edit in the YouTube tab. Only its local state change is modelled.
- `fetchVideoTitle` and `fetchVideoDetails` (lib/youtube.ts:112-165). They are single requests whose replies are parameters of the job route.
- NaverSearch.RequestParams: models the corrected route, which reads a non-numeric `start` as 1. As written the route sends `start=NaN`; `NaverSearch.StartSentAsWritten` captures that.
- NaverCafe.Get: models the corrected route, which reads a non-numeric `display` or `start` as its default. As written the route sends `NaN`; `NaverCafe.SentAsWrittenSpec` captures that.
- NaverCafe.ToResults: the `id`, `source` and `type` fields of each result (app/api/naver/cafe/route.ts:107-109, 196-198) and the response's `observedAt` are not modelled.
- Collect.Walk: a listing that runs out of pages ends the walk successfully with what was collected. `Collect.WalkStaysInListing` shows that a listing whose last page fails or has no next token never gets there.
- GoogleTab.Tab.Finish, NaverTab.Tab.Finish, CafeTab.Tab.Finish, GoogleTab.CollectedItemsSpec, NaverTab.CollectedItemsSpec, CafeTab.CollectedItemsSpec: the per-keyword lists are read in keyword insertion order. The source reads them with `Object.values` (components/google-tab.tsx:347, components/naver-tab.tsx:207, components/cafe-tab.tsx:182), which lists integer-like keywords first in ascending order.
- CafeTab.Tab.LoadSaved: a `localStorage` read that throws is not modelled; the saved history is given already parsed, and a list entry that is not a string is not modelled.
- UnifiedScan.RowConverted: a blog or cafe item without `publishedAt` is read as `""`, where the source would carry `undefined`; both Naver routes always send the field.
- The platform keys of the unified scan are an enumeration. `UnifiedScan.Key` gives their strings.

## Findings

| source | as written | input that shows it | evidently intended | confidence | as-written member | corrected member |
|---|---|---|---|---|---|---|
| app/api/naver/search/route.ts:38-71 | `Math.max(1, Math.min(start, 1000))` with `start = parseInt(...)` lets NaN through, and the upstream request is sent with `start=NaN` | `start=abc` | a start in [1, 1000], reading a non-numeric parameter as the default 1, as the Google route does by falling back to 0 (app/api/google/search/route.ts:77) | not executed; medium | NaverSearch.StartSentAsWrittenSpec | NaverSearch.Clamp |
| app/api/naver/cafe/route.ts:16-80 | `clamp` of `parseInt` of the `display` parameter returns NaN for a non-numeric `display` (and `start`), which is forwarded upstream | `display=x` | a page size in [1, 100] and a start in [1, 1000], a non-numeric value read as the default | not executed; medium | NaverCafe.SentAsWrittenSpec | NaverCafe.Display |
