/** `collectComments` of the YouTube client (lib/youtube.ts): thread pages
    are requested one after another; each thread's top comment, and when
    replies are wanted its inline replies and possibly the reply endpoint's
    pages, are recorded in a `Map` keyed by comment id; progress is reported
    once per thread page.

    The network is a finite listing of replies: the i-th thread page request
    receives `pages[i]`, and a thread's reply requests receive its
    `replyListing` in turn. Each entry is the outcome of `fetchWithRetry`
    followed by the JSON decoding: a page, or the error thrown. A listing
    that runs out is read as a last page. */
module Collect {
  import opened Wrappers
  import opened Seqs
  import opened Types
  import opened YouTube
  import opened Retry
  import opened OrderedMap

  datatype Page<T> = Page(items: seq<T>, nextPageToken: Option<string>)

  type Fetched<T> = Result<Page<T>, FetchError>

  /** `if (!data.nextPageToken) break;` continues only on a non-empty token. */
  predicate HasNext<T>(p: Page<T>)
  {
    p.nextPageToken.Some? && p.nextPageToken.value != ""
  }

  /** A comment thread: `snippet.topLevelComment`, `snippet.totalReplyCount`,
      `replies.comments` when present, and the answers the reply endpoint
      gives for this thread's top comment. */
  datatype Thread = Thread(
    id: string,
    topLevelComment: ApiComment,
    totalReplyCount: int,
    replies: Option<seq<ApiComment>>,
    replyListing: seq<Fetched<ApiComment>>)

  /** The collection options that the walk reads; `fetchedAt` is the clock
      reading stamped on every record. */
  datatype Options = Options(videoId: string, videoUrl: string, maxPages: int,
                             includeReplies: bool, fetchedAt: string)

  /** One `onProgress(pages, comments)` call. */
  datatype Progress = Progress(pages: nat, comments: nat)

  type Comments = OMap<CommentRecord>

  /** Every record is stored under its own comment id. */
  ghost predicate KeyedById(m: Comments)
  {
    forall k :: k in m.vals ==> m.vals[k].commentId == k
  }

  /** No stored record is a reply. */
  ghost predicate TopLevelOnly(m: Comments)
  {
    forall k :: k in m.vals ==> !m.vals[k].isReply
  }

  ghost predicate Inv(m: Comments)
  {
    m.Valid() && KeyedById(m)
  }

  /** `comments.set(record.comment_id, record)` */
  function Put(m: Comments, rec: CommentRecord): (r: Comments)
    requires Inv(m)
    ensures Inv(r) && r.Size() >= m.Size()
    ensures TopLevelOnly(m) && !rec.isReply ==> TopLevelOnly(r)
  {
    m.Set(rec.commentId, rec)
  }

  function Record(o: Options, c: ApiComment, threadId: string, parent: Option<string>): CommentRecord
  {
    MapComment(c, o.videoId, o.videoUrl, threadId, parent, o.fetchedAt)
  }

  /** `for (const reply of cs) comments.set(...)` with parent `parent`. */
  function PutAll(m: Comments, cs: seq<ApiComment>, o: Options, threadId: string, parent: string): (r: Comments)
    requires Inv(m)
    ensures Inv(r) && r.Size() >= m.Size()
    decreases |cs|
  {
    if cs == [] then m else PutAll(Put(m, Record(o, cs[0], threadId, Some(parent))), cs[1..], o, threadId, parent)
  }

  /** Paging the reply endpoint until a page has no next token. */
  function ExpandReplies(m: Comments, listing: seq<Fetched<ApiComment>>, o: Options,
                         threadId: string, parent: string): (r: Result<Comments, FetchError>)
    requires Inv(m)
    ensures r.Success? ==> Inv(r.value) && r.value.Size() >= m.Size()
    decreases |listing|
  {
    if listing == [] then Success(m)
    else match listing[0]
      case Failure(e) => Failure(e)
      case Success(p) =>
        var m' := PutAll(m, p.items, o, threadId, parent);
        if HasNext(p) then ExpandReplies(m', listing[1..], o, threadId, parent) else Success(m')
  }

  /** The reply endpoint is used only when replies are wanted, the thread
      carries inline replies, and more than five replies are missing from
      them. */
  predicate NeedsExpansion(t: Thread, includeReplies: bool)
  {
    includeReplies && t.replies.Some?
    && t.totalReplyCount > |t.replies.value| && t.totalReplyCount - |t.replies.value| > 5
  }

  /** The effect of one thread on the map. */
  function AddThread(m: Comments, t: Thread, o: Options): (r: Result<Comments, FetchError>)
    requires Inv(m)
    ensures r.Success? ==> Inv(r.value) && r.value.Size() >= m.Size()
  {
    var top := t.topLevelComment;
    var m1 := Put(m, Record(o, top, t.id, None));
    if o.includeReplies && t.replies.Some? then
      var m2 := PutAll(m1, t.replies.value, o, t.id, top.id);
      if NeedsExpansion(t, o.includeReplies) then ExpandReplies(m2, t.replyListing, o, t.id, top.id)
      else Success(m2)
    else Success(m1)
  }

  /** The effect of the threads of one page, stopping at the first error. */
  function AddThreads(m: Comments, ts: seq<Thread>, o: Options): (r: Result<Comments, FetchError>)
    requires Inv(m)
    ensures r.Success? ==> Inv(r.value) && r.value.Size() >= m.Size()
    decreases |ts|
  {
    if ts == [] then Success(m)
    else match AddThread(m, ts[0], o)
      case Failure(e) => Failure(e)
      case Success(m') => AddThreads(m', ts[1..], o)
  }

  /** What one thread page request leads to: the walk stops with an
      outcome (an error, or the map when this was the last page) or goes on
      with the updated map; a page that was processed is reported. */
  datatype Visit =
    | Stop(outcome: Result<Comments, FetchError>, reports: seq<Progress>)
    | Continue(next: Comments, report: Progress)

  function VisitPage(m: Comments, f: Fetched<Thread>, o: Options, pageCount: nat): (r: Visit)
    requires Inv(m)
    ensures r.Stop? && r.outcome.Success? ==>
      && Inv(r.outcome.value) && r.outcome.value.Size() >= m.Size()
      && r.reports == [Progress(pageCount + 1, r.outcome.value.Size())]
    ensures r.Stop? && r.outcome.Failure? ==> r.reports == []
    ensures r.Continue? ==>
      && Inv(r.next) && r.next.Size() >= m.Size()
      && r.report == Progress(pageCount + 1, r.next.Size())
      && !(o.maxPages > 0 && pageCount + 1 >= o.maxPages)
      && f.Success? && HasNext(f.value)
    ensures f.Failure? || !HasNext(f.value) || (o.maxPages > 0 && pageCount + 1 >= o.maxPages) ==> r.Stop?
  {
    match f
    case Failure(e) => Stop(Failure(e), [])
    case Success(p) =>
      match AddThreads(m, p.items, o)
      case Failure(e) => Stop(Failure(e), [])
      case Success(m') =>
        var n := pageCount + 1;
        if !HasNext(p) || (o.maxPages > 0 && n >= o.maxPages) then Stop(Success(m'), [Progress(n, m'.Size())])
        else Continue(m', Progress(n, m'.Size()))
  }

  /** What a walk over the thread pages produces: the final map or the
      error thrown, the progress reports made, and the number of thread
      page requests. */
  datatype Run = Run(outcome: Result<Comments, FetchError>, progress: seq<Progress>, requests: nat)

  /** The walk from map `m` after `pageCount` pages, with `pages` the
      answers to the remaining requests. */
  function Walk(m: Comments, pages: seq<Fetched<Thread>>, o: Options, pageCount: nat): (r: Run)
    requires Inv(m)
    ensures r.outcome.Success? ==> Inv(r.outcome.value)
    decreases |pages|
  {
    if pages == [] then Run(Success(m), [], 0)
    else match VisitPage(m, pages[0], o, pageCount)
      case Stop(outcome, reports) => Run(outcome, reports, 1)
      case Continue(m', report) =>
        var rest := Walk(m', pages[1..], o, pageCount + 1);
        Run(rest.outcome, [report] + rest.progress, 1 + rest.requests)
  }

  /** The walk asked for a page beyond the listing. */
  ghost predicate RunsOut(m: Comments, pages: seq<Fetched<Thread>>, o: Options, pageCount: nat)
    requires Inv(m)
    decreases |pages|
  {
    pages == [] || (VisitPage(m, pages[0], o, pageCount).Continue?
      && RunsOut(VisitPage(m, pages[0], o, pageCount).next, pages[1..], o, pageCount + 1))
  }

  /** A listing whose last entry ends the walk (an error, or a page without
      a next token) is never read past its end. */
  lemma {:induction false} WalkStaysInListing(m: Comments, pages: seq<Fetched<Thread>>, o: Options, pageCount: nat)
    requires Inv(m) && pages != []
    requires pages[|pages| - 1].Failure? || !HasNext(pages[|pages| - 1].value)
    ensures !RunsOut(m, pages, o, pageCount)
    decreases |pages|
  {
    var v := VisitPage(m, pages[0], o, pageCount);
    if v.Continue? && |pages| > 1 {
      assert pages[1..][|pages[1..]| - 1] == pages[|pages| - 1];
      WalkStaysInListing(v.next, pages[1..], o, pageCount + 1);
    }
  }

  // ---------------------------------------------------------------------
  // The imperative collector

  /** `for (const reply of cs) { comments.set(...) }` */
  method PutComments(m0: Comments, cs: seq<ApiComment>, o: Options, threadId: string, parent: string)
    returns (m: Comments)
    requires Inv(m0)
    ensures m == PutAll(m0, cs, o, threadId, parent)
  {
    m := m0;
    for i := 0 to |cs|
      invariant Inv(m)
      invariant PutAll(m, cs[i..], o, threadId, parent) == PutAll(m0, cs, o, threadId, parent)
    {
      assert cs[i..][1..] == cs[i + 1..];
      var rec := Record(o, cs[i], threadId, Some(parent));
      m := m.Set(rec.commentId, rec);
    }
    assert cs[|cs|..] == [];
  }

  /** The reply endpoint loop: request pages until one has no next token. */
  method PageReplies(m0: Comments, listing: seq<Fetched<ApiComment>>, o: Options, threadId: string, parent: string)
    returns (r: Result<Comments, FetchError>)
    requires Inv(m0)
    ensures r == ExpandReplies(m0, listing, o, threadId, parent)
  {
    var m := m0;
    var j := 0;
    while j < |listing|
      invariant 0 <= j <= |listing| && Inv(m)
      invariant ExpandReplies(m, listing[j..], o, threadId, parent) == ExpandReplies(m0, listing, o, threadId, parent)
      decreases |listing| - j
    {
      assert listing[j..][1..] == listing[j + 1..];
      match listing[j] {
        case Failure(e) =>
          return Failure(e);
        case Success(p) =>
          m := PutComments(m, p.items, o, threadId, parent);
          if !HasNext(p) {
            return Success(m);
          }
      }
      j := j + 1;
    }
    assert listing[j..] == [];
    r := Success(m);
  }

  /** The body of `for (const thread of data.items)`. */
  method ProcessThread(m0: Comments, t: Thread, o: Options) returns (r: Result<Comments, FetchError>)
    requires Inv(m0)
    ensures r == AddThread(m0, t, o)
  {
    var top := t.topLevelComment;
    var topRecord := Record(o, top, t.id, None);
    var m := m0.Set(topRecord.commentId, topRecord);
    if o.includeReplies && t.replies.Some? {
      m := PutComments(m, t.replies.value, o, t.id, top.id);
      var inlineCount := |t.replies.value|;
      var totalReplies := t.totalReplyCount;
      if totalReplies > inlineCount && totalReplies - inlineCount > 5 {
        r := PageReplies(m, t.replyListing, o, t.id, top.id);
        return;
      }
    }
    r := Success(m);
  }

  method ProcessThreads(m0: Comments, ts: seq<Thread>, o: Options) returns (r: Result<Comments, FetchError>)
    requires Inv(m0)
    ensures r == AddThreads(m0, ts, o)
  {
    var m := m0;
    for i := 0 to |ts|
      invariant Inv(m)
      invariant AddThreads(m, ts[i..], o) == AddThreads(m0, ts, o)
    {
      assert ts[i..][1..] == ts[i + 1..];
      var step := ProcessThread(m, ts[i], o);
      match step {
        case Failure(e) =>
          return Failure(e);
        case Success(m') =>
          m := m';
      }
    }
    assert ts[|ts|..] == [];
    r := Success(m);
  }

  /** One iteration of the page loop: fetch, process the threads, report
      progress and decide whether to stop. */
  method ProcessPage(m: Comments, f: Fetched<Thread>, o: Options, pageCount: nat) returns (r: Visit)
    requires Inv(m)
    ensures r == VisitPage(m, f, o, pageCount)
  {
    match f {
      case Failure(e) =>
        return Stop(Failure(e), []);
      case Success(data) =>
        var step := ProcessThreads(m, data.items, o);
        match step {
          case Failure(e) =>
            return Stop(Failure(e), []);
          case Success(comments) =>
            var pages := pageCount + 1;
            var report := Progress(pages, comments.Size());
            if !HasNext(data) || (o.maxPages > 0 && pages >= o.maxPages) {
              return Stop(Success(comments), [report]);
            }
            return Continue(comments, report);
        }
    }
  }

  /** `collectComments(opts)`: the records in map order, or the error
      thrown; the `onProgress` calls made (also when a later page fails);
      and the number of thread page requests. */
  method CollectComments(o: Options, pages: seq<Fetched<Thread>>)
    returns (r: Result<seq<CommentRecord>, FetchError>, progress: seq<Progress>, requests: nat)
    ensures var run := Walk(Empty(), pages, o, 0);
      && progress == run.progress
      && requests == run.requests
      && r == Returned(run.outcome)
  {
    var comments: Comments := Empty();
    var pageCount: nat := 0;
    var i := 0;
    progress := [];
    requests := 0;
    ghost var whole := Walk(Empty(), pages, o, 0);
    while i < |pages|
      invariant 0 <= i <= |pages| && Inv(comments)
      invariant Joined(progress, requests, Walk(comments, pages[i..], o, pageCount)) == whole
      decreases |pages| - i
    {
      assert pages[i..][1..] == pages[i + 1..];
      requests := requests + 1;
      var visit := ProcessPage(comments, pages[i], o, pageCount);
      match visit {
        case Stop(outcome, reports) =>
          return Returned(outcome), progress + reports, requests;
        case Continue(next, report) =>
          comments := next;
          pageCount := pageCount + 1;
          progress := progress + [report];
      }
      i := i + 1;
    }
    assert pages[i..] == [];
    r := Success(comments.Values());
  }

  /** The run `w` after reports `progress` and `requests` requests. */
  function Joined(progress: seq<Progress>, requests: nat, w: Run): Run
  {
    Run(w.outcome, progress + w.progress, requests + w.requests)
  }

  /** The value `collectComments` resolves to, or the error it rejects with. */
  function Returned(outcome: Result<Comments, FetchError>): Result<seq<CommentRecord>, FetchError>
    requires outcome.Success? ==> outcome.value.Valid()
  {
    match outcome
    case Success(m) => Success(m.Values())
    case Failure(e) => Failure(e)
  }

  // ---------------------------------------------------------------------
  // Properties of the walk

  /** The collected records never share a comment id. */
  lemma ValuesDistinctIds(m: Comments)
    requires Inv(m)
    ensures var vs := m.Values();
      forall i, j :: 0 <= i < j < |vs| ==> vs[i].commentId != vs[j].commentId
  {
    var vs := m.Values();
    forall i, j | 0 <= i < j < |vs| ensures vs[i].commentId != vs[j].commentId {
      assert vs[i] == m.vals[m.keys[i]] && vs[j] == m.vals[m.keys[j]];
      assert m.keys[i] in m.vals && m.keys[j] in m.vals;
    }
  }

  /** A successful collection returns records with pairwise distinct ids. */
  lemma CollectedIdsDistinct(o: Options, pages: seq<Fetched<Thread>>)
    ensures var run := Walk(Empty(), pages, o, 0);
      run.outcome.Success? ==>
        var vs := run.outcome.value.Values();
        forall i, j :: 0 <= i < j < |vs| ==> vs[i].commentId != vs[j].commentId
  {
    var run := Walk(Empty(), pages, o, 0);
    if run.outcome.Success? {
      ValuesDistinctIds(run.outcome.value);
    }
  }

  /** The reports number the pages `n + 1`, `n + 2`, ... in turn. */
  predicate NumberedFrom(progress: seq<Progress>, n: nat)
  {
    forall k :: 0 <= k < |progress| ==> progress[k].pages == n + k + 1
  }

  /** Progress reports number the pages 1, 2, 3, ... after `pageCount`. */
  lemma {:induction false} WalkPageNumbers(m: Comments, pages: seq<Fetched<Thread>>, o: Options, pageCount: nat)
    requires Inv(m)
    ensures NumberedFrom(Walk(m, pages, o, pageCount).progress, pageCount)
    decreases |pages|
  {
    if pages != [] {
      var v := VisitPage(m, pages[0], o, pageCount);
      if v.Continue? {
        WalkPageNumbers(v.next, pages[1..], o, pageCount + 1);
        var rest := Walk(v.next, pages[1..], o, pageCount + 1).progress;
        var all := [v.report] + rest;
        forall k | 0 < k < |all| ensures all[k].pages == pageCount + k + 1 {
          assert all[k] == rest[k - 1];
        }
      }
    }
  }

  /** Reported comment counts start at least at the size of the map, never
      decrease, and a successful walk ends with the size of the last report. */
  lemma {:induction false} WalkCounts(m: Comments, pages: seq<Fetched<Thread>>, o: Options, pageCount: nat)
    requires Inv(m)
    ensures var run := Walk(m, pages, o, pageCount);
      && (forall k :: 0 <= k < |run.progress| ==> run.progress[k].comments >= m.Size())
      && (forall k :: 0 <= k < |run.progress| - 1 ==> run.progress[k].comments <= run.progress[k + 1].comments)
      && (run.outcome.Success? && run.progress != [] ==>
            run.progress[|run.progress| - 1].comments == run.outcome.value.Size())
    decreases |pages|
  {
    if pages != [] {
      var v := VisitPage(m, pages[0], o, pageCount);
      if v.Continue? {
        WalkCounts(v.next, pages[1..], o, pageCount + 1);
      }
    }
  }

  /** With a positive page cap the walk makes at most `maxPages` thread
      page requests and reports at most `maxPages` pages. */
  lemma {:induction false} WalkCapped(m: Comments, pages: seq<Fetched<Thread>>, o: Options, pageCount: nat)
    requires Inv(m)
    requires 0 < o.maxPages && pageCount < o.maxPages
    ensures var run := Walk(m, pages, o, pageCount);
      run.requests <= o.maxPages - pageCount && |run.progress| <= run.requests
    decreases |pages|
  {
    if pages != [] {
      var v := VisitPage(m, pages[0], o, pageCount);
      if v.Continue? {
        WalkCapped(v.next, pages[1..], o, pageCount + 1);
      }
    }
  }

  /** The page cap at the start of a collection. */
  lemma CollectCapped(o: Options, pages: seq<Fetched<Thread>>)
    requires o.maxPages > 0
    ensures Walk(Empty(), pages, o, 0).requests <= o.maxPages
    ensures |Walk(Empty(), pages, o, 0).progress| <= o.maxPages
  {
    WalkCapped(Empty(), pages, o, 0);
  }

  /** Without `includeReplies` a thread contributes its top comment only,
      and the reply endpoint is never consulted. */
  lemma AddThreadWithoutReplies(m: Comments, t: Thread, o: Options, other: seq<Fetched<ApiComment>>)
    requires Inv(m) && !o.includeReplies
    ensures AddThread(m, t, o) == Success(Put(m, Record(o, t.topLevelComment, t.id, None)))
    ensures AddThread(m, t.(replyListing := other), o) == AddThread(m, t, o)
  {
  }

  /** Whatever the reply endpoint would answer does not matter unless the
      thread needs expansion. */
  lemma ReplyListingIgnored(m: Comments, t: Thread, o: Options, other: seq<Fetched<ApiComment>>)
    requires Inv(m) && !NeedsExpansion(t, o.includeReplies)
    ensures AddThread(m, t.(replyListing := other), o) == AddThread(m, t, o)
    ensures AddThread(m, t, o).Success?
  {
  }

  /** Without `includeReplies` no reply is ever recorded. */
  lemma {:induction false} ThreadsTopLevelOnly(m: Comments, ts: seq<Thread>, o: Options)
    requires Inv(m) && TopLevelOnly(m) && !o.includeReplies
    ensures AddThreads(m, ts, o).Success?
    ensures TopLevelOnly(AddThreads(m, ts, o).value)
    decreases |ts|
  {
    if ts != [] {
      var m' := Put(m, Record(o, ts[0].topLevelComment, ts[0].id, None));
      ThreadsTopLevelOnly(m', ts[1..], o);
    }
  }

  lemma {:induction false} WalkTopLevelOnly(m: Comments, pages: seq<Fetched<Thread>>, o: Options, pageCount: nat)
    requires Inv(m) && TopLevelOnly(m) && !o.includeReplies
    ensures var run := Walk(m, pages, o, pageCount);
      run.outcome.Success? ==> TopLevelOnly(run.outcome.value)
    decreases |pages|
  {
    if pages != [] && pages[0].Success? {
      ThreadsTopLevelOnly(m, pages[0].value.items, o);
      var v := VisitPage(m, pages[0], o, pageCount);
      if v.Continue? {
        WalkTopLevelOnly(v.next, pages[1..], o, pageCount + 1);
      }
    }
  }

  /** A single page without a next token ends the walk after one request
      and one progress report. */
  lemma SinglePage(o: Options, p: Page<Thread>)
    requires !HasNext(p)
    ensures var run := Walk(Empty(), [Success(p)], o, 0);
      run.requests == 1 && |run.progress| == (if AddThreads(Empty(), p.items, o).Success? then 1 else 0)
  {
  }
}
