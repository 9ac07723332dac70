/** The job routes (app/api/jobs/route.ts): `POST` validates a request and
    queues a collection job, `processJob` runs the collection and upserts
    its comments into the job, the rejection handler records a translated
    error, and `GET` lists job summaries newest first.

    The request body, the `YOUTUBE_API_KEY` setting, the title
    `fetchVideoTitle` returns, the generated job id, the clock and the
    YouTube listings are parameters. */
module JobsRoute {
  import opened Wrappers
  import opened Seqs
  import opened Text
  import opened Types
  import opened OrderedMap
  import opened YouTube
  import opened Retry
  import opened Collect
  import opened JobStore

  // ---------------------------------------------------------------------
  // Upserting collected comments into a job

  function Id(c: CommentRecord): string
  {
    c.commentId
  }

  /** `new Map(cs.map((c) => [c.comment_id, c]))`: a later record of the
      same id replaces an earlier one in its place. */
  function Index(m: Comments, cs: seq<CommentRecord>): (r: Comments)
    requires Inv(m)
    ensures Inv(r)
    decreases |cs|
  {
    if cs == [] then m else Index(Put(m, cs[0]), cs[1..])
  }

  /** A record is stored when its id is new or it is strictly newer than
      the stored one; on a tie the stored record stays. */
  predicate Replaces(m: Comments, c: CommentRecord)
  {
    c.commentId !in m.vals || c.updatedAt > m.vals[c.commentId].updatedAt
  }

  /** The upsert loop over the collected records. */
  function Upsert(m: Comments, cs: seq<CommentRecord>): (r: Comments)
    requires Inv(m)
    ensures Inv(r)
    decreases |cs|
  {
    if cs == [] then m
    else Upsert(if Replaces(m, cs[0]) then Put(m, cs[0]) else m, cs[1..])
  }

  /** The comments a finished job keeps. */
  function MergeComments(existing: seq<CommentRecord>, incoming: seq<CommentRecord>): seq<CommentRecord>
  {
    Upsert(Index(Empty(), existing), incoming).Values()
  }

  method Merge(existing: seq<CommentRecord>, incoming: seq<CommentRecord>) returns (r: seq<CommentRecord>)
    ensures r == MergeComments(existing, incoming)
  {
    var m: Comments := Empty();
    for i := 0 to |existing|
      invariant Inv(m)
      invariant Index(m, existing[i..]) == Index(Empty(), existing)
    {
      assert existing[i..][1..] == existing[i + 1..];
      m := m.Set(existing[i].commentId, existing[i]);
    }
    assert existing[|existing|..] == [];
    ghost var indexed := m;
    for i := 0 to |incoming|
      invariant Inv(m)
      invariant Upsert(m, incoming[i..]) == Upsert(indexed, incoming)
    {
      assert incoming[i..][1..] == incoming[i + 1..];
      var c := incoming[i];
      var prev := m.Get(c.commentId);
      if prev.None? || c.updatedAt > prev.value.updatedAt {
        m := m.Set(c.commentId, c);
      }
    }
    assert incoming[|incoming|..] == [];
    r := m.Values();
  }

  /** The stored record for `c`'s id is at least as new as `c`. */
  ghost predicate Covers(m: Comments, c: CommentRecord)
  {
    c.commentId in m.vals && m.vals[c.commentId].updatedAt >= c.updatedAt
  }

  /** `r` keeps every id of `m` with a record at least as new. */
  ghost predicate Dominates(r: Comments, m: Comments)
  {
    forall k :: k in m.vals ==> k in r.vals && r.vals[k].updatedAt >= m.vals[k].updatedAt
  }

  /** One record's upsert adds its id to the ids held. */
  lemma UpsertOneKeys(m: Comments, c: CommentRecord)
    requires Inv(m)
    ensures (if Replaces(m, c) then Put(m, c) else m).vals.Keys == m.vals.Keys + {c.commentId}
  {
  }

  /** Upserting keeps every id, and ends with the ids of the map and of
      the records. */
  lemma {:induction false} UpsertIds(m: Comments, cs: seq<CommentRecord>)
    requires Inv(m)
    ensures forall k :: k in Upsert(m, cs).vals <==> k in m.vals || k in Keys(cs, Id)
    decreases |cs|
  {
    if cs != [] {
      var m' := if Replaces(m, cs[0]) then Put(m, cs[0]) else m;
      UpsertOneKeys(m, cs[0]);
      UpsertIds(m', cs[1..]);
      KeysHead(cs, Id);
      assert Upsert(m, cs) == Upsert(m', cs[1..]);
    }
  }

  /** After upserting, every id holds a record at least as new as any
      record offered for it and as the one held before. */
  lemma {:induction false} UpsertNewest(m: Comments, cs: seq<CommentRecord>)
    requires Inv(m)
    ensures Dominates(Upsert(m, cs), m)
    ensures forall i :: 0 <= i < |cs| ==> Covers(Upsert(m, cs), cs[i])
    decreases |cs|
  {
    if cs != [] {
      var m' := if Replaces(m, cs[0]) then Put(m, cs[0]) else m;
      assert Dominates(m', m);
      assert Covers(m', cs[0]);
      UpsertNewest(m', cs[1..]);
      var r := Upsert(m, cs);
      assert r == Upsert(m', cs[1..]);
      forall i | 0 <= i < |cs| ensures Covers(r, cs[i]) {
        if i > 0 {
          assert cs[i] == cs[1..][i - 1];
        }
      }
    }
  }

  /** Every stored record is either the one held before or one of the
      records offered. */
  lemma {:induction false} UpsertOrigin(m: Comments, cs: seq<CommentRecord>)
    requires Inv(m)
    ensures forall k :: k in Upsert(m, cs).vals ==>
      (k in m.vals && Upsert(m, cs).vals[k] == m.vals[k]) || Upsert(m, cs).vals[k] in cs
    decreases |cs|
  {
    if cs != [] {
      var m' := if Replaces(m, cs[0]) then Put(m, cs[0]) else m;
      UpsertOrigin(m', cs[1..]);
    }
  }

  /** Records that are all covered change nothing. */
  lemma {:induction false} UpsertCovered(m: Comments, cs: seq<CommentRecord>)
    requires Inv(m)
    requires forall i :: 0 <= i < |cs| ==> Covers(m, cs[i])
    ensures Upsert(m, cs) == m
    decreases |cs|
  {
    if cs != [] {
      assert Covers(m, cs[0]);
      UpsertCovered(m, cs[1..]);
    }
  }

  /** Upserting the same records twice is the same as once. */
  lemma UpsertIdempotent(m: Comments, cs: seq<CommentRecord>)
    requires Inv(m)
    ensures Upsert(Upsert(m, cs), cs) == Upsert(m, cs)
  {
    UpsertNewest(m, cs);
    UpsertCovered(Upsert(m, cs), cs);
  }

  /** A record with a new id is appended, and the records after it still
      have new ids. */
  lemma UpsertFreshStep(m: Comments, cs: seq<CommentRecord>)
    requires Inv(m) && cs != []
    requires forall i :: 0 <= i < |cs| ==> cs[i].commentId !in m.vals
    requires forall i, j :: 0 <= i < j < |cs| ==> cs[i].commentId != cs[j].commentId
    ensures Upsert(m, cs) == Upsert(Put(m, cs[0]), cs[1..])
    ensures Put(m, cs[0]).Values() == m.Values() + [cs[0]]
    ensures forall i :: 0 <= i < |cs[1..]| ==> cs[1..][i].commentId !in Put(m, cs[0]).vals
  {
    SetValuesNew(m, cs[0].commentId, cs[0]);
    forall i | 0 <= i < |cs[1..]| ensures cs[1..][i].commentId !in Put(m, cs[0]).vals {
      assert cs[1..][i] == cs[i + 1];
    }
  }

  /** Records with pairwise distinct new ids are appended in order. */
  lemma {:induction false} UpsertFresh(m: Comments, cs: seq<CommentRecord>)
    requires Inv(m)
    requires forall i :: 0 <= i < |cs| ==> cs[i].commentId !in m.vals
    requires forall i, j :: 0 <= i < j < |cs| ==> cs[i].commentId != cs[j].commentId
    ensures Upsert(m, cs).Values() == m.Values() + cs
    decreases |cs|
  {
    if cs != [] {
      var m' := Put(m, cs[0]);
      UpsertFreshStep(m, cs);
      UpsertFresh(m', cs[1..]);
      AppendAssoc(m.Values(), [cs[0]], cs[1..]);
      assert [cs[0]] + cs[1..] == cs;
    }
  }

  /** Indexing records with pairwise distinct new ids appends them in
      order. */
  lemma {:induction false} IndexFresh(m: Comments, cs: seq<CommentRecord>)
    requires Inv(m)
    requires forall i :: 0 <= i < |cs| ==> cs[i].commentId !in m.vals
    requires forall i, j :: 0 <= i < j < |cs| ==> cs[i].commentId != cs[j].commentId
    ensures Index(m, cs).Values() == m.Values() + cs
    decreases |cs|
  {
    if cs != [] {
      UpsertFreshStep(m, cs);
      IndexFresh(Put(m, cs[0]), cs[1..]);
      AppendAssoc(m.Values(), [cs[0]], cs[1..]);
      assert [cs[0]] + cs[1..] == cs;
    }
  }

  /** A map keyed by id is determined by the list of its values. */
  lemma ValuesDetermine(a: Comments, b: Comments)
    requires Inv(a) && Inv(b) && a.Values() == b.Values()
    ensures a == b
  {
    ValueIds(a);
    ValueIds(b);
    assert a.keys == b.keys;
    forall k | k in a.vals ensures k in b.vals && a.vals[k] == b.vals[k] {
      var i :| 0 <= i < |a.keys| && a.keys[i] == k;
      assert a.Values()[i] == a.vals[k] && b.Values()[i] == b.vals[k];
    }
    assert a.vals.Keys == b.vals.Keys;
  }

  /** Merging the same collected records a second time, into the list the
      first merge stored, changes nothing. */
  lemma MergeIdempotent(existing: seq<CommentRecord>, incoming: seq<CommentRecord>)
    ensures MergeComments(MergeComments(existing, incoming), incoming) == MergeComments(existing, incoming)
  {
    var indexed := Index(Empty(), existing);
    var merged := Upsert(indexed, incoming);
    var stored := merged.Values();
    ValuesDistinctIds(merged);
    IndexFresh(Empty(), stored);
    assert Empty<CommentRecord>().Values() + stored == stored;
    ValuesDetermine(Index(Empty(), stored), merged);
    UpsertIdempotent(indexed, incoming);
  }

  /** A job without comments ends up with exactly the collected records. */
  lemma MergeIntoEmpty(m: Comments)
    requires Inv(m)
    ensures MergeComments([], m.Values()) == m.Values()
  {
    ValuesDistinctIds(m);
    UpsertFresh(Empty(), m.Values());
  }

  /** No later record of `cs` has the id of `cs[i]`. */
  predicate LastOfId(cs: seq<CommentRecord>, i: int)
    requires 0 <= i < |cs|
  {
    forall j :: i < j < |cs| ==> cs[j].commentId != cs[i].commentId
  }

  /** The ids a step of `Index` or `Upsert` appends: those of the records
      whose id is not held yet, in first-occurrence order. */
  function NewIds(m: Comments, cs: seq<CommentRecord>): seq<string>
  {
    Map(DedupFrom(cs, Id, m.vals.Keys), Id)
  }

  lemma NewIdsStep(m: Comments, cs: seq<CommentRecord>)
    requires Inv(m) && cs != []
    ensures var m' := Put(m, cs[0]);
      m'.keys + NewIds(m', cs[1..]) == m.keys + NewIds(m, cs)
  {
    var m' := Put(m, cs[0]);
    if cs[0].commentId in m.vals {
      assert m'.vals.Keys == m.vals.Keys;
    } else {
      assert m'.vals.Keys == m.vals.Keys + {cs[0].commentId};
      var rest := DedupFrom(cs[1..], Id, m'.vals.Keys);
      assert DedupFrom(cs, Id, m.vals.Keys) == [cs[0]] + rest;
      assert Map([cs[0]] + rest, Id) == [cs[0].commentId] + Map(rest, Id);
    }
  }

  /** `new Map(cs.map((c) => [c.comment_id, c]))` added to `m`: the new ids
      are appended in first-occurrence order. */
  lemma {:induction false} IndexKeys(m: Comments, cs: seq<CommentRecord>)
    requires Inv(m)
    ensures Index(m, cs).keys == m.keys + NewIds(m, cs)
    decreases |cs|
  {
    if cs == [] {
      assert DedupFrom(cs, Id, m.vals.Keys) == [];
    } else {
      IndexKeys(Put(m, cs[0]), cs[1..]);
      NewIdsStep(m, cs);
    }
  }

  /** The ids held after indexing are those of `m` and of the records. */
  lemma {:induction false} IndexIds(m: Comments, cs: seq<CommentRecord>)
    requires Inv(m)
    ensures forall k :: k in Index(m, cs).vals <==> k in m.vals || k in Keys(cs, Id)
    decreases |cs|
  {
    if cs != [] {
      IndexIds(Put(m, cs[0]), cs[1..]);
      KeysHead(cs, Id);
    }
  }

  /** Each id of the records holds the last record with that id. */
  lemma {:induction false} IndexLast(m: Comments, cs: seq<CommentRecord>, i: nat)
    requires Inv(m) && i < |cs| && LastOfId(cs, i)
    ensures cs[i].commentId in Index(m, cs).vals && Index(m, cs).vals[cs[i].commentId] == cs[i]
    decreases |cs|
  {
    var m' := Put(m, cs[0]);
    if i == 0 {
      forall j | 0 <= j < |cs[1..]| ensures Id(cs[1..][j]) != cs[0].commentId {
        assert cs[1..][j] == cs[j + 1];
      }
      IndexUntouched(m', cs[1..], cs[0].commentId);
    } else {
      assert cs[i] == cs[1..][i - 1];
      assert LastOfId(cs[1..], i - 1);
      IndexLast(m', cs[1..], i - 1);
    }
  }

  /** An id no record carries keeps its record. */
  lemma {:induction false} IndexUntouched(m: Comments, cs: seq<CommentRecord>, k: string)
    requires Inv(m) && k in m.vals && forall j :: 0 <= j < |cs| ==> Id(cs[j]) != k
    ensures k in Index(m, cs).vals && Index(m, cs).vals[k] == m.vals[k]
    decreases |cs|
  {
    if cs != [] {
      var m' := Put(m, cs[0]);
      assert Id(cs[0]) != k;
      forall j | 0 <= j < |cs[1..]| ensures Id(cs[1..][j]) != k {
        assert cs[1..][j] == cs[j + 1];
      }
      IndexUntouched(m', cs[1..], k);
    }
  }

  /** Upserting appends the ids not held yet, in first-occurrence order. */
  lemma {:induction false} UpsertKeys(m: Comments, cs: seq<CommentRecord>)
    requires Inv(m)
    ensures Upsert(m, cs).keys == m.keys + NewIds(m, cs)
    decreases |cs|
  {
    if cs == [] {
      assert DedupFrom(cs, Id, m.vals.Keys) == [];
    } else {
      var m' := if Replaces(m, cs[0]) then Put(m, cs[0]) else m;
      UpsertKeys(m', cs[1..]);
      NewIdsStep(m, cs);
      if !Replaces(m, cs[0]) {
        assert Put(m, cs[0]).keys == m.keys && Put(m, cs[0]).vals.Keys == m.vals.Keys;
      }
    }
  }

  /** The ids of a map's values are its keys. */
  lemma ValueIds(m: Comments)
    requires Inv(m)
    ensures Map(m.Values(), Id) == m.keys
  {
    forall i | 0 <= i < |m.keys| ensures Map(m.Values(), Id)[i] == m.keys[i] {
      assert m.keys[i] in m.vals;
    }
  }

  /** The merged comments: the job's ids in first-occurrence order, then
      the new ids of the collected records in first-occurrence order, each
      once, so the ids are exactly those of the job and of the collection. */
  lemma MergeSpec(existing: seq<CommentRecord>, incoming: seq<CommentRecord>)
    ensures var r := MergeComments(existing, incoming);
      && DistinctKeys(r, Id)
      && Map(r, Id) == Map(DedupBy(existing, Id), Id) + Map(DedupFrom(incoming, Id, Keys(existing, Id)), Id)
      && Keys(r, Id) == Keys(existing, Id) + Keys(incoming, Id)
  {
    var e: Comments := Empty();
    var idx := Index(e, existing);
    IndexedIds(existing);
    var u := Upsert(idx, incoming);
    UpsertKeys(idx, incoming);
    UpsertIds(idx, incoming);
    ValueIds(u);
    ValuesDistinctIds(u);
    MapKeys(u.Values(), Id);
    assert u.vals.Keys == idx.vals.Keys + Keys(incoming, Id);
  }

  /** Indexing from an empty map holds exactly the ids of the records, in
      first-occurrence order. */
  lemma IndexedIds(cs: seq<CommentRecord>)
    ensures var e: Comments := Empty();
      Index(e, cs).keys == Map(DedupBy(cs, Id), Id) && Index(e, cs).vals.Keys == Keys(cs, Id)
  {
    var e: Comments := Empty();
    IndexKeys(e, cs);
    IndexIds(e, cs);
    assert e.vals.Keys == {};
  }

  /** Every collected record is matched by a merged record with its id
      that is at least as new. */
  lemma MergeNewest(existing: seq<CommentRecord>, incoming: seq<CommentRecord>, j: nat)
    requires j < |incoming|
    ensures exists d :: (d in MergeComments(existing, incoming)
                         && d.commentId == incoming[j].commentId && d.updatedAt >= incoming[j].updatedAt)
  {
    var e: Comments := Empty();
    var idx := Index(e, existing);
    var u := Upsert(idx, incoming);
    UpsertNewest(idx, incoming);
    var k := incoming[j].commentId;
    assert Covers(u, incoming[j]);
    var i :| 0 <= i < |u.keys| && u.keys[i] == k;
    assert u.Values()[i] == u.vals[k];
  }

  /** An id the collected records do not carry keeps the job's last record
      for it. */
  lemma MergeRecords(existing: seq<CommentRecord>, incoming: seq<CommentRecord>, i: nat)
    requires i < |existing| && LastOfId(existing, i) && existing[i].commentId !in Keys(incoming, Id)
    ensures existing[i] in MergeComments(existing, incoming)
  {
    var e: Comments := Empty();
    var idx := Index(e, existing);
    IndexLast(e, existing, i);
    var u := Upsert(idx, incoming);
    var k := existing[i].commentId;
    assert idx.vals[k] == existing[i];
    UpsertUntouched(idx, incoming, k);
    UpsertIds(idx, incoming);
    var j :| 0 <= j < |u.keys| && u.keys[j] == k;
    assert u.Values()[j] == existing[i];
  }

  /** An id no record carries keeps its record through the upsert. */
  lemma {:induction false} UpsertUntouched(m: Comments, cs: seq<CommentRecord>, k: string)
    requires Inv(m) && k in m.vals && k !in Keys(cs, Id)
    ensures k in Upsert(m, cs).vals && Upsert(m, cs).vals[k] == m.vals[k]
    decreases |cs|
  {
    if cs != [] {
      KeysHead(cs, Id);
      var m' := if Replaces(m, cs[0]) then Put(m, cs[0]) else m;
      UpsertUntouched(m', cs[1..], k);
    }
  }

  // ---------------------------------------------------------------------
  // Error messages

  const OtherPrefix: string := "수집 중 오류 발생: "

  /** The messages `translateError` recognises: the three codes and the
      two prefixes. */
  predicate Recognised(msg: string)
  {
    || msg == "COMMENTS_DISABLED" || msg == "QUOTA_EXCEEDED" || msg == "VIDEO_NOT_FOUND"
    || StartsWith(msg, "API_FORBIDDEN") || StartsWith(msg, "API_ERROR")
  }

  /** `translateError(msg)` */
  function TranslateError(msg: string): string
  {
    if msg == "COMMENTS_DISABLED" then "이 영상은 댓글이 비활성화되어 있습니다."
    else if msg == "QUOTA_EXCEEDED" then "YouTube API 일일 할당량이 초과되었습니다. 내일 다시 시도해주세요."
    else if msg == "VIDEO_NOT_FOUND" then "영상을 찾을 수 없습니다. 비공개이거나 삭제된 영상일 수 있습니다."
    else if StartsWith(msg, "API_FORBIDDEN") then "API 접근이 거부되었습니다: " + msg
    else if StartsWith(msg, "API_ERROR") then "API 오류: " + msg
    else OtherPrefix + msg
  }

  /** What a job shows for each error the client throws. */
  lemma TranslateFetchError(e: FetchError)
    ensures e.CommentsDisabled? ==> TranslateError(Message(e)) == "이 영상은 댓글이 비활성화되어 있습니다."
    ensures e.QuotaExceeded? ==>
      TranslateError(Message(e)) == "YouTube API 일일 할당량이 초과되었습니다. 내일 다시 시도해주세요."
    ensures e.VideoNotFound? ==>
      TranslateError(Message(e)) == "영상을 찾을 수 없습니다. 비공개이거나 삭제된 영상일 수 있습니다."
    ensures e.ApiForbidden? ==> TranslateError(Message(e)) == "API 접근이 거부되었습니다: " + Message(e)
    ensures e.ApiError? ==> TranslateError(Message(e)) == "API 오류: " + Message(e)
    ensures e.MaxRetriesExceeded? ==> TranslateError(Message(e)) == OtherPrefix + Message(e)
    ensures e.Thrown? ==> (TranslateError(Message(e)) == OtherPrefix + e.message <==> !Recognised(e.message))
  {
    match e {
      case CommentsDisabled => TranslateDisabled();
      case QuotaExceeded => TranslateQuota();
      case VideoNotFound => TranslateNotFound();
      case ApiForbidden(d) => TranslateForbidden(Message(e), d);
      case ApiError(st, b) => TranslateApiError(Message(e), IntToString(st) + " " + b);
      case MaxRetriesExceeded =>
        assert Message(e)[0] == 'M';
        TranslateOther(Message(e));
      case Thrown(m) => TranslateOther(m);
    }
  }

  lemma TranslateDisabled()
    ensures TranslateError(Message(CommentsDisabled)) == "이 영상은 댓글이 비활성화되어 있습니다."
  {
    assert Message(CommentsDisabled) == "COMMENTS_DISABLED";
  }

  lemma TranslateQuota()
    ensures TranslateError(Message(QuotaExceeded))
      == "YouTube API 일일 할당량이 초과되었습니다. 내일 다시 시도해주세요."
  {
    assert |Message(QuotaExceeded)| == 14;
  }

  lemma TranslateNotFound()
    ensures TranslateError(Message(VideoNotFound))
      == "영상을 찾을 수 없습니다. 비공개이거나 삭제된 영상일 수 있습니다."
  {
    assert |Message(VideoNotFound)| == 15;
  }

  lemma TranslateForbidden(msg: string, detail: string)
    requires msg == "API_FORBIDDEN: " + detail
    ensures TranslateError(msg) == "API 접근이 거부되었습니다: " + msg
  {
    assert msg[0] == 'A' && msg[..13] == "API_FORBIDDEN";
  }

  lemma TranslateApiError(msg: string, detail: string)
    requires msg == "API_ERROR: " + detail
    ensures TranslateError(msg) == "API 오류: " + msg
  {
    assert msg[0] == 'A' && msg[4] == 'E' && msg[..9] == "API_ERROR";
  }

  /** The generic prefix is shown exactly for the messages the function
      does not recognise: every recognised message is shown with text that
      starts differently. */
  lemma TranslateOther(msg: string)
    ensures TranslateError(msg) == OtherPrefix + msg <==> !Recognised(msg)
  {
    if Recognised(msg) {
      assert TranslateError(msg)[0] != OtherPrefix[0];
    }
  }

  /** A network failure (`fetch` rejecting with "fetch failed") reaches the
      job with the generic prefix. */
  lemma TranslateNetworkFailure()
    ensures TranslateError(Message(Thrown("fetch failed"))) == "수집 중 오류 발생: fetch failed"
  {
    var msg := "fetch failed";
    assert msg[0] == 'f';
    assert !Recognised(msg);
  }

  // ---------------------------------------------------------------------
  // POST /api/jobs

  /** The `url` field of the JSON body. */
  datatype UrlField = Missing | NotText | Text(s: string)

  /** The destructured body; an absent optional field takes its default. */
  datatype PostBody = PostBody(url: UrlField, order: Option<string>, maxPages: Option<int>,
                               includeReplies: Option<bool>)

  datatype PostReply = Accepted(jobId: string) | Rejected(status: int, error: string)

  const UrlRequired: string := "유튜브 영상 URL을 입력해주세요."
  const UrlInvalid: string := "올바른 유튜브 URL이 아닙니다. (일반/공유/shorts URL 지원)"
  const KeyMissing: string := "YOUTUBE_API_KEY 환경변수가 설정되지 않았습니다."
  const RequestFailed: string := "요청 처리 중 오류가 발생했습니다."
  const Waiting: string := "대기 중..."

  /** The job a valid request queues. */
  function QueuedJob(url: string, videoId: string, body: PostBody, fetchedTitle: string, jobId: string, now: int): Job
  {
    Job(jobId, videoId, url,
        if fetchedTitle != "" then fetchedTitle else "영상 " + videoId,
        body.order.GetOr("time"), body.maxPages.GetOr(5), body.includeReplies.GetOr(false),
        Queued, JobProgress(0, 0, Waiting), None, now, [])
  }

  /** The outcome of a `POST`: the job to store, or the reply. `body` is
      `None` when the body is not a JSON object. */
  function NewJob(body: Option<PostBody>, parse: UrlParser, apiKey: Option<string>,
                  fetchedTitle: string, jobId: string, now: int): Result<Job, PostReply>
  {
    if body.None? then Failure(Rejected(500, RequestFailed))
    else if !body.value.url.Text? || body.value.url.s == "" then Failure(Rejected(400, UrlRequired))
    else
      var url := body.value.url.s;
      var videoId := ParseVideoId(url, parse);
      if videoId.None? || videoId.value == "" then Failure(Rejected(400, UrlInvalid))
      else if apiKey.None? || apiKey.value == "" then Failure(Rejected(500, KeyMissing))
      else Success(QueuedJob(url, videoId.value, body.value, fetchedTitle, jobId, now))
  }

  /** A queued job: its id, the untrimmed URL, a video id the parser
      produced, a non-empty title, the defaults for absent options, and
      empty progress and results. */
  lemma AcceptedJob(body: Option<PostBody>, parse: UrlParser, apiKey: Option<string>,
                    fetchedTitle: string, jobId: string, now: int)
    requires NewJob(body, parse, apiKey, fetchedTitle, jobId, now).Success?
    ensures var job := NewJob(body, parse, apiKey, fetchedTitle, jobId, now).value;
      && body.Some? && body.value.url.Text?
      && job.id == jobId && job.videoUrl == body.value.url.s && job.createdAt == now
      && ParseVideoId(job.videoUrl, parse) == Some(job.videoId) && job.videoId != ""
      && job.videoTitle != ""
      && (fetchedTitle != "" ==> job.videoTitle == fetchedTitle)
      && (body.value.order.None? ==> job.order == "time")
      && (body.value.maxPages.None? ==> job.maxPages == 5)
      && (body.value.includeReplies.None? ==> !job.includeReplies)
      && job.status == Queued && job.progress == JobProgress(0, 0, Waiting)
      && job.error.None? && job.comments == []
  {
  }

  /** The URL is checked before the API key: a request without a usable
      URL is a 400 even when the server has no key. */
  lemma RejectionOrder(body: PostBody, parse: UrlParser, apiKey: Option<string>,
                       fetchedTitle: string, jobId: string, now: int)
    ensures !body.url.Text? || body.url.s == "" ==>
      NewJob(Some(body), parse, apiKey, fetchedTitle, jobId, now) == Failure(Rejected(400, UrlRequired))
    ensures body.url.Text? && body.url.s != "" && ParseVideoId(body.url.s, parse).None? ==>
      NewJob(Some(body), parse, apiKey, fetchedTitle, jobId, now) == Failure(Rejected(400, UrlInvalid))
    ensures NewJob(Some(body), parse, apiKey, fetchedTitle, jobId, now) == Failure(Rejected(500, KeyMissing)) ==>
      apiKey.None? || apiKey.value == ""
    ensures NewJob(Some(body), parse, apiKey, fetchedTitle, jobId, now).Success? <==>
      && body.url.Text? && body.url.s != ""
      && ParseVideoId(body.url.s, parse).Some? && ParseVideoId(body.url.s, parse).value != ""
      && apiKey.Some? && apiKey.value != ""
  {
  }

  /** `POST(request)` up to launching `processJob`. */
  method Post(store: Store, body: Option<PostBody>, parse: UrlParser, apiKey: Option<string>,
              fetchedTitle: string, jobId: string, now: int) returns (reply: PostReply)
    requires store.Valid()
    modifies store
    ensures store.Valid()
    ensures match NewJob(body, parse, apiKey, fetchedTitle, jobId, now)
      case Success(job) => reply == Accepted(jobId) && store.jobs == old(store.jobs).Set(jobId, job)
      case Failure(rejected) => reply == rejected && store.jobs == old(store.jobs)
  {
    if body.None? {
      return Rejected(500, RequestFailed);
    }
    var url := body.value.url;
    if !url.Text? || url.s == "" {
      return Rejected(400, UrlRequired);
    }
    var videoId := ParseVideoId(url.s, parse);
    if videoId.None? || videoId.value == "" {
      return Rejected(400, UrlInvalid);
    }
    if apiKey.None? || apiKey.value == "" {
      return Rejected(500, KeyMissing);
    }
    var job := QueuedJob(url.s, videoId.value, body.value, fetchedTitle, jobId, now);
    store.SetJob(job);
    reply := Accepted(jobId);
  }

  // ---------------------------------------------------------------------
  // processJob and the rejection handler

  const Starting: string := "수집 시작..."
  const Finished: string := "수집 완료"

  /** The progress an `onProgress(pages, commentCount)` call installs. */
  function Reported(p: Progress): JobProgress
  {
    JobProgress(p.pages, p.comments,
                "페이지 " + NatToString(p.pages) + " 처리 중 (" + NatToString(p.comments) + "개 수집)")
  }

  /** The job once it is marked running. */
  function Started(job: Job): Job
  {
    job.(status := Running, progress := job.progress.(currentPage := Starting))
  }

  /** The collection options a job asks for. */
  function JobOptions(job: Job, fetchedAt: string): Options
  {
    Options(job.videoId, job.videoUrl, job.maxPages, job.includeReplies, fetchedAt)
  }

  /** The job after the progress reports: the last one is what shows. */
  function AfterReports(job: Job, reports: seq<Progress>): Job
  {
    if reports == [] then job else job.(progress := Reported(reports[|reports| - 1]))
  }

  /** The job once the collection has resolved or rejected. */
  function Settled(job: Job, outcome: Result<seq<CommentRecord>, FetchError>): Job
  {
    match outcome
    case Success(cs) =>
      var merged := MergeComments(job.comments, cs);
      job.(comments := merged, status := Done,
           progress := job.progress.(currentPage := Finished, comments := |merged|))
    case Failure(e) =>
      job.(status := Error, error := Some(TranslateError(Message(e))))
  }

  /** The stored job after `processJob` and, on a rejection, its handler. */
  function ProcessedJob(job: Job, pages: seq<Fetched<Thread>>, fetchedAt: string): Job
  {
    var started := Started(job);
    var run := Walk(Empty(), pages, JobOptions(started, fetchedAt), 0);
    Settled(AfterReports(started, run.progress), Returned(run.outcome))
  }

  /** `processJob(job, apiKey)` followed by its `.catch` handler. The
      progress reports are applied in the order they were made. */
  method ProcessJob(store: Store, jobId: string, pages: seq<Fetched<Thread>>, fetchedAt: string)
    requires store.Valid()
    modifies store
    ensures store.Valid()
    ensures match old(store.GetJob(jobId))
      case None => store.jobs == old(store.jobs)
      case Some(job) => store.jobs == old(store.jobs).Set(jobId, ProcessedJob(job, pages, fetchedAt))
  {
    var current := store.GetJob(jobId);
    if current.None? {
      return;
    }
    ghost var before := store.jobs;
    var job := Started(current.value);
    store.SetJob(job);
    var outcome, reports, _ := CollectComments(JobOptions(job, fetchedAt), pages);
    ApplyReports(store, jobId, before, job, reports);
    SettleJob(store, jobId, before, AfterReports(job, reports), outcome);
  }

  /** The `onProgress` callbacks: each report replaces the stored job's
      progress. */
  method ApplyReports(store: Store, jobId: string, ghost before: OMap<Job>, job: Job, reports: seq<Progress>)
    requires store.Valid() && before.Valid() && job.id == jobId
    requires store.jobs == before.Set(jobId, job)
    modifies store
    ensures store.Valid() && store.jobs == before.Set(jobId, AfterReports(job, reports))
  {
    for i := 0 to |reports|
      invariant store.Valid()
      invariant store.jobs == before.Set(jobId, AfterReports(job, reports[..i]))
    {
      var running := store.GetJob(jobId);
      assert running.value == AfterReports(job, reports[..i]);
      var updated := running.value.(progress := Reported(reports[i]));
      ReportStep(job, reports, i);
      SetTwice(before, jobId, running.value, updated);
      store.SetJob(updated);
    }
    assert reports[..|reports|] == reports;
  }

  /** One more report replaces the progress shown. */
  lemma ReportStep(job: Job, reports: seq<Progress>, i: nat)
    requires i < |reports|
    ensures AfterReports(job, reports[..i + 1]) == AfterReports(job, reports[..i]).(progress := Reported(reports[i]))
  {
    assert reports[..i + 1][i] == reports[i];
  }

  /** The end of `processJob` and the rejection handler: the stored job
      is settled with the collection's outcome. */
  method SettleJob(store: Store, jobId: string, ghost before: OMap<Job>, ghost last: Job,
                   outcome: Result<seq<CommentRecord>, FetchError>)
    requires store.Valid() && before.Valid() && last.id == jobId
    requires store.jobs == before.Set(jobId, last)
    modifies store
    ensures store.Valid() && store.jobs == before.Set(jobId, Settled(last, outcome))
  {
    var stored := store.GetJob(jobId).value;
    assert stored == last;
    var settled;
    match outcome {
      case Success(cs) =>
        var merged := Merge(stored.comments, cs);
        settled := stored.(comments := merged, status := Done,
                           progress := stored.progress.(currentPage := Finished, comments := |merged|));
      case Failure(e) =>
        settled := stored.(status := Error, error := Some(TranslateError(Message(e))));
    }
    SetTwice(before, jobId, stored, settled);
    store.SetJob(settled);
  }

  /** Processing keeps the job's identity and request, and ends it done or
      failed: done exactly when the collection resolved, with the progress
      counting the comments kept; failed with the translated error
      otherwise. */
  lemma ProcessedJobSettles(job: Job, pages: seq<Fetched<Thread>>, fetchedAt: string)
    ensures var r := ProcessedJob(job, pages, fetchedAt);
      var run := Walk(Empty(), pages, JobOptions(job, fetchedAt), 0);
      && r.id == job.id && r.videoId == job.videoId && r.videoUrl == job.videoUrl
      && r.videoTitle == job.videoTitle && r.createdAt == job.createdAt
      && r.maxPages == job.maxPages && r.includeReplies == job.includeReplies
      && (r.status == Done <==> run.outcome.Success?)
      && (r.status == Error <==> run.outcome.Failure?)
      && (r.status == Done ==> r.progress.comments == |r.comments| && r.progress.currentPage == Finished)
      && (r.status == Error ==> r.error == Some(TranslateError(Message(run.outcome.error))) && r.comments == job.comments)
  {
    assert JobOptions(Started(job), fetchedAt) == JobOptions(job, fetchedAt);
  }

  /** The last progress report shows in the job; it names the page and the
      comment count of that report. */
  lemma ProcessedJobProgress(job: Job, pages: seq<Fetched<Thread>>, fetchedAt: string)
    ensures var run := Walk(Empty(), pages, JobOptions(job, fetchedAt), 0);
      run.progress != [] ==> ProcessedJob(job, pages, fetchedAt).progress.pages == run.progress[|run.progress| - 1].pages
    ensures var run := Walk(Empty(), pages, JobOptions(job, fetchedAt), 0);
      run.progress != [] && run.outcome.Failure? ==>
        ProcessedJob(job, pages, fetchedAt).progress == Reported(run.progress[|run.progress| - 1])
  {
    var started := Started(job);
    assert JobOptions(started, fetchedAt) == JobOptions(job, fetchedAt);
    var run := Walk(Empty(), pages, JobOptions(job, fetchedAt), 0);
    var after := AfterReports(started, run.progress);
    assert ProcessedJob(job, pages, fetchedAt) == Settled(after, Returned(run.outcome));
    SettledProgress(after, Returned(run.outcome));
  }

  /** Settling keeps the page count shown, and a failure keeps the whole
      progress. */
  lemma SettledProgress(job: Job, outcome: Result<seq<CommentRecord>, FetchError>)
    ensures Settled(job, outcome).progress.pages == job.progress.pages
    ensures outcome.Failure? ==> Settled(job, outcome).progress == job.progress
  {
  }

  /** A job fresh from `POST` that finishes holds exactly the collected
      comments, with distinct ids, and its progress counts them. */
  lemma FreshJobResult(job: Job, pages: seq<Fetched<Thread>>, fetchedAt: string)
    requires job.comments == []
    ensures var r := ProcessedJob(job, pages, fetchedAt);
      var run := Walk(Empty(), pages, JobOptions(job, fetchedAt), 0);
      run.outcome.Success? ==>
        && r.comments == run.outcome.value.Values()
        && r.progress.comments == run.outcome.value.Size()
        && (forall i, j :: 0 <= i < j < |r.comments| ==> r.comments[i].commentId != r.comments[j].commentId)
  {
    var run := Walk(Empty(), pages, JobOptions(job, fetchedAt), 0);
    assert JobOptions(Started(job), fetchedAt) == JobOptions(job, fetchedAt);
    if run.outcome.Success? {
      MergeIntoEmpty(run.outcome.value);
      ValuesDistinctIds(run.outcome.value);
    }
  }

  // ---------------------------------------------------------------------
  // GET /api/jobs

  datatype Summary = Summary(id: string, videoId: string, videoUrl: string, videoTitle: string,
                             status: JobStatus, progress: JobProgress, error: Option<string>,
                             createdAt: int, commentCount: nat)

  function Summarize(j: Job): Summary
  {
    Summary(j.id, j.videoId, j.videoUrl, j.videoTitle, j.status, j.progress, j.error,
            j.createdAt, |j.comments|)
  }

  /** `GET()`: one summary per stored job, in the order of `getAllJobs`,
      counting comments instead of listing them. */
  function List(store: Store): seq<Summary>
    reads store
    requires store.Valid()
  {
    var all := store.AllJobs();
    seq(|all|, i requires 0 <= i < |all| => Summarize(all[i]))
  }

  /** The list holds one summary per stored job, newest first. */
  lemma ListOrder(store: Store)
    requires store.Valid()
    ensures |List(store)| == |store.jobs.keys|
    ensures forall i, j :: 0 <= i < j < |List(store)| ==> List(store)[i].createdAt >= List(store)[j].createdAt
  {
    var all := store.AllJobs();
    assert |all| == |store.jobs.Values()| by {
      assert |multiset(all)| == |multiset(store.jobs.Values())|;
    }
  }

  /** Every summary in the list is that of a stored job. */
  lemma ListSound(store: Store)
    requires store.Valid()
    ensures forall i :: 0 <= i < |List(store)| ==>
      exists id :: id in store.jobs.keys && List(store)[i] == Summarize(store.jobs.vals[id])
  {
    var all := store.AllJobs();
    var r := List(store);
    forall i | 0 <= i < |r| ensures exists id :: id in store.jobs.keys && r[i] == Summarize(store.jobs.vals[id]) {
      assert all[i] in all;
      var id :| id in store.jobs.keys && store.GetJob(id) == Some(all[i]);
      assert store.jobs.vals[id] == all[i];
    }
  }

  /** Every stored job has its summary in the list. */
  lemma ListComplete(store: Store)
    requires store.Valid()
    ensures forall id :: id in store.jobs.keys ==> Summarize(store.jobs.vals[id]) in List(store)
  {
    var all := store.AllJobs();
    var r := List(store);
    forall id | id in store.jobs.keys ensures Summarize(store.jobs.vals[id]) in r {
      var j := store.jobs.vals[id];
      assert store.GetJob(id) == Some(j);
      assert j in all;
      var i :| 0 <= i < |all| && all[i] == j;
      assert r[i] == Summarize(j);
    }
  }
}
