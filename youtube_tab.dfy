/** The YouTube comment-collection tab (components/youtube-tab.tsx): it
    submits collection jobs, keeps the list of jobs of this session, polls
    the active job until it finishes, and hands each finished job's first
    page of comments on as monitoring items, once per job.

    The polling interval is represented by the id of the job it polls;
    each poll is a call of `PollJob` with the reply it received. */
module YouTubeTab {
  import opened Wrappers
  import opened Text
  import opened Seqs
  import opened Types
  import opened Tabs
  import opened JobsRoute
  import ResultsTable

  const LoadingTitle := "제목 불러오는 중..."
  const WaitingMessage := "대기 중..."
  const RequestFailed := "요청 실패"
  const NetworkError := "네트워크 오류가 발생했습니다."
  const ChannelPrefix := "https://www.youtube.com/channel/"

  /** The `setJobs` update of `pollJob`: the entry of the polled job takes
      the reply's status, progress, error and count, and its title and
      video id unless the reply's are empty. */
  function Polled(j: Summary, data: Summary): Summary
  {
    j.(status := data.status, progress := data.progress, error := data.error,
       commentCount := data.commentCount,
       videoTitle := Or(data.videoTitle, j.videoTitle),
       videoId := Or(data.videoId, j.videoId))
  }

  function UpdateJobs(jobs: seq<Summary>, jobId: string, data: Summary): (r: seq<Summary>)
    ensures |r| == |jobs|
  {
    Map(jobs, (j: Summary) => if j.id == jobId then Polled(j, data) else j)
  }

  /** A poll changes only the entries of the polled job, keeps their id,
      URL and creation time, and keeps a known title or video id when the
      reply has none. */
  lemma UpdateJobsSpec(jobs: seq<Summary>, jobId: string, data: Summary)
    ensures var r := UpdateJobs(jobs, jobId, data);
      forall i :: 0 <= i < |jobs| ==>
        && (jobs[i].id != jobId ==> r[i] == jobs[i])
        && (jobs[i].id == jobId ==>
              && r[i].id == jobs[i].id && r[i].videoUrl == jobs[i].videoUrl
              && r[i].createdAt == jobs[i].createdAt
              && r[i].status == data.status && r[i].progress == data.progress
              && r[i].error == data.error && r[i].commentCount == data.commentCount
              && r[i].videoTitle == (if data.videoTitle == "" then jobs[i].videoTitle else data.videoTitle)
              && r[i].videoId == (if data.videoId == "" then jobs[i].videoId else data.videoId))
  {
  }

  predicate IsFinished(s: JobStatus)
  {
    s == Done || s == Error
  }

  /** The report-once rule: a job's comments are handed on when its status
      is done, someone listens, and it has not been reported before. */
  predicate ShouldReport(reported: set<string>, hasListener: bool, jobId: string, status: JobStatus)
  {
    status == Done && hasListener && jobId !in reported
  }

  /** One poll's status as seen by the report rule. */
  datatype Poll = Poll(jobId: string, status: JobStatus)

  /** The jobs reported over a run of polls, in order. */
  function Reports(reported: set<string>, hasListener: bool, polls: seq<Poll>): seq<string>
    decreases |polls|
  {
    if polls == [] then []
    else if ShouldReport(reported, hasListener, polls[0].jobId, polls[0].status)
    then [polls[0].jobId] + Reports(reported + {polls[0].jobId}, hasListener, polls[1..])
    else Reports(reported, hasListener, polls[1..])
  }

  /** However often a job is polled, it is reported at most once, never
      when it was reported before the run, and only after a poll that saw
      it done. */
  lemma {:induction false} ReportsOnce(reported: set<string>, hasListener: bool, polls: seq<Poll>)
    ensures var r := Reports(reported, hasListener, polls);
      && NoDup(r)
      && (forall id :: id in r ==> id !in reported && Poll(id, Done) in polls)
    decreases |polls|
  {
    if polls != [] {
      var p := polls[0];
      if ShouldReport(reported, hasListener, p.jobId, p.status) {
        ReportsOnce(reported + {p.jobId}, hasListener, polls[1..]);
        var rest := Reports(reported + {p.jobId}, hasListener, polls[1..]);
        assert p.jobId !in rest;
        ConsNoDup(p.jobId, rest);
        forall id | id in rest ensures Poll(id, Done) in polls {
          assert polls == [p] + polls[1..];
        }
      } else {
        ReportsOnce(reported, hasListener, polls[1..]);
        var rest := Reports(reported, hasListener, polls[1..]);
        forall id | id in rest ensures Poll(id, Done) in polls {
          assert polls == [p] + polls[1..];
        }
      }
    }
  }

  /** The item a reported comment becomes. */
  function CommentItem(videoId: string, videoTitle: string, c: CommentRecord): MonitoringItem
  {
    MonitoringItem("yt-" + c.commentId, YouTube, Comment, videoTitle, c.textPlain,
      c.authorDisplayName,
      if c.authorChannelId != "" then Some(ChannelPrefix + c.authorChannelId) else None,
      ResultsTable.ReportUrl(videoId, c.commentId), c.publishedAt, [], false)
  }

  /** Each item carries the video's title and the comment's text, an
      author link exactly when the channel id is known, and comments with
      different ids get different item ids and, for a video id without
      "&", different links. */
  lemma CommentItemSpec(videoId: string, videoTitle: string, a: CommentRecord, b: CommentRecord)
    ensures var x := CommentItem(videoId, videoTitle, a);
      && x.title == videoTitle && x.content == a.textPlain
      && (x.authorUrl.Some? <==> a.authorChannelId != "")
    ensures (CommentItem(videoId, videoTitle, a).id == CommentItem(videoId, videoTitle, b).id) <==>
      (a.commentId == b.commentId)
    ensures '&' !in videoId ==>
      ((CommentItem(videoId, videoTitle, a).link == CommentItem(videoId, videoTitle, b).link) <==>
        (a.commentId == b.commentId))
  {
    if CommentItem(videoId, videoTitle, a).id == CommentItem(videoId, videoTitle, b).id {
      assert ("yt-" + a.commentId)[3..] == a.commentId;
      assert ("yt-" + b.commentId)[3..] == b.commentId;
    }
    if '&' !in videoId && CommentItem(videoId, videoTitle, a).link == CommentItem(videoId, videoTitle, b).link {
      ResultsTable.ReportUrlInjective(videoId, a.commentId, videoId, b.commentId);
    }
  }

  /** `fetchAndReportComments`: the items for the first results page. */
  function CommentItems(videoId: string, videoTitle: string, page: seq<CommentRecord>): seq<MonitoringItem>
  {
    Map(page, (c: CommentRecord) => CommentItem(videoId, videoTitle, c))
  }

  /** The job shown as soon as a submission is accepted. */
  function SubmittedJob(jobId: string, url: string, createdAt: int): Summary
  {
    Summary(jobId, "", url, LoadingTitle, Queued, JobProgress(0, 0, WaitingMessage), None, createdAt, 0)
  }

  /** The error of a refused submission. */
  function SubmitError(reply: Reply<string>): string
    requires !reply.Ok?
  {
    match reply
      case NotOk(_, error) => OrElse(error, RequestFailed)
      case Thrown(_) => NetworkError
  }

  /** The first job with the id, as `jobs.find` returns it. */
  function Find(jobs: seq<Summary>, jobId: string): (r: Option<Summary>)
    ensures r.None? <==> forall i :: 0 <= i < |jobs| ==> jobs[i].id != jobId
    ensures r.Some? ==> r.value in jobs && r.value.id == jobId
  {
    if jobs == [] then None
    else if jobs[0].id == jobId then Some(jobs[0])
    else Find(jobs[1..], jobId)
  }

  /** `handleTitleChange` on the list. */
  function Retitled(jobs: seq<Summary>, jobId: string, title: string): (r: seq<Summary>)
    ensures |r| == |jobs|
  {
    Map(jobs, (j: Summary) => if j.id == jobId then j.(videoTitle := title) else j)
  }

  /** Renaming changes the title of the entries with that id and nothing
      else. */
  lemma RetitledSpec(jobs: seq<Summary>, jobId: string, title: string)
    ensures var r := Retitled(jobs, jobId, title);
      forall i :: 0 <= i < |jobs| ==>
        && (jobs[i].id != jobId ==> r[i] == jobs[i])
        && (jobs[i].id == jobId ==> r[i] == jobs[i].(videoTitle := title))
  {
  }

  class Tab {
    var jobs: seq<Summary>
    var activeJobId: Option<string>
    var activeJob: Option<Summary>
    var submitError: Option<string>
    /** The job the polling interval polls, None when there is none. */
    var polling: Option<string>
    /** `reportedJobsRef` */
    var reported: set<string>
    /** The key that remounts the results table. */
    var resultsKey: nat

    constructor()
      ensures jobs == [] && activeJobId == None && activeJob == None && submitError == None
      ensures polling == None && reported == {} && resultsKey == 0
    {
      jobs := [];
      activeJobId := None;
      activeJob := None;
      submitError := None;
      polling := None;
      reported := {};
      resultsKey := 0;
    }

    /** `pollJob(jobId)` with the reply received, None when it was not ok
        or failed. `report` says whether the job's comments are fetched and
        handed on. */
    method PollJob(jobId: string, reply: Option<Summary>, hasListener: bool) returns (report: bool)
      modifies this`activeJob, this`jobs, this`polling, this`reported
      ensures reply.None? ==>
        && !report && activeJob == old(activeJob) && jobs == old(jobs)
        && polling == old(polling) && reported == old(reported)
      ensures reply.Some? ==>
        && activeJob == reply
        && jobs == UpdateJobs(old(jobs), jobId, reply.value)
        && polling == (if IsFinished(reply.value.status) then None else old(polling))
        && report == ShouldReport(old(reported), hasListener, jobId, reply.value.status)
        && reported == (if report then old(reported) + {jobId} else old(reported))
    {
      report := false;
      if reply.None? {
        return;
      }
      var data := reply.value;
      activeJob := reply;
      jobs := UpdateJobs(jobs, jobId, data);
      if IsFinished(data.status) {
        polling := None;
        if data.status == Done && hasListener && jobId !in reported {
          reported := reported + {jobId};
          report := true;
        }
      }
    }

    /** `handleSubmit` with the reply to the job request: the new job's id
        when accepted. `createdAt` is the clock's reading. */
    method HandleSubmit(url: string, reply: Reply<string>, createdAt: int)
      modifies this`submitError, this`activeJobId, this`activeJob, this`resultsKey, this`jobs, this`polling
      ensures reply.Ok? ==>
        && submitError == None
        && activeJobId == Some(reply.body)
        && activeJob == Some(SubmittedJob(reply.body, url, createdAt))
        && resultsKey == old(resultsKey) + 1
        && jobs == [SubmittedJob(reply.body, url, createdAt)] + old(jobs)
        && polling == Some(reply.body)
      ensures !reply.Ok? ==>
        && submitError == Some(SubmitError(reply))
        && activeJobId == old(activeJobId) && activeJob == old(activeJob)
        && resultsKey == old(resultsKey) && jobs == old(jobs) && polling == old(polling)
    {
      submitError := None;
      if !reply.Ok? {
        submitError := Some(SubmitError(reply));
        return;
      }
      var job := SubmittedJob(reply.body, url, createdAt);
      activeJobId := Some(reply.body);
      activeJob := Some(job);
      resultsKey := resultsKey + 1;
      jobs := [job] + jobs;
      polling := Some(reply.body);
    }

    /** `handleSelectJob(jobId)`: polling stops, and restarts for the
        selected job only when it is still queued or running. */
    method HandleSelectJob(jobId: string)
      modifies this`polling, this`activeJobId, this`resultsKey, this`activeJob
      ensures activeJobId == Some(jobId) && resultsKey == old(resultsKey) + 1
      ensures activeJob == (if Find(jobs, jobId).Some? then Find(jobs, jobId) else old(activeJob))
      ensures polling == (if Find(jobs, jobId).Some? && !IsFinished(Find(jobs, jobId).value.status)
                          then Some(jobId) else None)
    {
      polling := None;
      activeJobId := Some(jobId);
      resultsKey := resultsKey + 1;
      var job := Find(jobs, jobId);
      if job.Some? {
        activeJob := job;
        if job.value.status == Running || job.value.status == Queued {
          polling := Some(jobId);
        }
      }
    }

    /** `handleTitleChange(jobId, newTitle)`, without the request that
        stores the title on the server. */
    method HandleTitleChange(jobId: string, newTitle: string)
      modifies this`jobs, this`activeJob
      ensures jobs == Retitled(old(jobs), jobId, newTitle)
      ensures activeJob == (if old(activeJob).Some? && old(activeJob).value.id == jobId
                            then Some(old(activeJob).value.(videoTitle := newTitle)) else old(activeJob))
    {
      jobs := Retitled(jobs, jobId, newTitle);
      if activeJob.Some? && activeJob.value.id == jobId {
        activeJob := Some(activeJob.value.(videoTitle := newTitle));
      }
    }
  }
}
