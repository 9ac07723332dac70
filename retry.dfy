/** `fetchWithRetry` of the YouTube client (lib/youtube.ts): one request per
    attempt, classification of a failed reply into the client's error codes,
    and exponential back-off on 429 and 5xx. The network is a function from
    the attempt number to the reply that attempt receives; the sleeps are
    kept only as their lengths. */
module Retry {
  import opened Wrappers
  import opened Text

  /** What the client reads from a reply: its status, the first
      `error.errors[].reason` of a JSON body if any, the status text and the
      body as text; or the error with which `fetch` itself rejects (a
      network failure), which the loop does not catch. */
  datatype HttpReply =
    | HttpReply(status: int, reason: Option<string>, statusText: string, body: string)
    | NetworkFailure(message: string)

  predicate IsOk(r: HttpReply)
  {
    r.HttpReply? && 200 <= r.status <= 299
  }

  /** The errors the client throws. */
  datatype FetchError =
    | CommentsDisabled
    | QuotaExceeded
    | ApiForbidden(detail: string)
    | VideoNotFound
    | ApiError(status: int, body: string)
    | MaxRetriesExceeded
    | Thrown(message: string)

  /** The `Error.message` of each thrown error. */
  function Message(e: FetchError): string
  {
    match e
    case CommentsDisabled => "COMMENTS_DISABLED"
    case QuotaExceeded => "QUOTA_EXCEEDED"
    case ApiForbidden(d) => "API_FORBIDDEN: " + d
    case VideoNotFound => "VIDEO_NOT_FOUND"
    case ApiError(s, b) => "API_ERROR: " + IntToString(s) + " " + b
    case MaxRetriesExceeded => "MAX_RETRIES_EXCEEDED"
    case Thrown(m) => m
  }

  /** What one attempt leads to. */
  datatype Step = Return | Throw(error: FetchError) | Retry

  /** The decision taken on the reply to attempt `i` out of `retries + 1`. */
  function Decide(r: HttpReply, i: nat, retries: nat): Step
  {
    if r.NetworkFailure? then Throw(Thrown(r.message))
    else if IsOk(r) then Return
    else if r.status == 403 then
      if r.reason == Some("commentsDisabled") then Throw(CommentsDisabled)
      else if r.reason == Some("quotaExceeded") || r.reason == Some("dailyLimitExceeded") then Throw(QuotaExceeded)
      else Throw(ApiForbidden(if r.reason.Some? && r.reason.value != "" then r.reason.value else r.statusText))
    else if r.status == 404 then Throw(VideoNotFound)
    else if (r.status == 429 || r.status >= 500) && i < retries then Retry
    else Throw(ApiError(r.status, r.body))
  }

  /** Only 429 and 5xx replies are retried, and never on the last attempt. */
  lemma RetryOnlyOnThrottleOrServerError(r: HttpReply, i: nat, retries: nat)
    ensures Decide(r, i, retries) == Retry <==> r.HttpReply? && (r.status == 429 || r.status >= 500) && i < retries
  {
  }

  /** The classification of a reply that is not retried. */
  lemma DecideClasses(r: HttpReply, i: nat, retries: nat)
    ensures r.NetworkFailure? ==> Decide(r, i, retries) == Throw(Thrown(r.message))
    ensures Decide(r, i, retries) == Return <==> IsOk(r)
    ensures r.HttpReply? && r.status == 403 ==>
      && Decide(r, i, retries).Throw?
      && (Decide(r, i, retries).error.ApiForbidden?
          <==> r.reason != Some("commentsDisabled") && r.reason != Some("quotaExceeded")
               && r.reason != Some("dailyLimitExceeded"))
    ensures r.HttpReply? && r.status == 404 ==> Decide(r, i, retries) == Throw(VideoNotFound)
    ensures i == retries && r.HttpReply? && !IsOk(r) && r.status != 403 && r.status != 404
      ==> Decide(r, i, retries) == Throw(ApiError(r.status, r.body))
  {
  }

  function Pow2(n: nat): nat
  {
    if n == 0 then 1 else 2 * Pow2(n - 1)
  }

  /** The sleep before attempt `i + 1`: `delay * Math.pow(2, i)`. */
  function Backoff(delay: nat, i: nat): nat
  {
    delay * Pow2(i)
  }

  /** `fetchWithRetry(url, retries, delay)`. `reply(i)` is the reply to the
      i-th request. Returns the outcome, the number of requests made and the
      sleeps taken between them. */
  method FetchWithRetry(reply: nat -> HttpReply, retries: nat, delay: nat)
    returns (r: Result<HttpReply, FetchError>, attempts: nat, sleeps: seq<nat>)
    ensures 1 <= attempts <= retries + 1
    ensures forall i :: 0 <= i < attempts - 1 ==> Decide(reply(i), i, retries) == Retry
    ensures Decide(reply(attempts - 1), attempts - 1, retries) != Retry
    ensures r == match Decide(reply(attempts - 1), attempts - 1, retries)
      case Throw(e) => Failure(e)
      case _ => Success(reply(attempts - 1))
    ensures r != Failure(MaxRetriesExceeded)
    ensures |sleeps| == attempts - 1 && forall i :: 0 <= i < |sleeps| ==> sleeps[i] == Backoff(delay, i)
  {
    var i := 0;
    sleeps := [];
    while i <= retries
      invariant i <= retries
      invariant forall k :: 0 <= k < i ==> Decide(reply(k), k, retries) == Retry
      invariant |sleeps| == i && forall k :: 0 <= k < i ==> sleeps[k] == Backoff(delay, k)
      decreases retries - i
    {
      var res := reply(i);
      var step := Decide(res, i, retries);
      match step {
        case Return =>
          return Success(res), i + 1, sleeps;
        case Throw(e) =>
          return Failure(e), i + 1, sleeps;
        case Retry =>
          sleeps := sleeps + [Backoff(delay, i)];
          i := i + 1;
      }
    }
    // The attempt with i == retries never retries, so the loop is only
    // left through a return: the final MAX_RETRIES_EXCEEDED throw cannot
    // be reached.
    assert false;
    r := Failure(MaxRetriesExceeded);
  }

  /** With the client's defaults (3 retries, 1000 ms) there are at most
      four requests and the sleeps are 1000, 2000 and 4000 ms in turn. */
  method FetchWithDefaults(reply: nat -> HttpReply)
    returns (r: Result<HttpReply, FetchError>, attempts: nat, sleeps: seq<nat>)
    ensures 1 <= attempts <= 4
    ensures sleeps <= [1000, 2000, 4000]
    ensures r.Failure? ==> r.error != MaxRetriesExceeded
  {
    r, attempts, sleeps := FetchWithRetry(reply, 3, 1000);
    assert Backoff(1000, 0) == 1000 && Backoff(1000, 1) == 2000 && Backoff(1000, 2) == 4000;
    assert sleeps == [1000, 2000, 4000][..|sleeps|];
  }
}
