/** The FAL FFmpeg composer client: the composition payload, the submission,
    and a poll of at most 30 status requests. */
module Fal {
  import opened Wrappers
  import opened Json
  import opened Polling

  const PollBudget: nat := 30
  const PollTimeout := "Timeout FAL FFmpeg"
  const MissingRequest := "Pas d'ID de requête FAL FFmpeg"

  /** One clip placed on the output timeline, in whole seconds. */
  datatype Keyframe = Keyframe(url: Json, timestamp: int, duration: int)
  datatype Track = Track(id: string, kind: string, keyframes: seq<Keyframe>)
  /** The `compose` request body: `{"tracks": [...]}`. */
  datatype Payload = Payload(tracks: seq<Track>)

  /** The composer as the server sees it: `submit(p)` answers the compose
      request with payload `p`, `poll(id, i)` the i-th status request for
      request `id`. */
  datatype FalService = FalService(submit: Payload -> Reply, poll: (Json, nat) -> Reply)

  function PollReplies(fal: FalService, id: Json): nat -> Reply
  {
    (i: nat) => fal.poll(id, i)
  }

  /** `result.get("request_id") or result.get("id")`. */
  function RequestId(result: Json): Result<Json, string>
  {
    match Get(result, "request_id", JNull)
    case Failure(m) => Failure(m)
    case Success(id) => Success(Or(id, Field(result, "id", JNull)))
  }

  /** A 200 reply whose body decodes to a dict: the only replies `.get` can be
      applied to without raising. */
  predicate Decoded(reply: Reply)
  {
    reply.Answered? && reply.code == 200 && reply.body.Success? && reply.body.value.JObj?
  }

  /** `result.get("status", "unknown")`. */
  function StatusOf(result: Json): Json
    requires result.JObj?
  {
    Field(result, "status", JStr("unknown"))
  }

  /** One iteration of `wait_for_fal_ffmpeg_simple` with its `except`: a truthy
      top-level `video_url` is returned whatever the status; on `"completed"`
      `output.video or output`; `"failed"` and an `"unknown"` status with an
      `error` raise, and the iteration swallows what it raised. So a transport
      error, a non-200 status or an undecodable body only ever retries. */
  function FalAttempt(reply: Reply): (a: Attempt)
    ensures a.Ready? ==> Truthy(a.url)
    ensures a.Ready? ==> Decoded(reply)
                         && var result := reply.body.value;
                         (Truthy(Field(result, "video_url", JNull)) || StatusOf(result) == JStr("completed"))
  {
    match reply
    case Raised(m) => Retry(Some(m))
    case Answered(code, _, body) =>
      if code != 200 then Retry(None)
      else match body
        case Failure(m) => Retry(Some(m))
        case Success(result) =>
          match Get(result, "status", JStr("unknown"))
          case Failure(m) => Retry(Some(m))
          case Success(status) =>
            var direct := Field(result, "video_url", JNull);
            if Truthy(direct) then Ready(direct)
            else if status == JStr("completed") then
              match Get(Field(result, "output", EmptyObj), "video", JNull)
              case Failure(m) => Retry(Some(m))
              case Success(video) =>
                var url := Or(video, Field(result, "output", JNull));
                if Truthy(url) then Ready(url) else Retry(None)
            else if status == JStr("failed") then Retry(Some("FAL échoué: " + Repr(result)))
            else if status == JStr("unknown") && Truthy(Field(result, "error", JNull)) then
              Retry(Some("Erreur FAL: " + Str(Field(result, "error", JNull))))
            else Retry(None)
  }

  /** A truthy top-level `video_url` ends the poll whatever the status says,
      `"failed"` included. */
  lemma VideoUrlWinsOverStatus(reply: Reply)
    requires Decoded(reply) && Truthy(Field(reply.body.value, "video_url", JNull))
    ensures FalAttempt(reply) == Ready(Field(reply.body.value, "video_url", JNull))
  {
  }

  /** Without a top-level `video_url`, a `"completed"` reply whose `output` is
      a dict (or absent) gives `output.video or output`, and retries when
      that is empty. */
  lemma CompletedOutputUrl(reply: Reply)
    requires Decoded(reply) && !Truthy(Field(reply.body.value, "video_url", JNull))
    requires StatusOf(reply.body.value) == JStr("completed")
    requires Field(reply.body.value, "output", EmptyObj).JObj?
    ensures var result := reply.body.value;
            var url := Or(Field(Field(result, "output", EmptyObj), "video", JNull), Field(result, "output", JNull));
            FalAttempt(reply) == if Truthy(url) then Ready(url) else Retry(None)
  {
  }

  /** An `output` that is not a dict (a plain URL string, say) makes
      `.get("video")` raise: the iteration retries instead of returning it. */
  lemma CompletedOutputNotDictIsRetried(reply: Reply)
    requires Decoded(reply) && !Truthy(Field(reply.body.value, "video_url", JNull))
    requires StatusOf(reply.body.value) == JStr("completed")
    requires !Field(reply.body.value, "output", EmptyObj).JObj?
    ensures FalAttempt(reply) == Retry(Some("'" + TypeName(Field(reply.body.value, "output", EmptyObj)) + "' object has no attribute 'get'"))
  {
  }

  /** A `"failed"` reply without `video_url` raises inside the loop body and is
      swallowed: the poll goes on. */
  lemma FailedStatusIsRetried(reply: Reply)
    requires Decoded(reply) && !Truthy(Field(reply.body.value, "video_url", JNull))
    requires StatusOf(reply.body.value) == JStr("failed")
    ensures FalAttempt(reply) == Retry(Some("FAL échoué: " + Repr(reply.body.value)))
  {
  }

  /** An `"unknown"` status (or none) with a truthy `error` raises
      `Erreur FAL: <error>`, which is swallowed the same way. */
  lemma UnknownStatusErrorIsRetried(reply: Reply)
    requires Decoded(reply) && !Truthy(Field(reply.body.value, "video_url", JNull))
    requires StatusOf(reply.body.value) == JStr("unknown") && Truthy(Field(reply.body.value, "error", JNull))
    ensures FalAttempt(reply) == Retry(Some("Erreur FAL: " + Str(Field(reply.body.value, "error", JNull))))
  {
  }

  /** `wait_for_fal_ffmpeg_simple`: `replies(i)` answers the i-th status
      request; `attempts` counts the requests sent. */
  method WaitForFal(replies: nat -> Reply) returns (r: Result<Json, string>, attempts: nat)
    ensures PollFrom(FalAttempt, replies, 0, PollBudget)
            == if r.Success? then Found(r.value, attempts) else TimedOut
    ensures r == PollResult(PollFrom(FalAttempt, replies, 0, PollBudget), PollTimeout)
    ensures r.Failure? ==> attempts == PollBudget
    ensures r.Success? ==> 0 < attempts <= PollBudget
  {
    var attempt: nat := 0;
    while attempt < PollBudget
      invariant attempt <= PollBudget
      invariant PollFrom(FalAttempt, replies, 0, PollBudget)
                == PollFrom(FalAttempt, replies, attempt, PollBudget)
    {
      var reply := replies(attempt);
      var a := FalAttempt(reply);
      if a.Ready? {
        return Success(a.url), attempt + 1;
      }
      attempt := attempt + 1;
    }
    return Failure(PollTimeout), PollBudget;
  }
}
