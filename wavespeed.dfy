/** The Wavespeed text-to-video client: one submission per clip, then a poll
    of at most 120 status requests that reads the clip URL out of the reply. */
module Wavespeed {
  import opened Wrappers
  import opened Json
  import opened Text
  import opened Polling

  const PollBudget: nat := 120
  const PollTimeout := "Timeout Wavespeed après 10 minutes - génération échouée"
  const MissingUrl := "Pas d'URL vidéo dans la réponse"
  const MissingPrediction := "Pas d'ID de prédiction Wavespeed"
  const ClipFailurePrefix := "Génération clip échouée: "
  const PromptLimit: nat := 500

  /** A 200 reply whose `data.status` (default `"unknown"`) is the string `status`. */
  predicate ReportsStatus(reply: Reply, status: string)
  {
    && reply.Answered? && reply.code == 200 && reply.body.Success?
    && var data := Get(reply.body.value, "data", EmptyObj);
    && data.Success?
    && Get(data.value, "status", JStr("unknown")) == Success(JStr(status))
  }

  /** The inner `try` over `outputs[0]`: a string is the URL, a dict gives its
      `url`, anything else its `str()`; a URL that cannot be sliced for the
      log line raises and is swallowed, as is the `KeyError` of `{...}[0]`. */
  function FirstOutputUrl(outputs: Json): (r: Option<Json>)
    requires Truthy(outputs)
    ensures r.Some? ==> Truthy(r.value) && Sliceable(r.value)
  {
    var first: Option<Json> :=
      match outputs
      case JStr(s) => Some(JStr(s[..1]))
      case JArr(items) => Some(items[0])
      case _ => None;
    match first
    case None => None
    case Some(o) =>
      var url := if o.JStr? then o else if o.JObj? then Field(o, "url", JNull) else JStr(Repr(o));
      if Truthy(url) && Sliceable(url) then Some(url) else None
  }

  /** The `"completed"` branch: `outputs[0]` first, then `data.video_url or
      video_url`, else `Pas d'URL vidéo dans la réponse` is raised. A truthy
      `outputs` without a length makes `len()` raise. */
  function CompletedAttempt(result: Json, data: Json): (a: Attempt)
    requires result.JObj? && data.JObj?
    ensures a.Ready? ==> Truthy(a.url) && Sliceable(a.url)
    ensures a.Ready? ==>
              var outputs := Field(data, "outputs", JArr([]));
              || (Truthy(outputs) && FirstOutputUrl(outputs) == Some(a.url))
              || (FallbackUrl(result, data) == a.url && (!Truthy(outputs) || FirstOutputUrl(outputs).None?))
  {
    var outputs := Field(data, "outputs", JArr([]));
    if Truthy(outputs) && !(outputs.JStr? || outputs.JArr? || outputs.JObj?) then
      Retry(Some("object of type '" + TypeName(outputs) + "' has no len()"))
    else
      var fromOutputs := if Truthy(outputs) then FirstOutputUrl(outputs) else None;
      if fromOutputs.Some? then Ready(fromOutputs.value)
      else
        var url := Or(Field(data, "video_url", JNull), Field(result, "video_url", JNull));
        if Truthy(url) && Sliceable(url) then Ready(url) else Retry(Some(MissingUrl))
  }

  /** The `data` member of a decoded reply, `{}` when absent. */
  function DataOf(reply: Reply): Json
    requires reply.Answered? && reply.body.Success? && reply.body.value.JObj?
  {
    Field(reply.body.value, "data", EmptyObj)
  }

  /** One iteration of the poll loop with its `except Exception: continue`:
      only a `"completed"` reply carrying a URL ends the loop. A `"failed"` reply raises
      `Génération Wavespeed échouée: <error>`, which the same iteration swallows. */
  function WavespeedAttempt(reply: Reply): (a: Attempt)
    ensures a.Ready? ==> ReportsStatus(reply, "completed") && Truthy(a.url) && Sliceable(a.url)
    ensures ReportsStatus(reply, "failed") ==>
              a == Retry(Some("Génération Wavespeed échouée: " + Str(Field(DataOf(reply), "error", JStr("Erreur inconnue")))))
  {
    match reply
    case Raised(m) => Retry(Some(m))
    case Answered(code, _, body) =>
      if code != 200 then Retry(None)
      else match body
        case Failure(m) => Retry(Some(m))
        case Success(result) =>
          match Get(result, "data", EmptyObj)
          case Failure(m) => Retry(Some(m))
          case Success(data) =>
            match Get(data, "status", JStr("unknown"))
            case Failure(m) => Retry(Some(m))
            case Success(status) =>
              if status == JStr("completed") then CompletedAttempt(result, data)
              else if status == JStr("failed") then
                Retry(Some("Génération Wavespeed échouée: " + Str(Field(data, "error", JStr("Erreur inconnue")))))
              else Retry(None)
  }

  /** A `"completed"` reply is read by `CompletedAttempt`, whatever other
      members it carries. */
  lemma CompletedReplyIsRead(reply: Reply)
    requires ReportsStatus(reply, "completed")
    ensures WavespeedAttempt(reply) == CompletedAttempt(reply.body.value, DataOf(reply))
  {
  }

  /** `outputs[0]`, when `outputs` is a non-empty list. */
  function FirstOutput(data: Json): Option<Json>
    requires data.JObj?
  {
    var outputs := Field(data, "outputs", JArr([]));
    if outputs.JArr? && |outputs.items| > 0 then Some(outputs.items[0]) else None
  }

  /** `data.video_url or video_url`, the fallback after `outputs`. */
  function FallbackUrl(result: Json, data: Json): Json
    requires result.JObj? && data.JObj?
  {
    Or(Field(data, "video_url", JNull), Field(result, "video_url", JNull))
  }

  /** A first output that is a non-empty string is the URL, whatever else the reply holds. */
  lemma StringOutputIsUrl(result: Json, data: Json, url: string)
    requires result.JObj? && data.JObj? && FirstOutput(data) == Some(JStr(url)) && url != ""
    ensures CompletedAttempt(result, data) == Ready(JStr(url))
  {
  }

  /** A first output that is a dict gives its `url` member, when that is
      non-empty and printable. */
  lemma DictOutputIsUrl(result: Json, data: Json, first: Json)
    requires result.JObj? && data.JObj? && FirstOutput(data) == Some(first) && first.JObj?
    requires Truthy(Field(first, "url", JNull)) && Sliceable(Field(first, "url", JNull))
    ensures CompletedAttempt(result, data) == Ready(Field(first, "url", JNull))
  {
  }

  /** A first output that is neither a string nor a dict (a number, a list,
      `null`) always yields a URL: its `str()` is never empty. */
  lemma ScalarOutputIsUrl(result: Json, data: Json, first: Json)
    requires result.JObj? && data.JObj? && FirstOutput(data) == Some(first) && !first.JStr? && !first.JObj?
    ensures CompletedAttempt(result, data) == Ready(JStr(Repr(first)))
  {
  }

  /** A string `outputs` is indexed like a list: its first character is the URL. */
  lemma StringOutputsGiveFirstCharacter(result: Json, data: Json)
    requires result.JObj? && data.JObj?
    requires var outputs := Field(data, "outputs", JArr([])); outputs.JStr? && outputs.s != ""
    ensures CompletedAttempt(result, data) == Ready(JStr(Field(data, "outputs", JArr([])).s[..1]))
  {
  }

  /** When `outputs` is empty or absent, is a dict (indexing it by 0 raises),
      or its first entry is an empty string or a dict without a usable `url`,
      the URL is `data.video_url or video_url`; without a usable one the
      completed reply raises `Pas d'URL vidéo dans la réponse`. */
  lemma VideoUrlFallback(result: Json, data: Json)
    requires result.JObj? && data.JObj?
    requires var outputs := Field(data, "outputs", JArr([]));
             || !Truthy(outputs)
             || outputs.JObj?
             || (FirstOutput(data).Some? &&
                 var first := FirstOutput(data).value;
                 || first == JStr("")
                 || (first.JObj? && !(Truthy(Field(first, "url", JNull)) && Sliceable(Field(first, "url", JNull)))))
    ensures var url := FallbackUrl(result, data);
            CompletedAttempt(result, data) == if Truthy(url) && Sliceable(url) then Ready(url) else Retry(Some(MissingUrl))
  {
  }

  /** A truthy `outputs` without a length (a number, `true`) makes `len()`
      raise before any fallback is tried. */
  lemma OutputsWithoutLengthAreRetried(result: Json, data: Json)
    requires result.JObj? && data.JObj?
    requires var outputs := Field(data, "outputs", JArr([])); Truthy(outputs) && (outputs.JBool? || outputs.JInt?)
    ensures CompletedAttempt(result, data).Retry?
  {
  }

  /** `wait_for_wavespeed_sync`: `replies(i)` is the provider's answer to the
      i-th status request; `attempts` counts the requests sent. */
  method WaitForWavespeed(replies: nat -> Reply) returns (r: Result<Json, string>, attempts: nat)
    ensures PollFrom(WavespeedAttempt, replies, 0, PollBudget)
            == if r.Success? then Found(r.value, attempts) else TimedOut
    ensures r == PollResult(PollFrom(WavespeedAttempt, replies, 0, PollBudget), PollTimeout)
    ensures r.Failure? ==> attempts == PollBudget
    ensures r.Success? ==> 0 < attempts <= PollBudget
  {
    var attempt: nat := 0;
    while attempt < PollBudget
      invariant attempt <= PollBudget
      invariant PollFrom(WavespeedAttempt, replies, 0, PollBudget)
                == PollFrom(WavespeedAttempt, replies, attempt, PollBudget)
    {
      var reply := replies(attempt);
      var a := WavespeedAttempt(reply);
      if a.Ready? {
        return Success(a.url), attempt + 1;
      }
      attempt := attempt + 1;
    }
    return Failure(PollTimeout), PollBudget;
  }

  /** The submission body: landscape, 10 seconds, the prompt cut to 500 characters. */
  datatype ClipRequest = ClipRequest(aspectRatio: string, duration: int, prompt: string)

  function ClipRequestFor(prompt: string): (req: ClipRequest)
    ensures req.aspectRatio == "16:9" && req.duration == 10
    ensures |req.prompt| <= PromptLimit && req.prompt <= prompt
    ensures |prompt| <= PromptLimit ==> req.prompt == prompt
    ensures |req.prompt| == if |prompt| <= PromptLimit then |prompt| else PromptLimit
  {
    ClipRequest("16:9", 10, if |prompt| <= PromptLimit then prompt else prompt[..PromptLimit])
  }

  /** The video provider as the server sees it: `submit(k, req)` answers the
      k-th clip submission, `poll(id, i)` the i-th status request for
      prediction `id`. */
  datatype VideoService = VideoService(submit: (nat, ClipRequest) -> Reply, poll: (Json, nat) -> Reply)

  function PollReplies(video: VideoService, id: Json): nat -> Reply
  {
    (i: nat) => video.poll(id, i)
  }

  /** `result.get("data", {}).get("id") or result.get("id")`. */
  function PredictionId(result: Json): Result<Json, string>
  {
    match Get(result, "data", EmptyObj)
    case Failure(m) => Failure(m)
    case Success(data) =>
      match Get(data, "id", JNull)
      case Failure(m) => Failure(m)
      case Success(id) => Success(Or(id, Field(result, "id", JNull)))
  }

  /** `generate_single_video_clip_sync` for the k-th clip: submit, poll the
      prediction, and re-raise every error under `Génération clip échouée: `. */
  function ClipUrl(k: nat, prompt: string, video: VideoService): (r: Result<Json, string>)
    ensures r.Failure? ==> ClipFailurePrefix <= r.error
  {
    var inner: Result<Json, string> :=
      match Posted(video.submit(k, ClipRequestFor(prompt)), "Wavespeed")
      case Failure(m) => Failure(m)
      case Success(result) =>
        match PredictionId(result)
        case Failure(m) => Failure(m)
        case Success(id) =>
          if Truthy(id) then
            PollResult(PollFrom(WavespeedAttempt, PollReplies(video, id), 0, PollBudget), PollTimeout)
          else Failure(MissingPrediction);
    match inner
    case Success(url) => Success(url)
    case Failure(m) => Failure(ClipFailurePrefix + m)
  }

  /** A clip URL that comes back is one the poll accepted: truthy and
      printable by slicing. */
  lemma ClipUrlIsPlayable(k: nat, prompt: string, video: VideoService)
    ensures ClipUrl(k, prompt, video).Success? ==>
              Truthy(ClipUrl(k, prompt, video).value) && Sliceable(ClipUrl(k, prompt, video).value)
  {
    var posted := Posted(video.submit(k, ClipRequestFor(prompt)), "Wavespeed");
    if posted.Success? && PredictionId(posted.value).Success? {
      var id := PredictionId(posted.value).value;
      PollStopsAtFirstReady(WavespeedAttempt, PollReplies(video, id), 0, PollBudget);
    }
  }

  method GenerateSingleClip(k: nat, prompt: string, theme: string, video: VideoService) returns (r: Result<Json, string>)
    ensures r == ClipUrl(k, prompt, video)
  {
    var inner: Result<Json, string>;
    var posted := Posted(video.submit(k, ClipRequestFor(prompt)), "Wavespeed");
    if posted.Failure? {
      inner := Failure(posted.error);
    } else {
      var id := PredictionId(posted.value);
      if id.Failure? {
        inner := Failure(id.error);
      } else if Truthy(id.value) {
        var attempts;
        inner, attempts := WaitForWavespeed(PollReplies(video, id.value));
      } else {
        inner := Failure(MissingPrediction);
      }
    }
    r := if inner.Success? then inner else Failure(ClipFailurePrefix + inner.error);
  }
}
