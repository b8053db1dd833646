# Animation studio generation server, modelled in Dafny

This project models the generation server of the animation studio,
`animation_studio/backend/fixed_server.py`.
`POST /generate` stores a job record under `anim_<seconds>` in the in-memory
`generation_tasks` dictionary and starts `real_generation_process`.
That orchestrator runs five stages in order:

1. story: a prompt looked up by theme;
2. scene plan: `max(3, duration // 10)` equal scenes;
3. clips: one Wavespeed text-to-video clip per scene, each submitted and then polled;
4. audio: a placeholder URL;
5. assembly: a FAL FFmpeg composition of the clips, submitted and then polled.

Before each stage the orchestrator writes a progress checkpoint and a step
message into the record. It ends with a `"completed"` record carrying the
result, or an `"error"` record carrying the exception text.
`GET /status/{id}` returns the record.

Files, one module each:

- `wrappers.dfy`: `Option` and `Result`.
- `text.dfy`: decimal rendering of integers, with its parse-back.
- `json.dfy`: the decoded JSON documents the server handles, with Python's
  `.get`, truthiness, `or`, `str()`/`repr()` and the slice test used by the
  log lines.
- `polling.dfy`: an HTTP exchange seen as a `Reply`, and the shared bounded
  poll loop.
- `wavespeed.dfy`: the clip submission, the 120-attempt Wavespeed poller and
  its URL extraction.
- `fal.dfy`: the composition payload and the 30-attempt FAL poller.
- `stages.dfy`: the five stage functions.
- `server.dfy`: the job record (a class updated in place), the orchestrator,
  and the registry (a class over `map<string, Job>`) with its two endpoints.

The providers are inputs.
A `VideoService` answers the k-th clip submission and the i-th status
request of a prediction. A `FalService` does the same for the composer.
Each poller is a loop proved equal to `Polling.PollFrom`, the
recursive reading of the loop, and the facts about the poll are proved
about that function.
The orchestrator is a method over a `Job` object. It receives the five
stage functions as a record (`Server.StageFunctions`). `Server.SourceStages`
is the record this server uses, and it is built from the stage functions of
`stages.dfy`. Each stage function that the source writes as a loop
(scenes, clips, keyframes, both polls) is also written as a method with
that loop, proved equal to the function.

Notes on the code's behaviour, which the model follows:

- Both pollers catch the exception they raise for a provider `"failed"`
  status inside the loop body, so a failed generation is polled again
  until the attempt budget runs out. It does not end the job at once.
- On error `current_step` becomes the fixed text "❌ Erreur génération".
  The exception text goes to `error`.
- A job always plans at least three scenes. So the single-clip shortcut and
  the "Aucun clip vidéo disponible" error of assembly cannot happen inside a
  job. `Server.AssemblyGetsPlannedClips` proves this.
- The audio URL and the requested duration are passed to assembly, which
  does not use them.

## Model

| member | source | states |
|---|---|---|
| Text.DecimalRoundTrip | animation_studio/backend/fixed_server.py:77 | the decimal text of any integer (sign included) parses back to that integer |
| Text.DecimalInjective | animation_studio/backend/fixed_server.py:77 | two integers with the same decimal text are equal |
| Json.Or | animation_studio/backend/fixed_server.py:253 | Python's `a or b` is truthy exactly when `a` or `b` is |
| Json.Lookup | animation_studio/backend/fixed_server.py:233 | a key is found exactly when some field of the object carries it, and the value found is that of the key's last binding |
| Json.Get | animation_studio/backend/fixed_server.py:233 | `.get` succeeds exactly on a dict; on anything else it raises |
| Json.Repr | animation_studio/backend/fixed_server.py:245 | the `repr` of any value, which `str()` gives for a non-string output, is never empty |
| Json.Str | animation_studio/backend/fixed_server.py:264 | formatting a value that is not a string never gives the empty text |
| Polling.Posted | animation_studio/backend/fixed_server.py:294-302 | a non-200 submission raises `Erreur <provider> <code>: <text>`; a success is the decoded body of a 200 response |
| Polling.PollResult | animation_studio/backend/fixed_server.py:274 | a poll raises exactly when it timed out |
| Polling.PollStopsAtFirstReady | animation_studio/backend/fixed_server.py:222-274 | a poll times out exactly when every attempt within the budget yields no URL; otherwise it returns the URL of the first attempt that yields one, after that many attempts |
| Polling.PollReadsOnlyBudget | animation_studio/backend/fixed_server.py:375 | replies past the attempt budget cannot change how a poll ends |
| Wavespeed.FirstOutputUrl | animation_studio/backend/fixed_server.py:238-251 | a URL read from `outputs[0]` is truthy and can be sliced for the log line |
| Wavespeed.CompletedAttempt | animation_studio/backend/fixed_server.py:235-261 | a `"completed"` reply yields only a truthy, sliceable URL, read from `outputs[0]`, or from `data.video_url or video_url` only when `outputs` gives none |
| Wavespeed.WavespeedAttempt | animation_studio/backend/fixed_server.py:225-273 | only a 200 reply with status `"completed"` ends the loop, with a truthy URL; a `"failed"` reply raises `Génération Wavespeed échouée: <error>`, which the same iteration swallows |
| Wavespeed.CompletedReplyIsRead | animation_studio/backend/fixed_server.py:231-236 | every 200 reply whose `data.status` is `"completed"` is read by the completed branch, whatever other members it carries |
| Wavespeed.StringOutputIsUrl | animation_studio/backend/fixed_server.py:240-249 | a non-empty string `outputs[0]` is the returned URL, whatever else the reply holds |
| Wavespeed.DictOutputIsUrl | animation_studio/backend/fixed_server.py:242-249 | a dict `outputs[0]` gives its `url` member when that is non-empty and printable |
| Wavespeed.ScalarOutputIsUrl | animation_studio/backend/fixed_server.py:244-249 | an `outputs[0]` that is neither a string nor a dict always gives its `str()` as the URL, whatever else the reply holds |
| Wavespeed.StringOutputsGiveFirstCharacter | animation_studio/backend/fixed_server.py:238-241 | a non-empty string `outputs` is indexed like a list, and its first character is returned |
| Wavespeed.VideoUrlFallback | animation_studio/backend/fixed_server.py:238-261 | when `outputs` is empty, absent, a dict, or starts with an empty string or a dict without a usable `url`, the URL is `data.video_url or video_url`, and without a usable one the reply raises `Pas d'URL vidéo dans la réponse` |
| Wavespeed.OutputsWithoutLengthAreRetried | animation_studio/backend/fixed_server.py:238 | a truthy `outputs` without a length makes `len()` raise, so the iteration retries without trying the fallback |
| Wavespeed.WaitForWavespeed | animation_studio/backend/fixed_server.py:219-274 | the loop returns the poll's URL after between 1 and 120 attempts, or raises the Wavespeed timeout after exactly 120 attempts |
| Wavespeed.ClipRequestFor | animation_studio/backend/fixed_server.py:282-286 | the request is `"16:9"` and 10 seconds; its prompt is exactly the first 500 characters of the scene prompt, or the whole prompt when that fits |
| Wavespeed.ClipUrl | animation_studio/backend/fixed_server.py:287-305 | every clip error carries the prefix `Génération clip échouée: ` |
| Wavespeed.ClipUrlIsPlayable | animation_studio/backend/fixed_server.py:246-257 | a clip URL that comes back is truthy and sliceable |
| Wavespeed.GenerateSingleClip | animation_studio/backend/fixed_server.py:276-305 | submission, prediction id check and poll give exactly the clip outcome `ClipUrl` defines |
| Fal.FalAttempt | animation_studio/backend/fixed_server.py:377-408 | a poll iteration returns only a truthy URL, and only from a 200 reply decoding to a dict that has a truthy `video_url` or status `"completed"`; transport errors, other status codes and undecodable bodies retry |
| Fal.VideoUrlWinsOverStatus | animation_studio/backend/fixed_server.py:389-393 | a truthy top-level `video_url` is returned whatever the status and the other members |
| Fal.CompletedOutputUrl | animation_studio/backend/fixed_server.py:394-398 | otherwise a `"completed"` reply whose `output` is a dict or absent gives `output.video or output`, and retries when that is empty |
| Fal.CompletedOutputNotDictIsRetried | animation_studio/backend/fixed_server.py:395 | a `"completed"` reply whose `output` is not a dict makes `.get` raise, and the iteration retries |
| Fal.FailedStatusIsRetried | animation_studio/backend/fixed_server.py:399-408 | any `"failed"` reply without a truthy `video_url` raises `FAL échoué: <reply>`, and the loop goes on |
| Fal.UnknownStatusErrorIsRetried | animation_studio/backend/fixed_server.py:402-408 | an `"unknown"` status with a truthy `error` raises `Erreur FAL: <error>`, and the loop goes on |
| Fal.WaitForFal | animation_studio/backend/fixed_server.py:373-409 | the loop returns the poll's URL after between 1 and 30 attempts, or raises `Timeout FAL FFmpeg` after exactly 30 attempts |
| Stages.StoryPromptIsTableLookup | animation_studio/backend/fixed_server.py:166-173 | the prompt is the table entry of a known theme, and the `"space"` entry for any other theme |
| Stages.GenerateStory | animation_studio/backend/fixed_server.py:163-181 | the story echoes theme and duration, and its summary is the chosen prompt |
| Stages.StoryTitleDeterminesDuration | animation_studio/backend/fixed_server.py:177 | for one theme, equal titles mean equal durations |
| Stages.SceneCount | animation_studio/backend/fixed_server.py:187 | the count is at least 3 and at least `duration // 10`, and equals one of them |
| Stages.PlanScenes | animation_studio/backend/fixed_server.py:183-199 | the loop builds exactly the planned scene list |
| Stages.ScenesPartitionDuration | animation_studio/backend/fixed_server.py:187-197 | `max(3, duration // 10)` scenes, ids 1..n in order, equal lengths that add up to the duration |
| Stages.TenSecondScenes | animation_studio/backend/fixed_server.py:187-191 | for 30, 60, 120, 180, 240 and 300 seconds every scene lasts 10 seconds |
| Stages.ClipsFollowScenes | animation_studio/backend/fixed_server.py:206-217 | a successful clip stage gives one clip per scene, in order, with the scene's id and duration and the URL generated from its prompt |
| Stages.ClipsStopAtFirstFailure | animation_studio/backend/fixed_server.py:206-217 | a failed clip stage reports the error of the first failing scene; every scene before it succeeded |
| Stages.VideoClipErrorsCarryPrefix | animation_studio/backend/fixed_server.py:210 | a failed clip stage's error carries the clip failure prefix |
| Stages.PlannedClipsAtLeastThree | animation_studio/backend/fixed_server.py:187-217 | a successful clip stage of a planned job yields `max(3, duration // 10)` clips, hence at least three |
| Stages.GenerateVideoClips | animation_studio/backend/fixed_server.py:201-217 | the loop gives exactly the clips, or the first error, that `VideoClips` defines |
| Stages.GenerateAudio | animation_studio/backend/fixed_server.py:307-312 | the audio URL is the placeholder, whatever the story and theme |
| Stages.BuildKeyframes | animation_studio/backend/fixed_server.py:327-335 | the loop with its running timestamp builds exactly the keyframe layout |
| Stages.LayoutBackToBack | animation_studio/backend/fixed_server.py:327-335 | keyframe i carries clip i's URL and `int(duration)`, and starts at the sum of the earlier clips' `int(duration)`: the first at 0, each later one where the previous one ends |
| Stages.PlannedLayoutSpan | animation_studio/backend/fixed_server.py:328-335 | the planned clips' keyframes span `n * (duration // n)` seconds, at most the duration and less than n short of it |
| Stages.Assembly | animation_studio/backend/fixed_server.py:314-371 | assembly fails only with `Aucun clip vidéo disponible` on no clips, or, for two or more clips, with the prefix `Assemblage vidéo échoué: ` |
| Stages.AssembledUrlIsTruthy | animation_studio/backend/fixed_server.py:361-366 | a composed video's URL is truthy |
| Stages.SingleClipBypass | animation_studio/backend/fixed_server.py:321-324 | a single clip's URL is returned unchanged and the composer is never consulted |
| Stages.AssembleFinalVideo | animation_studio/backend/fixed_server.py:314-371 | the method gives exactly the outcome `Assembly` defines |
| Server.RunWithWellShaped | animation_studio/backend/fixed_server.py:106-161 | a job succeeds only after the assembly stage, and fails only at the clip or the assembly stage |
| Server.ProgressWritesOf | animation_studio/backend/fixed_server.py:108-144 | the progress writes are 5, 15, 25 (clip failure); 5, 15, 25, 70, 85 (assembly failure); or those followed by 100 |
| Server.RunProgress | animation_studio/backend/fixed_server.py:108-161 | progress never decreases from 0; it reaches 100 exactly on success; a failed job stays at the checkpoint of the stage that raised |
| Server.PipelineProgress | animation_studio/backend/fixed_server.py:100-161 | every job of this server has that progress history |
| Server.ClipFailureSkipsAssembly | animation_studio/backend/fixed_server.py:126-140 | after a clip failure the composer's answers cannot change how the job ends |
| Server.ClipStageErrorsCarryPrefix | animation_studio/backend/fixed_server.py:126 | a job failing at the clip stage reports an error with the clip failure prefix |
| Server.AssemblyGetsPlannedClips | animation_studio/backend/fixed_server.py:126-140 | a job reaching assembly hands it one clip per planned scene, at least three |
| Server.AssemblyStageErrorsCarryPrefix | animation_studio/backend/fixed_server.py:140 | a job failing at assembly reports an error with the assembly failure prefix |
| Server.HistoryExtends | animation_studio/backend/fixed_server.py:108-144 | appending a job's progress writes to an ordered history that ends at 0 keeps it ordered |
| Server.Job.constructor | animation_studio/backend/fixed_server.py:80-86 | a new record is generating, at progress 0, at the start step, with the request's theme and duration, and no result or error |
| Server.Job.View | animation_studio/backend/fixed_server.py:416 | the status view shows the record's fields; on a valid record a result appears exactly when the status is `"completed"`, which implies progress 100, and an error exactly when the status is `"error"` |
| Server.RunStages | animation_studio/backend/fixed_server.py:106-140 | the stages run in order after their checkpoint and step are written; the first that raises ends the block; nothing else in the record changes |
| Server.RealGenerationProcess | animation_studio/backend/fixed_server.py:100-161 | the record stays valid; on success it is completed at 100 with the result and no error; on failure it shows error status, the exception text, no result and the checkpoint of the stage that raised; the progress history is the old one followed by the run's writes |
| Server.AnimationIdsDistinct | animation_studio/backend/fixed_server.py:77 | ids made in different seconds differ |
| Server.Registry.constructor | animation_studio/backend/fixed_server.py:50 | the registry starts empty |
| Server.Registry.Generate | animation_studio/backend/fixed_server.py:71-98 | a fresh generating record at progress 0 with the request's theme (default `"space"`) and duration (default 30) is stored under `anim_<now>`, replacing any record of that id and leaving the others alone; the reply is that id and `"started"` |
| Server.Registry.GetStatus | animation_studio/backend/fixed_server.py:411-416 | a known id gives its record's view; an unknown id gives 404 `Animation non trouvée`; nothing changes |
| Server.Registry.RunGeneration | animation_studio/backend/fixed_server.py:90-105 | running a stored job leaves the registry valid and its record in the state the orchestrator defines for this server's stages |

## Left out

- HTTP transport is not modelled: URLs, headers, API keys and request timeouts. Every `requests.post`/`get` is a `Reply` supplied by the service inputs.
- `time.sleep`, the `print` logging, `.env` loading and the `exit(1)` on a missing API key are left out. They have no effect on the records.
- FastAPI, CORS and uvicorn setup, and the constant `/health` and `/themes` endpoints, are left out.
- The background thread is left out. The orchestrator runs sequentially on one record, so concurrent reads of a record during a run are not modelled.
- The video service's `poll` is keyed by prediction id, so two clips that receive the same prediction id see the same poll replies. No property depends on this.
- The wall clock is an input: `Server.Registry.Generate` takes the current second `now`.
- Scene durations are exact reals, not floats. Python's `int()` on them is `Stages.Trunc`. So the `OverflowError` Python raises when `duration / scenes_count` leaves the float range (a duration below about -5.4e308) is not modelled: in the model the scene stage never raises.
- JSON numbers are integers only. `repr`/`str` of a document do not escape quotes in strings.
- Request fields are taken to be strings (theme) and integers (duration). Other JSON values in the request body are not modelled.
- The `CARTOON_STYLE` environment override is not modelled. The default style text is used.
- `current_step` is stored as a `Server.Step` value. `Server.StepText` renders it to the source's fixed texts in the status view.
- `Server.RealGenerationProcess` calls the stage functions through a `Server.StageFunctions` record rather than the stage methods. Each stage method is proved equal to the function that record holds.
- `Server.Registry.RunGeneration` requires the record to be still generating at progress 0, which holds right after `Generate`. A second run on a record that already ran is not modelled.
- The other back-end files, `main.py`, `simple_debug.py`, `simple_server.py` and the diagnostic scripts, are not part of this model. Neither is the React front end.
