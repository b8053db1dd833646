/** The generation server: the in-memory job registry behind `/generate` and
    `/status/{id}`, and the per-job orchestrator that runs the five stages and
    records progress in the job's record. */
module Server {
  import opened Wrappers
  import opened Json
  import opened Text
  import opened Stages
  import Wavespeed
  import Fal

  datatype JobStatus = Generating | Completed | Error

  /** The text the status endpoint shows for a status. */
  function StatusText(s: JobStatus): string
  {
    match s
    case Generating => "generating"
    case Completed => "completed"
    case Error => "error"
  }

  const FinalProgress := 100

  /** The five stages, in the order the orchestrator runs them. */
  datatype Stage = StoryStage | ScenesStage | ClipsStage | AudioStage | AssemblyStage

  const StageOrder: seq<Stage> := [StoryStage, ScenesStage, ClipsStage, AudioStage, AssemblyStage]

  function StageIndex(s: Stage): (i: nat)
    ensures i < |StageOrder| && StageOrder[i] == s
  {
    match s
    case StoryStage => 0
    case ScenesStage => 1
    case ClipsStage => 2
    case AudioStage => 3
    case AssemblyStage => 4
  }

  /** The progress written just before a stage starts. */
  function Checkpoint(s: Stage): int
  {
    match s
    case StoryStage => 5
    case ScenesStage => 15
    case ClipsStage => 25
    case AudioStage => 70
    case AssemblyStage => 85
  }

  /** Which of the fixed `current_step` messages a record shows: the one
      written when the record is made, before each stage, on success and on
      failure. */
  datatype Step = Starting | Running(stage: Stage) | Done | Failed

  /** The message text of a step, as the status endpoint shows it. */
  function StepText(step: Step): string
  {
    match step
    case Starting => "🚀 Démarrage de la génération..."
    case Running(StoryStage) => "📝 Génération de l'histoire complète..."
    case Running(ScenesStage) => "🎬 Création des scènes détaillées..."
    case Running(ClipsStage) => "🎥 Génération des clips vidéo..."
    case Running(AudioStage) => "🔊 Génération audio et musique..."
    case Running(AssemblyStage) => "🎬 Assemblage final de la vidéo..."
    case Done => "✅ Dessin animé complet terminé!"
    case Failed => "❌ Erreur génération"
  }

  datatype GenerationResult = GenerationResult(
    finalVideoUrl: Json, story: Story, scenes: seq<Scene>, theme: string, duration: int, realGeneration: bool)

  /** What `/status/{id}` serialises: the job record as it stands. */
  datatype JobView = JobView(
    status: string, progress: int, currentStep: string, theme: string, duration: int,
    result: Option<GenerationResult>, error: Option<string>)

  /** Everything the external providers will answer during one job. */
  datatype Services = Services(video: Wavespeed.VideoService, fal: Fal.FalService)

  datatype Outcome = Succeeded(result: GenerationResult) | Raised(message: string)

  /** How one job ends: the last stage it started, and its outcome. */
  datatype Run = Run(reached: Stage, outcome: Outcome)

  /** The five stage functions `real_generation_process` calls, as values:
      the orchestrator is stated for any such record, and `SourceStages` is
      the one this server runs. */
  datatype StageFunctions = StageFunctions(
    story: (string, int) -> Story,
    scenes: (Story, string, int) -> seq<Scene>,
    clips: (seq<Scene>, string) -> Result<seq<Clip>, string>,
    audio: (Story, string) -> string,
    assemble: (seq<Clip>, string, int) -> Result<Json, string>)

  /** `generate_complete_story_sync`, `generate_detailed_scenes_sync`,
      `generate_video_clips_sync`, `generate_audio_sync` and
      `assemble_final_video_sync`, the providers answering as `services` says. */
  function SourceStages(services: Services): StageFunctions
  {
    StageFunctions(
      (theme, duration) => GenerateStory(theme, duration),
      (story, theme, duration) => PlannedScenes(theme, duration),
      (scenes, theme) => VideoClips(scenes, services.video),
      (story, theme) => GenerateAudio(story, theme),
      (clips, audioUrl, duration) => Assembly(clips, audioUrl, duration, services.fal))
  }

  /** The body of `real_generation_process` as a value: the stages in order,
      the first exception ending the job. With exact arithmetic only the clip
      and assembly stages can raise. */
  function RunWith(stages: StageFunctions, theme: string, duration: int): Run
  {
    var story := stages.story(theme, duration);
    var scenes := stages.scenes(story, theme, duration);
    match stages.clips(scenes, theme)
    case Failure(e) => Run(ClipsStage, Raised(e))
    case Success(clips) =>
      match stages.assemble(clips, stages.audio(story, theme), duration)
      case Failure(e) => Run(AssemblyStage, Raised(e))
      case Success(url) => Run(AssemblyStage, Succeeded(GenerationResult(url, story, scenes, theme, duration, true)))
  }

  /** How a job of this server ends. */
  function Pipeline(theme: string, duration: int, services: Services): Run
  {
    RunWith(SourceStages(services), theme, duration)
  }

  /** The checkpoints of the first `k` stages. */
  function CheckpointsUpTo(k: nat): seq<int>
    requires k <= |StageOrder|
  {
    if k == 0 then [] else CheckpointsUpTo(k - 1) + [Checkpoint(StageOrder[k - 1])]
  }

  /** The progress values written before the stages up to `reached`. */
  function StageWrites(reached: Stage): seq<int>
  {
    CheckpointsUpTo(StageIndex(reached) + 1)
  }

  /** The progress values a run writes, in order. */
  function ProgressWrites(run: Run): seq<int>
  {
    if run.outcome.Succeeded? then StageWrites(run.reached) + [FinalProgress] else StageWrites(run.reached)
  }

  ghost predicate NonDecreasing(s: seq<int>)
  {
    forall i, j :: 0 <= i <= j < |s| ==> s[i] <= s[j]
  }

  /** A run that succeeded went through assembly; a failed one stopped at the
      clip or the assembly stage, the only stages that can raise. */
  predicate WellShaped(run: Run)
  {
    && (run.outcome.Succeeded? ==> run.reached == AssemblyStage)
    && (run.outcome.Raised? ==> run.reached in {ClipsStage, AssemblyStage})
  }

  lemma RunWithWellShaped(stages: StageFunctions, theme: string, duration: int)
    ensures WellShaped(RunWith(stages, theme, duration))
  {
  }

  lemma StageWritesOf()
    ensures StageWrites(ClipsStage) == [5, 15, 25]
    ensures StageWrites(AssemblyStage) == [5, 15, 25, 70, 85]
  {
  }

  lemma ProgressWritesOf(run: Run)
    requires WellShaped(run)
    ensures ProgressWrites(run) ==
              if run.reached == ClipsStage then [5, 15, 25]
              else if run.outcome.Raised? then [5, 15, 25, 70, 85]
              else [5, 15, 25, 70, 85, 100]
  {
    var writes := ProgressWrites(run);
    if run.reached == ClipsStage {
      assert writes == [5, 15, 25];
    } else {
      assert writes[..5] == [5, 15, 25, 70, 85];
    }
  }

  /** Progress never goes down; a job reaches 100 exactly when it succeeds; a
      failed job stops at the checkpoint of the stage that raised, which is
      the clip stage (25) or the assembly stage (85). */
  lemma RunProgress(run: Run)
    requires WellShaped(run)
    ensures var writes := ProgressWrites(run);
            && NonDecreasing([0] + writes)
            && writes[|writes| - 1] <= FinalProgress
            && (run.outcome.Succeeded? <==> writes[|writes| - 1] == FinalProgress)
            && (run.outcome.Raised? ==>
                  && run.reached in {ClipsStage, AssemblyStage}
                  && writes[|writes| - 1] == Checkpoint(run.reached))
  {
    ProgressWritesOf(run);
  }

  /** Every job the orchestrator runs has that progress history. */
  lemma PipelineProgress(theme: string, duration: int, services: Services)
    ensures var run := Pipeline(theme, duration, services);
            var writes := ProgressWrites(run);
            && NonDecreasing([0] + writes)
            && (run.outcome.Succeeded? <==> writes[|writes| - 1] == FinalProgress)
  {
    RunWithWellShaped(SourceStages(services), theme, duration);
    RunProgress(Pipeline(theme, duration, services));
  }

  /** Nothing after a failed clip stage runs: the composer's answers cannot
      change how the job ends. */
  lemma ClipFailureSkipsAssembly(theme: string, duration: int, services: Services, other: Fal.FalService)
    requires Pipeline(theme, duration, services).reached == ClipsStage
    ensures Pipeline(theme, duration, Services(services.video, other)) == Pipeline(theme, duration, services)
  {
  }

  /** A job that fails at the clip stage reports the error of a scene's
      clip, with that step's prefix. */
  lemma ClipStageErrorsCarryPrefix(theme: string, duration: int, services: Services)
    ensures var run := Pipeline(theme, duration, services);
            run.reached == ClipsStage ==>
              run.outcome.Raised? && Wavespeed.ClipFailurePrefix <= run.outcome.message
  {
    VideoClipErrorsCarryPrefix(PlannedScenes(theme, duration), services.video);
  }

  /** Every job that reaches assembly hands it one clip per planned scene,
      hence at least three: the single-clip shortcut and the "no clip" error
      of assembly never happen inside a job. */
  lemma AssemblyGetsPlannedClips(theme: string, duration: int, services: Services)
    ensures var clips := VideoClips(PlannedScenes(theme, duration), services.video);
            Pipeline(theme, duration, services).reached == AssemblyStage ==>
              clips.Success? && |clips.value| == SceneCount(duration) >= 3
  {
    PlannedClipsAtLeastThree(theme, duration, services.video);
  }

  /** So a job that fails at assembly reports a composition error, with
      that step's prefix. */
  lemma AssemblyStageErrorsCarryPrefix(theme: string, duration: int, services: Services)
    ensures var run := Pipeline(theme, duration, services);
            run.reached == AssemblyStage && run.outcome.Raised? ==> AssemblyFailurePrefix <= run.outcome.message
  {
    AssemblyGetsPlannedClips(theme, duration, services);
    var run := Pipeline(theme, duration, services);
    if run.reached == AssemblyStage && run.outcome.Raised? {
      var clips := VideoClips(PlannedScenes(theme, duration), services.video).value;
      assert Assembly(clips, PlaceholderAudio, duration, services.fal) == Failure(run.outcome.message);
    }
  }

  /** Extending an ordered history that ends at 0 with the writes of a run
      keeps it ordered. */
  lemma HistoryExtends(log: seq<int>, run: Run)
    requires |log| > 0 && NonDecreasing(log) && log[|log| - 1] == 0 && WellShaped(run)
    ensures NonDecreasing(log + ProgressWrites(run))
  {
    RunProgress(run);
    var writes := [0] + ProgressWrites(run);
    var s := log + ProgressWrites(run);
    forall i, j | 0 <= i <= j < |s|
      ensures s[i] <= s[j]
    {
      if j >= |log| {
        assert s[j] == writes[j - |log| + 1];
        if i >= |log| {
          assert s[i] == writes[i - |log| + 1];
        } else {
          assert s[i] <= log[|log| - 1] == writes[0];
        }
      }
    }
  }

  /** One job record of `generation_tasks`, updated in place by the orchestrator. */
  class Job {
    var status: JobStatus
    var progress: int
    var currentStep: Step
    var theme: string
    var duration: int
    var result: Option<GenerationResult>
    var error: Option<string>
    /** Every value ever written to `progress`, oldest first. */
    ghost var progressLog: seq<int>

    ghost predicate Valid()
      reads this
    {
      && |progressLog| > 0
      && progressLog[|progressLog| - 1] == progress
      && NonDecreasing(progressLog)
      && (status == Completed <==> result.Some?)
      && (status == Completed ==> progress == FinalProgress)
      && (status == Error <==> error.Some?)
    }

    /** The record `generate_animation` stores. */
    constructor (theme: string, duration: int)
      ensures Valid()
      ensures status == Generating && progress == 0 && currentStep == Starting
      ensures this.theme == theme && this.duration == duration
      ensures result == None && error == None && progressLog == [0]
    {
      status := Generating;
      progress := 0;
      currentStep := Starting;
      this.theme := theme;
      this.duration := duration;
      result := None;
      error := None;
      progressLog := [0];
    }

    /** What `/status/{id}` shows of the record: on a valid record a result
        appears exactly when the job completed, at progress 100, and an error
        exactly when it failed. */
    function View(): (v: JobView)
      reads this
      ensures v.status == StatusText(status) && v.progress == progress && v.currentStep == StepText(currentStep)
      ensures v.theme == theme && v.duration == duration && v.result == result && v.error == error
      ensures Valid() ==>
                && (v.status == "completed" <==> v.result.Some?)
                && (v.status == "error" <==> v.error.Some?)
                && (v.status == "completed" ==> v.progress == FinalProgress)
    {
      JobView(StatusText(status), progress, StepText(currentStep), theme, duration, result, error)
    }
  }

  /** The state `real_generation_process` leaves a record in after `run`. */
  ghost predicate Ran(job: Job, log: seq<int>, theme: string, duration: int, run: Run)
    reads job
  {
    && job.progressLog == log + ProgressWrites(run)
    && job.theme == theme && job.duration == duration
    && match run.outcome
       case Succeeded(res) =>
         && job.status == Completed && job.progress == FinalProgress
         && job.currentStep == Done && job.result == Some(res) && job.error == None
       case Raised(message) =>
         && job.status == Error && job.progress == Checkpoint(run.reached)
         && job.currentStep == Failed && job.error == Some(message) && job.result == None
  }

  /** The stages of the `try` block of `real_generation_process`: before
      each stage its progress and step are written, and the first stage that
      raises ends the block. The outcome is the result record the block builds
      or the text of the exception. */
  method RunStages(job: Job, theme: string, duration: int, stages: StageFunctions) returns (outcome: Outcome)
    modifies job
    ensures var run := RunWith(stages, theme, duration);
            && outcome == run.outcome
            && job.progressLog == old(job.progressLog) + StageWrites(run.reached)
            && job.progress == Checkpoint(run.reached) && job.currentStep == Running(run.reached)
    ensures job.status == old(job.status) && job.result == old(job.result) && job.error == old(job.error)
    ensures job.theme == old(job.theme) && job.duration == old(job.duration)
  {
    ghost var log := job.progressLog;
    StageWritesOf();
    job.progress, job.currentStep := Checkpoint(StoryStage), Running(StoryStage);
    job.progressLog := log + [5];
    var story := stages.story(theme, duration);
    job.progress, job.currentStep := Checkpoint(ScenesStage), Running(ScenesStage);
    job.progressLog := log + [5, 15];
    var scenes := stages.scenes(story, theme, duration);
    job.progress, job.currentStep := Checkpoint(ClipsStage), Running(ClipsStage);
    job.progressLog := log + [5, 15, 25];
    var clips := stages.clips(scenes, theme);
    if clips.Failure? {
      return Raised(clips.error);
    }
    job.progress, job.currentStep := Checkpoint(AudioStage), Running(AudioStage);
    job.progressLog := log + [5, 15, 25, 70];
    var audioUrl := stages.audio(story, theme);
    job.progress, job.currentStep := Checkpoint(AssemblyStage), Running(AssemblyStage);
    job.progressLog := log + [5, 15, 25, 70, 85];
    var finalVideoUrl := stages.assemble(clips.value, audioUrl, duration);
    if finalVideoUrl.Failure? {
      return Raised(finalVideoUrl.error);
    }
    outcome := Succeeded(GenerationResult(finalVideoUrl.value, story, scenes, theme, duration, true));
  }

  /** `real_generation_process` on one record, with `stages` for the stage
      functions: progress 5, 15, 25, 70, 85 before the five stages, then
      completed and 100 with the result; an exception from a stage marks the
      record as failed with the exception's text and leaves progress where it
      was. */
  method RealGenerationProcess(job: Job, theme: string, duration: int, stages: StageFunctions)
    requires job.Valid() && job.status == Generating && job.progress == 0
    modifies job
    ensures job.Valid()
    ensures Ran(job, old(job.progressLog), old(job.theme), old(job.duration), RunWith(stages, theme, duration))
  {
    ghost var log := job.progressLog;
    ghost var run := RunWith(stages, theme, duration);
    RunWithWellShaped(stages, theme, duration);
    HistoryExtends(log, run);
    var outcome := RunStages(job, theme, duration, stages);
    match outcome
    case Raised(message) =>
      job.status, job.error, job.currentStep := Error, Some(message), Failed;
    case Succeeded(result) =>
      job.status, job.progress, job.currentStep, job.result := Completed, FinalProgress, Done, Some(result);
      job.progressLog := job.progressLog + [FinalProgress];
      assert job.progressLog == log + ProgressWrites(run);
  }

  /** The body of `POST /generate`; an absent field takes its default. */
  datatype GenerateRequest = GenerateRequest(theme: Option<string>, duration: Option<int>)

  function RequestTheme(request: GenerateRequest): string
  {
    match request.theme
    case Some(t) => t
    case None => "space"
  }

  function RequestDuration(request: GenerateRequest): int
  {
    match request.duration
    case Some(d) => d
    case None => 30
  }

  datatype Started = Started(animationId: string, status: string)
  datatype HttpError = HttpError(statusCode: int, detail: string)

  /** `f"anim_{int(time.time())}"`, for the clock reading `now` in whole seconds. */
  function AnimationId(now: int): string
  {
    "anim_" + Decimal(now)
  }

  /** Ids made in different seconds differ. */
  lemma AnimationIdsDistinct(now1: int, now2: int)
    requires now1 != now2
    ensures AnimationId(now1) != AnimationId(now2)
  {
    if AnimationId(now1) == AnimationId(now2) {
      assert AnimationId(now1)[5..] == Decimal(now1);
      assert AnimationId(now2)[5..] == Decimal(now2);
      DecimalInjective(now1, now2);
    }
  }

  /** The in-memory `generation_tasks` dictionary. */
  class Registry {
    var tasks: map<string, Job>

    ghost predicate Valid()
      reads this, tasks.Values
    {
      forall id :: id in tasks ==> tasks[id].Valid()
    }

    constructor ()
      ensures Valid() && tasks == map[]
    {
      tasks := map[];
    }

    /** `generate_animation`: stores a fresh record under `anim_<now>`,
        replacing any record already stored under that id. Starting the
        orchestrator is the caller's next step, `RunGeneration`. */
    method Generate(request: GenerateRequest, now: int) returns (response: Started)
      requires Valid()
      modifies this
      ensures Valid()
      ensures response == Started(AnimationId(now), "started")
      ensures AnimationId(now) in tasks && fresh(tasks[AnimationId(now)])
      ensures tasks == old(tasks)[AnimationId(now) := tasks[AnimationId(now)]]
      ensures tasks[AnimationId(now)].View()
              == JobView(StatusText(Generating), 0, StepText(Starting), RequestTheme(request), RequestDuration(request), None, None)
      ensures tasks[AnimationId(now)].progressLog == [0]
    {
      var id := AnimationId(now);
      var job := new Job(RequestTheme(request), RequestDuration(request));
      tasks := tasks[id := job];
      response := Started(id, "started");
    }

    /** `get_status`: the record as it stands, or 404 for an unknown id; it
        changes nothing. */
    method GetStatus(id: string) returns (r: Result<JobView, HttpError>)
      ensures id in tasks ==> r == Success(tasks[id].View())
      ensures id !in tasks ==> r == Failure(HttpError(404, "Animation non trouvée"))
    {
      if id !in tasks {
        return Failure(HttpError(404, "Animation non trouvée"));
      }
      r := Success(tasks[id].View());
    }

    /** `real_generation_process` on the record stored under `id`; the other
        records are left alone. */
    method RunGeneration(id: string, theme: string, duration: int, services: Services)
      requires Valid() && id in tasks
      requires tasks[id].status == Generating && tasks[id].progress == 0
      modifies tasks[id]
      ensures Valid()
      ensures Ran(tasks[id], old(tasks[id].progressLog), old(tasks[id].theme), old(tasks[id].duration),
                  Pipeline(theme, duration, services))
    {
      RealGenerationProcess(tasks[id], theme, duration, SourceStages(services));
    }
  }
}
