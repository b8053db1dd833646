/** The five pipeline stages of the generation server: story, scene plan,
    one video clip per scene, audio, and final assembly. */
module Stages {
  import opened Wrappers
  import opened Json
  import opened Text
  import opened Polling
  import Wavespeed
  import Fal

  // ---------------------------------------------------------------- story

  const StoryEnding := " L'histoire doit être adaptée aux enfants, avec des personnages attachants et une fin heureuse."

  datatype Story = Story(title: string, summary: string, duration: int, theme: string)

  function ThemePrompt(duration: int, subject: string, plot: string): string
  {
    "Crée une histoire d'animation de " + Decimal(duration) + " secondes sur " + subject
    + ". Histoire: " + plot + StoryEnding
  }

  function SpacePrompt(duration: int): string
  {
    ThemePrompt(duration, "l'espace", "Un jeune astronaute découvre une planète magique avec des créatures amicales.")
  }

  function OceanPrompt(duration: int): string
  {
    ThemePrompt(duration, "l'océan", "Un petit poisson courageux part à l'aventure pour sauver son récif corallien.")
  }

  function ForestPrompt(duration: int): string
  {
    ThemePrompt(duration, "la forêt", "Un écureuil découvre un arbre magique qui peut exaucer les vœux.")
  }

  function MagicPrompt(duration: int): string
  {
    ThemePrompt(duration, "la magie", "Une petite fée apprend ses premiers sorts magiques.")
  }

  /** The four-entry prompt table, keyed by theme. */
  function ThemePrompts(duration: int): map<string, string>
  {
    map["space" := SpacePrompt(duration), "ocean" := OceanPrompt(duration),
        "forest" := ForestPrompt(duration), "magic" := MagicPrompt(duration)]
  }

  /** The prompt chosen for a theme, one comparison per known theme. */
  function StoryPrompt(theme: string, duration: int): string
  {
    if theme == "ocean" then OceanPrompt(duration)
    else if theme == "forest" then ForestPrompt(duration)
    else if theme == "magic" then MagicPrompt(duration)
    else SpacePrompt(duration)
  }

  /** The chosen prompt is `theme_prompts.get(theme, theme_prompts["space"])`:
      a known theme gets its own entry, any other theme the space entry. */
  lemma StoryPromptIsTableLookup(theme: string, duration: int)
    ensures var table := ThemePrompts(duration);
            StoryPrompt(theme, duration) == if theme in table then table[theme] else table["space"]
  {
    var table := ThemePrompts(duration);
    if theme in {"space", "ocean", "forest", "magic"} {
      assert theme in table;
    } else {
      assert theme !in table;
    }
  }

  /** `generate_complete_story_sync`: the story echoes the theme and the
      duration and carries the theme's prompt as its summary. */
  function GenerateStory(theme: string, duration: int): (s: Story)
    ensures s.theme == theme && s.duration == duration
    ensures s.summary == StoryPrompt(theme, duration)
  {
    Story("Histoire " + theme + " de " + Decimal(duration) + " secondes", StoryPrompt(theme, duration), duration, theme)
  }

  /** For a given theme the title names the duration unambiguously. */
  lemma StoryTitleDeterminesDuration(theme: string, d1: int, d2: int)
    requires GenerateStory(theme, d1).title == GenerateStory(theme, d2).title
    ensures d1 == d2
  {
    var head := "Histoire " + theme + " de ";
    var t1, t2 := GenerateStory(theme, d1).title, GenerateStory(theme, d2).title;
    assert t1 == head + Decimal(d1) + " secondes";
    assert t2 == head + Decimal(d2) + " secondes";
    assert t1[|head|..|t1| - 9] == Decimal(d1);
    assert t2[|head|..|t2| - 9] == Decimal(d2);
    DecimalInjective(d1, d2);
  }

  // ---------------------------------------------------------------- scenes

  const CartoonStyle := "2D cartoon animation, Disney style, vibrant colors"

  datatype Scene = Scene(id: int, description: string, duration: real, visualPrompt: string)

  /** `max(3, duration // 10)`; Dafny's `/` by a positive divisor rounds down like Python's `//`. */
  function SceneCount(duration: int): (n: int)
    ensures n >= 3 && n >= duration / 10
    ensures n == 3 || n == duration / 10
  {
    if duration / 10 > 3 then duration / 10 else 3
  }

  function SceneAt(theme: string, duration: int, n: int, i: nat): Scene
    requires n > 0
  {
    Scene(i + 1,
          "Scène " + Decimal(i + 1) + " de l'histoire " + theme,
          duration as real / n as real,
          CartoonStyle + ", scène " + Decimal(i + 1) + " de l'histoire " + theme
          + ", colorful, high quality animation, children friendly")
  }

  /** The first `k` of `n` planned scenes. */
  function ScenesUpTo(theme: string, duration: int, n: int, k: nat): (scenes: seq<Scene>)
    requires n > 0
    ensures |scenes| == k
  {
    if k == 0 then [] else ScenesUpTo(theme, duration, n, k - 1) + [SceneAt(theme, duration, n, k - 1)]
  }

  /** Scene `i` of the plan is the one `SceneAt` describes. */
  lemma {:induction false} ScenesUpToAt(theme: string, duration: int, n: int, k: nat)
    requires n > 0
    ensures forall i :: 0 <= i < k ==> ScenesUpTo(theme, duration, n, k)[i] == SceneAt(theme, duration, n, i)
  {
    if k > 0 {
      var prefix := ScenesUpTo(theme, duration, n, k - 1);
      ScenesUpToAt(theme, duration, n, k - 1);
      assert ScenesUpTo(theme, duration, n, k) == prefix + [SceneAt(theme, duration, n, k - 1)];
    }
  }

  function PlannedScenes(theme: string, duration: int): seq<Scene>
  {
    var n := SceneCount(duration);
    ScenesUpTo(theme, duration, n, n)
  }

  /** `generate_detailed_scenes_sync` (the story argument is not used). */
  method PlanScenes(story: Story, theme: string, duration: int) returns (scenes: seq<Scene>)
    ensures scenes == PlannedScenes(theme, duration)
  {
    var n := SceneCount(duration);
    scenes := [];
    var i := 0;
    while i < n
      invariant 0 <= i <= n
      invariant scenes == ScenesUpTo(theme, duration, n, i)
    {
      var sceneDuration := duration as real / n as real;
      scenes := scenes + [Scene(i + 1,
                                "Scène " + Decimal(i + 1) + " de l'histoire " + theme,
                                sceneDuration,
                                CartoonStyle + ", scène " + Decimal(i + 1) + " de l'histoire " + theme
                                + ", colorful, high quality animation, children friendly")];
      assert scenes == ScenesUpTo(theme, duration, n, i + 1);
      i := i + 1;
    }
  }

  function TotalDuration(scenes: seq<Scene>): real
  {
    if scenes == [] then 0.0 else TotalDuration(scenes[..|scenes| - 1]) + scenes[|scenes| - 1].duration
  }

  /** `k` shares of length `x` laid end to end. */
  function Shares(k: nat, x: real): real
  {
    if k == 0 then 0.0 else Shares(k - 1, x) + x
  }

  lemma {:induction false} TotalOfEqualDurations(scenes: seq<Scene>, x: real)
    requires forall i :: 0 <= i < |scenes| ==> scenes[i].duration == x
    ensures TotalDuration(scenes) == Shares(|scenes|, x)
  {
    if scenes != [] {
      TotalOfEqualDurations(scenes[..|scenes| - 1], x);
    }
  }

  lemma {:induction false} SharesAreProduct(k: nat, x: real)
    ensures Shares(k, x) == k as real * x
  {
    if k > 0 {
      SharesAreProduct(k - 1, x);
    }
  }

  /** `n` equal shares of `d` add back up to `d`. */
  lemma SharesOfQuotient(n: nat, d: real)
    requires n > 0
    ensures Shares(n, d / n as real) == d
  {
    SharesAreProduct(n, d / n as real);
  }

  /** Equal shares of a length add up to that length. */
  lemma EqualSharesAddUp(scenes: seq<Scene>, d: real)
    requires |scenes| > 0
    requires forall i :: 0 <= i < |scenes| ==> scenes[i].duration == d / |scenes| as real
    ensures TotalDuration(scenes) == d
  {
    TotalOfEqualDurations(scenes, d / |scenes| as real);
    SharesOfQuotient(|scenes|, d);
  }

  /** The plan has `max(3, duration // 10)` scenes numbered 1..n in order, all
      of the same length, and their lengths add up to the requested duration. */
  lemma ScenesPartitionDuration(theme: string, duration: int)
    ensures var scenes := PlannedScenes(theme, duration);
            && |scenes| == SceneCount(duration)
            && (forall i :: 0 <= i < |scenes| ==> scenes[i].id == i + 1)
            && (forall i :: 0 <= i < |scenes| ==> scenes[i].duration == duration as real / |scenes| as real)
            && TotalDuration(scenes) == duration as real
  {
    var n := SceneCount(duration);
    var scenes := ScenesUpTo(theme, duration, n, n);
    ScenesUpToAt(theme, duration, n, n);
    var x := duration as real / n as real;
    forall i | 0 <= i < n
      ensures scenes[i].id == i + 1 && scenes[i].duration == x
    {
      assert scenes[i] == SceneAt(theme, duration, n, i);
    }
    EqualSharesAddUp(scenes, duration as real);
  }

  /** Every duration the front end offers gives ten-second scenes. */
  lemma TenSecondScenes(theme: string, duration: int)
    requires duration in {30, 60, 120, 180, 240, 300}
    ensures forall s :: s in PlannedScenes(theme, duration) ==> s.duration == 10.0
  {
    var n := SceneCount(duration);
    ScenesPartitionDuration(theme, duration);
    assert n as real * 10.0 == duration as real;
  }

  // ---------------------------------------------------------------- clips

  datatype Clip = Clip(sceneId: int, url: Json, duration: real)

  /** The clip generator for the k-th scene's prompt. */
  function ClipGenerator(video: Wavespeed.VideoService): (nat, string) -> Result<Json, string>
  {
    (k: nat, prompt: string) => Wavespeed.ClipUrl(k, prompt, video)
  }

  /** The clips of the first `k` scenes, or the error of the first scene whose
      clip failed, where `clipUrl(i, prompt)` is what generating scene i's clip gives. */
  function ClipsUpTo(scenes: seq<Scene>, k: nat, clipUrl: (nat, string) -> Result<Json, string>): Result<seq<Clip>, string>
    requires k <= |scenes|
  {
    if k == 0 then Success([])
    else match ClipsUpTo(scenes, k - 1, clipUrl)
      case Failure(e) => Failure(e)
      case Success(clips) =>
        match clipUrl(k - 1, scenes[k - 1].visualPrompt)
        case Failure(e) => Failure(e)
        case Success(url) => Success(clips + [Clip(scenes[k - 1].id, url, scenes[k - 1].duration)])
  }

  function VideoClips(scenes: seq<Scene>, video: Wavespeed.VideoService): Result<seq<Clip>, string>
  {
    ClipsUpTo(scenes, |scenes|, ClipGenerator(video))
  }

  /** The clip a scene gets when its own submission and poll succeed. */
  predicate ClipOf(scenes: seq<Scene>, i: nat, clipUrl: (nat, string) -> Result<Json, string>, clip: Clip)
    requires i < |scenes|
  {
    var url := clipUrl(i, scenes[i].visualPrompt);
    url.Success? && clip == Clip(scenes[i].id, url.value, scenes[i].duration)
  }

  /** Clips come one per scene, in scene order, copying the scene's id and duration. */
  lemma {:induction false} ClipsFollowScenes(scenes: seq<Scene>, k: nat, clipUrl: (nat, string) -> Result<Json, string>)
    requires k <= |scenes|
    requires ClipsUpTo(scenes, k, clipUrl).Success?
    ensures var clips := ClipsUpTo(scenes, k, clipUrl).value;
            |clips| == k && forall i :: 0 <= i < k ==> ClipOf(scenes, i, clipUrl, clips[i])
  {
    if k > 0 {
      var before := ClipsUpTo(scenes, k - 1, clipUrl);
      assert before.Success?;
      ClipsFollowScenes(scenes, k - 1, clipUrl);
      var url := clipUrl(k - 1, scenes[k - 1].visualPrompt);
      assert url.Success?;
      var clips := ClipsUpTo(scenes, k, clipUrl).value;
      assert clips == before.value + [Clip(scenes[k - 1].id, url.value, scenes[k - 1].duration)];
    }
  }

  /** A failed clip stage reports the error of the first failing scene, and
      every scene before it produced its clip. */
  lemma {:induction false} ClipsStopAtFirstFailure(scenes: seq<Scene>, k: nat, clipUrl: (nat, string) -> Result<Json, string>)
    requires k <= |scenes|
    requires ClipsUpTo(scenes, k, clipUrl).Failure?
    ensures exists f :: 0 <= f < k
              && clipUrl(f, scenes[f].visualPrompt) == Failure(ClipsUpTo(scenes, k, clipUrl).error)
              && forall i :: 0 <= i < f ==> clipUrl(i, scenes[i].visualPrompt).Success?
  {
    var before := ClipsUpTo(scenes, k - 1, clipUrl);
    if before.Failure? {
      ClipsStopAtFirstFailure(scenes, k - 1, clipUrl);
    } else {
      ClipsFollowScenes(scenes, k - 1, clipUrl);
      var f := k - 1;
      forall i | 0 <= i < f
        ensures clipUrl(i, scenes[i].visualPrompt).Success?
      {
        assert ClipOf(scenes, i, clipUrl, before.value[i]);
      }
      assert clipUrl(f, scenes[f].visualPrompt) == Failure(ClipsUpTo(scenes, k, clipUrl).error);
    }
  }

  /** A failed clip stage reports the error of one scene's clip, so it carries
      that step's prefix. */
  lemma VideoClipErrorsCarryPrefix(scenes: seq<Scene>, video: Wavespeed.VideoService)
    ensures VideoClips(scenes, video).Failure? ==> Wavespeed.ClipFailurePrefix <= VideoClips(scenes, video).error
  {
    var clips := VideoClips(scenes, video);
    var gen := ClipGenerator(video);
    if clips.Failure? {
      ClipsStopAtFirstFailure(scenes, |scenes|, gen);
      var f :| 0 <= f < |scenes| && gen(f, scenes[f].visualPrompt) == Failure(clips.error);
      assert Wavespeed.ClipUrl(f, scenes[f].visualPrompt, video) == Failure(clips.error);
    }
  }

  /** A planned job's clip stage, when it succeeds, yields one clip per
      planned scene, hence at least three. */
  lemma PlannedClipsAtLeastThree(theme: string, duration: int, video: Wavespeed.VideoService)
    ensures var clips := VideoClips(PlannedScenes(theme, duration), video);
            clips.Success? ==> |clips.value| == SceneCount(duration) >= 3
  {
    var scenes := PlannedScenes(theme, duration);
    ScenesPartitionDuration(theme, duration);
    if VideoClips(scenes, video).Success? {
      ClipsFollowScenes(scenes, |scenes|, ClipGenerator(video));
    }
  }

  lemma {:induction false} ClipFailureSticks(scenes: seq<Scene>, k: nat, j: nat, clipUrl: (nat, string) -> Result<Json, string>)
    requires k <= j <= |scenes|
    requires ClipsUpTo(scenes, k, clipUrl).Failure?
    ensures ClipsUpTo(scenes, j, clipUrl) == ClipsUpTo(scenes, k, clipUrl)
    decreases j - k
  {
    if k < j {
      ClipFailureSticks(scenes, k, j - 1, clipUrl);
    }
  }

  /** `generate_video_clips_sync`: scenes in order, the first failure aborts. */
  method GenerateVideoClips(scenes: seq<Scene>, theme: string, video: Wavespeed.VideoService) returns (r: Result<seq<Clip>, string>)
    ensures r == VideoClips(scenes, video)
  {
    var clips: seq<Clip> := [];
    var i := 0;
    while i < |scenes|
      invariant 0 <= i <= |scenes|
      invariant ClipsUpTo(scenes, i, ClipGenerator(video)) == Success(clips)
    {
      var url := Wavespeed.GenerateSingleClip(i, scenes[i].visualPrompt, theme, video);
      if url.Failure? {
        ClipFailureSticks(scenes, i + 1, |scenes|, ClipGenerator(video));
        return Failure(url.error);
      }
      clips := clips + [Clip(scenes[i].id, url.value, scenes[i].duration)];
      i := i + 1;
    }
    r := Success(clips);
  }

  // ---------------------------------------------------------------- audio

  const PlaceholderAudio := "https://example.com/audio.mp3"

  /** `generate_audio_sync`: a placeholder that ignores story and theme. */
  function GenerateAudio(story: Story, theme: string): (url: string)
    ensures url == PlaceholderAudio
  {
    PlaceholderAudio
  }

  // ---------------------------------------------------------------- assembly

  const NoClips := "Aucun clip vidéo disponible"
  const AssemblyFailurePrefix := "Assemblage vidéo échoué: "

  /** Python's `int()` on a float: rounds toward zero. */
  function Trunc(x: real): int
  {
    if x >= 0.0 then x.Floor else -((-x).Floor)
  }

  /** Where clip `i` starts: the whole seconds of the clips before it. */
  function Offset(clips: seq<Clip>, i: nat): int
    requires i <= |clips|
  {
    if i == 0 then 0 else Offset(clips, i - 1) + Trunc(clips[i - 1].duration)
  }

  /** Clip `i` on the video track: from its offset, for its whole seconds. */
  function KeyframeAt(clips: seq<Clip>, i: nat): Fal.Keyframe
    requires i < |clips|
  {
    Fal.Keyframe(clips[i].url, Offset(clips, i), Trunc(clips[i].duration))
  }

  /** The keyframes of the first `k` clips. */
  function LayoutUpTo(clips: seq<Clip>, k: nat): (keyframes: seq<Fal.Keyframe>)
    requires k <= |clips|
    ensures |keyframes| == k
  {
    if k == 0 then []
    else LayoutUpTo(clips, k - 1) + [KeyframeAt(clips, k - 1)]
  }

  /** Keyframe `i` of the layout is clip `i`'s. */
  lemma {:induction false} LayoutUpToAt(clips: seq<Clip>, k: nat)
    requires k <= |clips|
    ensures forall i :: 0 <= i < k ==> LayoutUpTo(clips, k)[i] == KeyframeAt(clips, i)
  {
    if k > 0 {
      var prefix := LayoutUpTo(clips, k - 1);
      LayoutUpToAt(clips, k - 1);
      assert LayoutUpTo(clips, k) == prefix + [KeyframeAt(clips, k - 1)];
    }
  }

  function KeyframeLayout(clips: seq<Clip>): seq<Fal.Keyframe>
  {
    LayoutUpTo(clips, |clips|)
  }

  /** The keyframe loop of `assemble_final_video_sync`, with its running `timestamp`. */
  method BuildKeyframes(clips: seq<Clip>) returns (keyframes: seq<Fal.Keyframe>)
    ensures keyframes == KeyframeLayout(clips)
  {
    keyframes := [];
    var timestamp := 0;
    var i := 0;
    while i < |clips|
      invariant 0 <= i <= |clips|
      invariant timestamp == Offset(clips, i)
      invariant keyframes == LayoutUpTo(clips, i)
    {
      var clip := clips[i];
      keyframes := keyframes + [Fal.Keyframe(clip.url, timestamp, Trunc(clip.duration))];
      assert keyframes == LayoutUpTo(clips, i + 1);
      timestamp := timestamp + Trunc(clip.duration);
      i := i + 1;
    }
  }

  /** Clips are laid out back to back, each starting where the previous one
      ends; the timestamps are the prefix sums of the whole-second durations. */
  lemma LayoutBackToBack(clips: seq<Clip>)
    ensures var kf := KeyframeLayout(clips);
            && |kf| == |clips|
            && (|kf| > 0 ==> kf[0].timestamp == 0)
            && (forall i :: 0 < i < |kf| ==> kf[i].timestamp == kf[i - 1].timestamp + kf[i - 1].duration)
            && forall i :: 0 <= i < |kf| ==>
                 kf[i] == Fal.Keyframe(clips[i].url, Offset(clips, i), Trunc(clips[i].duration))
  {
    LayoutUpToAt(clips, |clips|);
  }

  lemma {:induction false} OffsetOfEqualDurations(clips: seq<Clip>, x: real, i: nat)
    requires i <= |clips|
    requires forall j :: 0 <= j < |clips| ==> clips[j].duration == x
    ensures Offset(clips, i) == i * Trunc(x)
  {
    if i > 0 {
      OffsetOfEqualDurations(clips, x, i - 1);
    }
  }

  lemma TruncOfQuotient(d: int, n: int)
    requires d >= 0 && n > 0
    ensures Trunc(d as real / n as real) == d / n
  {
    var q, r := d / n, d % n;
    assert d == q * n + r;
    var x := d as real / n as real;
    assert x == q as real + r as real / n as real;
    assert 0.0 <= r as real / n as real < 1.0;
  }

  /** For a non-negative duration, the keyframes of the planned clips cover
      `n * (duration // n)` seconds: never more than the requested duration,
      and short of it by less than one second per clip. */
  lemma PlannedLayoutSpan(clips: seq<Clip>, duration: int)
    requires duration >= 0 && |clips| == SceneCount(duration)
    requires forall j :: 0 <= j < |clips| ==> clips[j].duration == duration as real / |clips| as real
    ensures var n := |clips|;
            && Offset(clips, n) == n * (duration / n)
            && duration - n < Offset(clips, n) <= duration
  {
    var n := |clips|;
    OffsetOfEqualDurations(clips, duration as real / n as real, n);
    TruncOfQuotient(duration, n);
  }

  function CompositionPayload(keyframes: seq<Fal.Keyframe>): Fal.Payload
  {
    Fal.Payload([Fal.Track("1", "video", keyframes)])
  }

  /** `assemble_final_video_sync`: no clips raises (outside the `try`); one clip
      is returned as it is; otherwise the keyframes go to the composer, whose
      request is polled, and every error from there on is re-raised under
      `Assemblage vidéo échoué: `. The audio URL and the duration are not used. */
  function Assembly(clips: seq<Clip>, audioUrl: string, duration: int, fal: Fal.FalService): (r: Result<Json, string>)
    ensures r.Failure? ==> (clips == [] && r.error == NoClips) || (|clips| >= 2 && AssemblyFailurePrefix <= r.error)
  {
    if |clips| == 0 then Failure(NoClips)
    else if |clips| == 1 then Success(clips[0].url)
    else
      var inner: Result<Json, string> :=
        match Posted(fal.submit(CompositionPayload(KeyframeLayout(clips))), "FAL FFmpeg")
        case Failure(m) => Failure(m)
        case Success(result) =>
          match Fal.RequestId(result)
          case Failure(m) => Failure(m)
          case Success(id) =>
            if Truthy(id) then
              PollResult(PollFrom(Fal.FalAttempt, Fal.PollReplies(fal, id), 0, Fal.PollBudget), Fal.PollTimeout)
            else Failure(Fal.MissingRequest);
      match inner
      case Success(url) => Success(url)
      case Failure(m) => Failure(AssemblyFailurePrefix + m)
  }

  /** A composed video's URL is one the composer's poll accepted: truthy. */
  lemma AssembledUrlIsTruthy(clips: seq<Clip>, audioUrl: string, duration: int, fal: Fal.FalService)
    requires |clips| >= 2
    ensures Assembly(clips, audioUrl, duration, fal).Success? ==> Truthy(Assembly(clips, audioUrl, duration, fal).value)
  {
    var posted := Posted(fal.submit(CompositionPayload(KeyframeLayout(clips))), "FAL FFmpeg");
    if posted.Success? && Fal.RequestId(posted.value).Success? {
      var id := Fal.RequestId(posted.value).value;
      PollStopsAtFirstReady(Fal.FalAttempt, Fal.PollReplies(fal, id), 0, Fal.PollBudget);
    }
  }

  /** A single clip is returned unchanged and the composer is never consulted. */
  lemma SingleClipBypass(clip: Clip, audioUrl: string, duration: int, fal: Fal.FalService, other: Fal.FalService)
    ensures Assembly([clip], audioUrl, duration, fal) == Assembly([clip], audioUrl, duration, other) == Success(clip.url)
  {
  }

  method AssembleFinalVideo(clips: seq<Clip>, audioUrl: string, duration: int, fal: Fal.FalService) returns (r: Result<Json, string>)
    ensures r == Assembly(clips, audioUrl, duration, fal)
  {
    if |clips| == 0 {
      return Failure(NoClips);
    }
    if |clips| == 1 {
      return Success(clips[0].url);
    }
    var keyframes := BuildKeyframes(clips);
    var payload := CompositionPayload(keyframes);
    var inner: Result<Json, string>;
    var posted := Posted(fal.submit(payload), "FAL FFmpeg");
    if posted.Failure? {
      inner := Failure(posted.error);
    } else {
      var id := Fal.RequestId(posted.value);
      if id.Failure? {
        inner := Failure(id.error);
      } else if Truthy(id.value) {
        var attempts;
        inner, attempts := Fal.WaitForFal(Fal.PollReplies(fal, id.value));
      } else {
        inner := Failure(Fal.MissingRequest);
      }
    }
    r := if inner.Success? then inner else Failure(AssemblyFailurePrefix + inner.error);
  }
}
