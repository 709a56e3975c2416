/**
 * The visualiser's state store: one record with six slices and four actions.
 * Each action builds a partial state from the current one (a shallow
 * `{ ...slice, ...patch }` merge of one slice, or a new quality) and the
 * store's `set` merges that partial state into the held state at top level.
 *
 * Numbers are `real`; a patch field is `Some(v)` when the key is present.
 */
module Store {
  import opened Common

  datatype Quality = Low | Medium | High | Auto

  datatype AudioConfig = AudioConfig(sensitivity: real, smoothing: real, fftSize: real)

  datatype VisualConfig = VisualConfig(
    particleCount: real, particleSize: real, colorScheme: string, blendMode: string)

  datatype PerformanceStats = PerformanceStats(
    fps: real, frameTime: real, gpuMemory: real, particleCount: real)

  /** `Partial<AudioConfig>`. */
  datatype AudioPatch = AudioPatch(
    sensitivity: Option<real>, smoothing: Option<real>, fftSize: Option<real>)

  /** `Partial<VisualConfig>`. */
  datatype VisualPatch = VisualPatch(
    particleCount: Option<real>, particleSize: Option<real>,
    colorScheme: Option<string>, blendMode: Option<string>)

  /** `Partial<PerformanceStats>`. */
  datatype PerformancePatch = PerformancePatch(
    fps: Option<real>, frameTime: Option<real>, gpuMemory: Option<real>, particleCount: Option<real>)

  datatype State = State(
    isPlaying: bool,
    currentPreset: string,
    quality: Quality,
    audioConfig: AudioConfig,
    visualConfig: VisualConfig,
    performance: PerformanceStats)

  /** The value of a spread key: the patch's when present, the old one otherwise. */
  function Pick<T>(current: T, patch: Option<T>): T {
    match patch
    case Some(v) => v
    case None => current
  }

  /** `{ ...c, ...p }` for the audio slice. */
  function MergeAudio(c: AudioConfig, p: AudioPatch): AudioConfig {
    AudioConfig(Pick(c.sensitivity, p.sensitivity), Pick(c.smoothing, p.smoothing), Pick(c.fftSize, p.fftSize))
  }

  /** `{ ...c, ...p }` for the visual slice. */
  function MergeVisual(c: VisualConfig, p: VisualPatch): VisualConfig {
    VisualConfig(
      Pick(c.particleCount, p.particleCount), Pick(c.particleSize, p.particleSize),
      Pick(c.colorScheme, p.colorScheme), Pick(c.blendMode, p.blendMode))
  }

  /** `{ ...c, ...p }` for the performance slice. */
  function MergePerformance(c: PerformanceStats, p: PerformancePatch): PerformanceStats {
    PerformanceStats(
      Pick(c.fps, p.fps), Pick(c.frameTime, p.frameTime),
      Pick(c.gpuMemory, p.gpuMemory), Pick(c.particleCount, p.particleCount))
  }

  /** The state the store is created with. */
  function InitialState(): State {
    State(
      false, "default", Auto,
      AudioConfig(1.0, 0.8, 2048.0),
      VisualConfig(1000.0, 2.0, "default", "normal"),
      PerformanceStats(0.0, 0.0, 0.0, 0.0))
  }

  /** `setConfig(config)` as a transition of the held state. */
  function SetConfig(s: State, p: VisualPatch): (t: State)
    ensures p == VisualPatch(None, None, None, None) ==> t == s
  {
    s.(visualConfig := MergeVisual(s.visualConfig, p))
  }

  /** `setAudioConfig(config)` as a transition of the held state. */
  function SetAudioConfig(s: State, p: AudioPatch): (t: State)
    ensures p == AudioPatch(None, None, None) ==> t == s
  {
    s.(audioConfig := MergeAudio(s.audioConfig, p))
  }

  /** `setQuality(quality)` as a transition of the held state. */
  function SetQuality(s: State, q: Quality): (t: State)
    ensures t == s <==> q == s.quality
  {
    s.(quality := q)
  }

  /** `updatePerformance(stats)` as a transition of the held state. */
  function UpdatePerformance(s: State, p: PerformancePatch): (t: State)
    ensures p == PerformancePatch(None, None, None, None) ==> t == s
  {
    s.(performance := MergePerformance(s.performance, p))
  }

  lemma InitialValues()
    ensures var s := InitialState();
      && !s.isPlaying && s.currentPreset == "default" && s.quality == Auto
      && s.audioConfig == AudioConfig(1.0, 0.8, 2048.0)
      && s.visualConfig.particleCount == 1000.0 && s.visualConfig.particleSize == 2.0
      && s.visualConfig.colorScheme == "default" && s.visualConfig.blendMode == "normal"
      && s.performance == PerformanceStats(0.0, 0.0, 0.0, 0.0)
  {
  }

  /** Each visual field present in the patch takes its value; absent fields keep theirs; no other slice moves. */
  lemma SetConfigMerge(s: State, p: VisualPatch)
    ensures var t := SetConfig(s, p);
      && t.visualConfig.particleCount == (if p.particleCount.Some? then p.particleCount.value else s.visualConfig.particleCount)
      && t.visualConfig.particleSize == (if p.particleSize.Some? then p.particleSize.value else s.visualConfig.particleSize)
      && t.visualConfig.colorScheme == (if p.colorScheme.Some? then p.colorScheme.value else s.visualConfig.colorScheme)
      && t.visualConfig.blendMode == (if p.blendMode.Some? then p.blendMode.value else s.visualConfig.blendMode)
      && t.isPlaying == s.isPlaying && t.currentPreset == s.currentPreset && t.quality == s.quality
      && t.audioConfig == s.audioConfig && t.performance == s.performance
  {
  }

  /** Each audio field present in the patch takes its value; absent fields keep theirs; no other slice moves. */
  lemma SetAudioConfigMerge(s: State, p: AudioPatch)
    ensures var t := SetAudioConfig(s, p);
      && t.audioConfig.sensitivity == (if p.sensitivity.Some? then p.sensitivity.value else s.audioConfig.sensitivity)
      && t.audioConfig.smoothing == (if p.smoothing.Some? then p.smoothing.value else s.audioConfig.smoothing)
      && t.audioConfig.fftSize == (if p.fftSize.Some? then p.fftSize.value else s.audioConfig.fftSize)
      && t.isPlaying == s.isPlaying && t.currentPreset == s.currentPreset && t.quality == s.quality
      && t.visualConfig == s.visualConfig && t.performance == s.performance
  {
  }

  /** Each statistic present in the patch takes its value; absent ones keep theirs; no other slice moves. */
  lemma UpdatePerformanceMerge(s: State, p: PerformancePatch)
    ensures var t := UpdatePerformance(s, p);
      && t.performance.fps == (if p.fps.Some? then p.fps.value else s.performance.fps)
      && t.performance.frameTime == (if p.frameTime.Some? then p.frameTime.value else s.performance.frameTime)
      && t.performance.gpuMemory == (if p.gpuMemory.Some? then p.gpuMemory.value else s.performance.gpuMemory)
      && t.performance.particleCount == (if p.particleCount.Some? then p.particleCount.value else s.performance.particleCount)
      && t.isPlaying == s.isPlaying && t.currentPreset == s.currentPreset && t.quality == s.quality
      && t.audioConfig == s.audioConfig && t.visualConfig == s.visualConfig
  {
  }

  /** Only `quality` changes. */
  lemma SetQualityFrame(s: State, q: Quality)
    ensures SetQuality(s, q) == State(s.isPlaying, s.currentPreset, q, s.audioConfig, s.visualConfig, s.performance)
  {
  }

  /** Applying the same patch twice is applying it once. */
  lemma ActionsIdempotent(s: State, v: VisualPatch, a: AudioPatch, p: PerformancePatch, q: Quality)
    ensures SetConfig(SetConfig(s, v), v) == SetConfig(s, v)
    ensures SetAudioConfig(SetAudioConfig(s, a), a) == SetAudioConfig(s, a)
    ensures UpdatePerformance(UpdatePerformance(s, p), p) == UpdatePerformance(s, p)
    ensures SetQuality(SetQuality(s, q), q) == SetQuality(s, q)
  {
  }

  /** `{ ...p, ...q }`: the patch that two successive `setConfig` calls amount to. */
  function ThenVisual(p: VisualPatch, q: VisualPatch): VisualPatch {
    VisualPatch(
      if q.particleCount.Some? then q.particleCount else p.particleCount,
      if q.particleSize.Some? then q.particleSize else p.particleSize,
      if q.colorScheme.Some? then q.colorScheme else p.colorScheme,
      if q.blendMode.Some? then q.blendMode else p.blendMode)
  }

  /** Two `setConfig` calls equal one call with the later patch laid over the earlier. */
  lemma SetConfigCompose(s: State, p: VisualPatch, q: VisualPatch)
    ensures SetConfig(SetConfig(s, p), q) == SetConfig(s, ThenVisual(p, q))
  {
  }

  /** The store object: `set` replaces the held state with the action's result. */
  class VisualizerStore {
    var state: State

    constructor ()
      ensures state == InitialState()
    {
      state := InitialState();
    }

    method SetConfigAction(p: VisualPatch)
      modifies this
      ensures state == SetConfig(old(state), p)
    {
      state := SetConfig(state, p);
    }

    method SetAudioConfigAction(p: AudioPatch)
      modifies this
      ensures state == SetAudioConfig(old(state), p)
    {
      state := SetAudioConfig(state, p);
    }

    method SetQualityAction(q: Quality)
      modifies this
      ensures state == SetQuality(old(state), q)
    {
      state := SetQuality(state, q);
    }

    method UpdatePerformanceAction(p: PerformancePatch)
      modifies this
      ensures state == UpdatePerformance(old(state), p)
    {
      state := UpdatePerformance(state, p);
    }
  }
}
