# gpu-party particle visualiser, modelled in Dafny

This project models the logic core of the `ai-vis` audio-reactive particle
visualiser. Its parts:

- **The WebGPU engine** (`GPUEngine`). It is a singleton holding nullable GPU
  resources. `render` is a guarded per-frame step: it uploads the camera,
  submits one command buffer (a compute pass, then an instanced draw),
  advances a clamped clock and writes an 8-float uniform payload built from the
  audio levels. The lifecycle operations are `initialize`, `resize`
  (`updateSize`, `createDepthTexture`, `configureContext`), `destroy` and the
  device-loss handler. The pipeline builders fill the particle buffer and
  resolve `#include` directives in shader text.
- **The audio manager** (`AudioManager`). It turns the analyser's byte spectrum
  into bass, mid, high and average levels, by averaging over the bin ranges of
  three frequency bands.
- **The GPU helpers.** `createUniformBuffer` packs scalars and float arrays into
  one array. `createBuffer` sizes and fills a mapped buffer.
  `createShaderModule` fails when the compiler reports an error.
- **The scalar helpers**: `lerp`, `clamp`, `randomRange`, `mapRange`,
  `normalizeArray` and `smoothStep`.
- **The state store.** It holds an initial state and four actions, each a
  shallow merge of a partial record into one slice.

Modules:

| module | file | models |
|---|---|---|
| `Common` | common.dfy | `Option`, `Result`, and `Level`, a JavaScript number that may be `NaN` |
| `ScalarUtils` | scalar_utils.dfy | `ai-vis/src/core/utils/index.ts` |
| `Store` | store.dfy | `ai-vis/lib/state/store.ts` |
| `GpuUtils` | gpu_utils.dfy | `ai-vis/lib/gpu/utils.ts` |
| `Audio` | audio_manager.dfy | `ai-vis/lib/audio/manager.ts` |
| `Particles` | particles.dfy | the sizes, the workgroup count and the initial-particle loop of `ai-vis/lib/gpu/core.ts` |
| `Frame` | frame.dfy | the time step and the uniform payload of `render` |
| `ShaderInclude` | shader_include.dfy | the `#include` handling of `loadShaderModule` |
| `Engine` | engine.dfy | the `GPUEngine` class, the canvas, and the `getInstance` singleton |

The engine does not model WebGPU calls. Each call that matters (texture
creation and destruction, buffer writes, submissions, shader modules, the
next-frame request) is appended to a ghost event log. The uniform buffer's
contents and the particle upload are also ghost fields. This lets contracts
state "nothing happens", "what the compute pass reads" and "every old
depth texture is destroyed before the next is created". The following are
parameters of the operations that use them:

- the clock reading;
- the analyser's spectrum;
- the `Math.random` draws;
- the context's sample rate;
- whether an adapter, a context or the microphone is available;
- `fetch`, as a total function from URL to text.

`render` writes a payload composed from `audio.lastReport`. The contracts of
`Render`, `StartRenderLoop`, `Start` and `Initialize` state that this is
`AudioManager.Report` of the spectrum on entry. `Report` is silence while the
analyser is missing. With the analyser's full spectrum at 44.1 kHz or more,
`Report` gives four levels in [0, 1]. At lower sample rates it can give
`NaN`. These facts carry over to the uniforms through
`Frame.ComposeUniforms`, `Frame.PayloadBounds` and `Frame.OverrunPoisonsSpeed`.

Behaviour of the code worth noting:

- A failed `initialize` leaves behind whatever it set before the failure: the
  canvas, and the device when only the context is missing. It does not
  restore a clean state.
- Audio `destroy` keeps the `audioContext` reference. It is closed but not
  cleared.
- A low sample rate makes the high band read past the 1024-entry spectrum.
  Then the high level and the average are `NaN`, not clamped
  (`Audio.HighBandOverrun`, `Frame.OverrunPoisonsSpeed`).

## Model

| member | source | states |
|---|---|---|
| ScalarUtils.Lerp | ai-vis/src/core/utils/index.ts:1-3 | the interpolant departs from `start` by the fraction t of the distance to `end` |
| ScalarUtils.LerpEndpoints | ai-vis/src/core/utils/index.ts:1-3 | `lerp(s, e, 0) == s` and `lerp(s, e, 1) == e` |
| ScalarUtils.LerpBetween | ai-vis/src/core/utils/index.ts:1-3 | for t in [0, 1], the interpolant lies between the two ends |
| ScalarUtils.Clamp | ai-vis/src/core/utils/index.ts:5-7 | the result is at most `max`; at least `min` when `min <= max`; the value itself when it is already in range; `max` when the bounds are crossed |
| ScalarUtils.ClampIdempotent | ai-vis/src/core/utils/index.ts:5-7 | clamping twice is clamping once |
| ScalarUtils.RandomRange | ai-vis/src/core/utils/index.ts:9-11 | a draw r gives the point a fraction r of the way from `min` to `max` |
| ScalarUtils.RandomRangeBounds | ai-vis/src/core/utils/index.ts:9-11 | a draw in [0, 1) lands in [min, max) |
| ScalarUtils.MapRange | ai-vis/src/core/utils/index.ts:13-21 | no number comes out exactly when `inMin == inMax` (a division by zero) |
| ScalarUtils.MapRangeEndpoints | ai-vis/src/core/utils/index.ts:13-21 | `inMin` maps to `outMin` and `inMax` to `outMax` |
| ScalarUtils.HermiteUnit | ai-vis/src/core/utils/index.ts:31 | the smooth-step polynomial maps [0, 1] into [0, 1] |
| ScalarUtils.SmoothStep | ai-vis/src/core/utils/index.ts:29-32 | `NaN` exactly when both edges and x coincide (0 / 0); otherwise a value in [0, 1] |
| ScalarUtils.SmoothStepEdges | ai-vis/src/core/utils/index.ts:29-32 | with edge0 < edge1: 0 at or below edge0, 1 at or above edge1 |
| ScalarUtils.SeqMax | ai-vis/src/core/utils/index.ts:24 | `Math.max(...arr)`: an element of the array, and no element is larger |
| ScalarUtils.SeqMin | ai-vis/src/core/utils/index.ts:25 | `Math.min(...arr)`: an element of the array, and no element is smaller |
| ScalarUtils.NormalizedUnit | ai-vis/src/core/utils/index.ts:26 | one element, with distinct bounds around it, lands in [0, 1], the bounds on 0 and 1 |
| ScalarUtils.NormalizeArray | ai-vis/src/core/utils/index.ts:23-27 | the output has the input's length |
| ScalarUtils.NormalizeArrayRange | ai-vis/src/core/utils/index.ts:23-27 | with distinct extremes, every element lands in [0, 1], the minimum on 0 and the maximum on 1 |
| ScalarUtils.NormalizeArrayConstant | ai-vis/src/core/utils/index.ts:23-27 | an array of equal elements normalises to all `NaN` |
| Store.InitialValues | ai-vis/lib/state/store.ts:22-42 | the initial state: not playing, preset `default`, quality `auto`, audio {1.0, 0.8, 2048}, visual {1000, 2, `default`, `normal`}, performance all zero |
| Store.SetConfig | ai-vis/lib/state/store.ts:43-45 | an empty patch leaves the state as it was |
| Store.SetAudioConfig | ai-vis/lib/state/store.ts:46-48 | an empty patch leaves the state as it was |
| Store.SetQuality | ai-vis/lib/state/store.ts:49 | the state is unchanged exactly when the quality given is the current one |
| Store.UpdatePerformance | ai-vis/lib/state/store.ts:50-52 | an empty patch leaves the state as it was |
| Store.SetConfigMerge | ai-vis/lib/state/store.ts:43-45 | each visual field present in the patch takes the patch's value, each absent one keeps its value, and no other slice changes |
| Store.SetAudioConfigMerge | ai-vis/lib/state/store.ts:46-48 | the same per-field merge, confined to the audio slice |
| Store.SetQualityFrame | ai-vis/lib/state/store.ts:49 | only `quality` changes |
| Store.UpdatePerformanceMerge | ai-vis/lib/state/store.ts:50-52 | the same per-field merge, confined to the performance slice |
| Store.ActionsIdempotent | ai-vis/lib/state/store.ts:43-52 | applying the same patch or quality twice equals applying it once |
| Store.SetConfigCompose | ai-vis/lib/state/store.ts:43-45 | two `setConfig` calls equal one call with the later patch laid over the earlier |
| Store.VisualizerStore.constructor | ai-vis/lib/state/store.ts:22-42 | the store starts in the initial state |
| Store.VisualizerStore.SetConfigAction | ai-vis/lib/state/store.ts:43-45 | `set` replaces the held state with the `setConfig` transition of the old one |
| Store.VisualizerStore.SetAudioConfigAction | ai-vis/lib/state/store.ts:46-48 | the held state becomes the `setAudioConfig` transition of the old one |
| Store.VisualizerStore.SetQualityAction | ai-vis/lib/state/store.ts:49 | the held state becomes the `setQuality` transition of the old one |
| Store.VisualizerStore.UpdatePerformanceAction | ai-vis/lib/state/store.ts:50-52 | the held state becomes the `updatePerformance` transition of the old one |
| GpuUtils.Width | ai-vis/lib/gpu/utils.ts:66-68 | a value counts one slot per float it contributes (an array's length, 1 for a scalar) |
| GpuUtils.FlattenLength | ai-vis/lib/gpu/utils.ts:66-79 | the `reduce` length equals the length of the concatenated values, so the final offset is the array's end |
| GpuUtils.FlattenPrefix | ai-vis/lib/gpu/utils.ts:70-79 | packing a prefix of the record yields a prefix of the packed array |
| GpuUtils.FlattenAt | ai-vis/lib/gpu/utils.ts:70-79 | entry k's floats sit from the total width of the entries before it, in their own order |
| GpuUtils.SetAt | ai-vis/lib/gpu/utils.ts:73 | `set(value, offset)` overwrites exactly the slots `[offset, offset + length)` with the value |
| GpuUtils.PackUniforms | ai-vis/lib/gpu/utils.ts:66-79 | the packing loop yields an array of the `reduce` length that is the concatenation of the values in record order |
| GpuUtils.CreateBuffer | ai-vis/lib/gpu/utils.ts:21-38 | the buffer has `byteLength` bytes, 4 per element, and its float view holds the data element by element |
| GpuUtils.CreateUniformBuffer | ai-vis/lib/gpu/utils.ts:61-87 | the buffer has 4 bytes per packed slot and holds the record's floats concatenated in order |
| GpuUtils.UniformBufferLayout | ai-vis/lib/gpu/utils.ts:61-87 | the uniform buffer has 4 bytes per slot, and entry k's j-th float is at its offset plus j |
| GpuUtils.EmptyRecord | ai-vis/lib/gpu/utils.ts:66-70 | an empty record packs into a zero-length array and a zero-byte buffer |
| GpuUtils.HasError | ai-vis/lib/gpu/utils.ts:13 | true exactly when some message has type `error` |
| GpuUtils.CreateShaderModule | ai-vis/lib/gpu/utils.ts:1-19 | fails exactly when some message is an error, with the message `<type> shader compilation failed`; otherwise the module labelled `<type> shader` over the code |
| GpuUtils.WarningsPass | ai-vis/lib/gpu/utils.ts:12-18 | warnings and infos alone never fail the compilation |
| Audio.Round | ai-vis/lib/audio/manager.ts:64 | `Math.round`: the integer within half a unit, halves rounding up |
| Audio.BinForFrequency | ai-vis/lib/audio/manager.ts:62-64 | a non-negative frequency gets a non-negative bin; one at or below the Nyquist frequency a bin at most the bin count; the Nyquist frequency itself exactly the bin count |
| Audio.RangeAverage | ai-vis/lib/audio/manager.ts:67-75 | the range average; a range with count 0 divides 0 / 0 and is `NaN`; a reversed range sums nothing and is 0 |
| Audio.Levels | ai-vis/lib/audio/manager.ts:77-82 | the average is a number exactly when all three bands are |
| Audio.StandardRateInRange | ai-vis/lib/audio/manager.ts:62-64 | at 44.1 kHz or more, 20 kHz falls strictly inside the 1024 bins |
| Audio.AudioManager.Report | ai-vis/lib/audio/manager.ts:48-83 | silence while the analyser or the array is missing; with the analyser's full spectrum at 44.1 kHz or more, four levels in [0, 1] |
| Audio.RoundMonotone | ai-vis/lib/audio/manager.ts:64 | `Math.round` is monotone |
| Audio.BinMonotone | ai-vis/lib/audio/manager.ts:62-64 | the bin of a frequency grows with the frequency |
| Audio.BandBins | ai-vis/lib/audio/manager.ts:13-17 | each band's low bin is at most its high bin, and the 140 Hz and 2000 Hz boundary bins belong to both neighbouring bands |
| Audio.SpanSumBounds | ai-vis/lib/audio/manager.ts:70-73 | a sum over in-range bins is a number between 0 and 255 per bin |
| Audio.SpanSumOutOfRange | ai-vis/lib/audio/manager.ts:71-72 | a read past either end of the spectrum makes the sum `NaN` |
| Audio.RangeAverageUnit | ai-vis/lib/audio/manager.ts:67-75 | a band whose inclusive bin range lies in the spectrum averages to a level in [0, 1] |
| Audio.Mean3Between | ai-vis/lib/audio/manager.ts:80 | the average lies between the smallest and the largest band |
| Audio.LevelsInUnit | ai-vis/lib/audio/manager.ts:61-82 | when the top band's high bin lies inside the spectrum, all four levels are numbers in [0, 1] |
| Audio.HighBandOverrun | ai-vis/lib/audio/manager.ts:71-72 | when the top band's high bin is at or past the bin count, the high level and the average are `NaN` |
| Audio.TopBinAt44100 | ai-vis/lib/audio/manager.ts:9 | with 2048-point FFTs at 44.1 kHz, 20 kHz falls in bin 929 of 1024 |
| Audio.TopBinAt16000 | ai-vis/lib/audio/manager.ts:9 | at 16 kHz, 20 kHz maps to bin 2560, far past the 1024 bins |
| Audio.AudioManager.constructor | ai-vis/lib/audio/manager.ts:1-19 | every platform field starts null, and `getAudioData` is inactive |
| Audio.AudioManager.Initialize | ai-vis/lib/audio/manager.ts:21-46 | context and analyser (FFT 2048, smoothing 0.8) and two zeroed 1024-byte arrays are set before the microphone request; a refused microphone fails and leaves them set with no stream |
| Audio.AudioManager.AverageForRange | ai-vis/lib/audio/manager.ts:67-75 | the summing loop computes the inclusive range average of the current spectrum over the bins of the two frequencies |
| Audio.AudioManager.GetAudioData | ai-vis/lib/audio/manager.ts:48-83 | silence (all four zero) while analyser or array is missing; otherwise the spectrum is copied into `frequencyData` and reduced to the band levels; the result is recorded as `lastReport` |
| Audio.AudioManager.Destroy | ai-vis/lib/audio/manager.ts:85-96 | analyser, stream and both arrays are cleared, the context reference is kept, the tracks are stopped and the context closed when present; afterwards `getAudioData` is silent |
| Particles.SizesAgree | ai-vis/lib/gpu/core.ts:247 | the particle buffer and binding size is 48 bytes per particle, equal to 4 bytes times the 12 floats per particle; the uniform and camera sizes are their float counts times 4 |
| Particles.Ceil | ai-vis/lib/gpu/core.ts:491 | `Math.ceil(x)` is the least integer not below x |
| Particles.WorkgroupsCover | ai-vis/lib/gpu/core.ts:491 | `c = ceil(N / 64)` workgroups satisfy `c * 64 >= N` and `(c - 1) * 64 < N` |
| Particles.EngineWorkgroups | ai-vis/lib/gpu/core.ts:51-52 | 100000 particles take 1563 workgroups of 64 |
| Particles.Record | ai-vis/lib/gpu/core.ts:302-316 | one particle's record has 12 floats |
| Particles.InitialData | ai-vis/lib/gpu/core.ts:299-317 | the initial data has 12 floats per particle |
| Particles.ParticleAt | ai-vis/lib/gpu/core.ts:300-317 | particle i occupies floats `[12 i, 12 i + 12)`, built from its own six draws |
| Particles.InitialParticleBounds | ai-vis/lib/gpu/core.ts:302-316 | with draws in [0, 1): position in [-1, 1) with w = 1, zero velocity, colour in [0, 1) with alpha 1 |
| Particles.WriteParticle | ai-vis/lib/gpu/core.ts:302-316 | one loop pass writes the particle's 12 floats at its base index and leaves the earlier particles alone |
| Particles.InitialParticleData | ai-vis/lib/gpu/core.ts:299-317 | the loop fills a `12 N`-float array equal to the initial data |
| Frame.DeltaTime | ai-vis/lib/gpu/core.ts:519-520 | the step is at most 0.1 s; it is the elapsed milliseconds divided by 1000 below 100 ms, and exactly 0.1 from 100 ms on |
| Frame.ComposeUniforms | ai-vis/lib/gpu/core.ts:526-535 | the payload has 8 values |
| Frame.SilentPayload | ai-vis/lib/gpu/core.ts:526-535 | silence gives speed 1, curl frequency 0.5 and zero audio fields |
| Frame.InitialIsSilentFrame | ai-vis/lib/gpu/core.ts:271-288 | the initial payload is a silent frame at time 0 with a 0.016 s step, and 8 floats fill the 32-byte uniform buffer |
| Frame.LoudAverageSpeed | ai-vis/lib/gpu/core.ts:526-535 | an average level of 1 gives speed 3 and amplified average 1.5, whatever the bands; with a full bass too, curl frequency 1 |
| Frame.SlotsFollowTheirLevel | ai-vis/lib/gpu/core.ts:526-535 | speed and amplified average depend on the average alone, curl frequency and amplified bass on the bass alone, the mid and high fields on their own level, and time and step on no level |
| Frame.PayloadBounds | ai-vis/lib/gpu/core.ts:526-535 | levels in [0, 1] keep speed in [1, 3], curl frequency in [0.5, 1] and each amplified field in its scaled range |
| Frame.OverrunPoisonsSpeed | ai-vis/lib/gpu/core.ts:525-535 | when the high band overruns the spectrum, the speed and the amplified average sent to the shader are `NaN` |
| ShaderInclude.SpaceRun | ai-vis/lib/gpu/core.ts:561 | the greedy `\s+` run: every character in it is white space, and the next one is not |
| ShaderInclude.PathRun | ai-vis/lib/gpu/core.ts:561 | the greedy `[^"]+` run stops exactly at the next quote or the end |
| ShaderInclude.MatchAt | ai-vis/lib/gpu/core.ts:561 | a match at p starts with `#include` and is a well-formed directive standing in the text at p |
| ShaderInclude.MatchedDirective | ai-vis/lib/gpu/core.ts:561 | keyword, white space and a quoted quote-free path make a well-formed directive occurring at its start |
| ShaderInclude.ScanFrom | ai-vis/lib/gpu/core.ts:562 | `matchAll` yields well-formed directives that occur in the text, in order and without overlap |
| ShaderInclude.IndexOf | ai-vis/lib/gpu/core.ts:570 | the first occurrence at or after a position, or none when there is none |
| ShaderInclude.ResolveIncludes | ai-vis/lib/gpu/core.ts:560-571 | the loop's result is the one-pass resolution of the original text |
| ShaderInclude.NoKeywordNoDirectives | ai-vis/lib/gpu/core.ts:560-562 | text without `#include` has no directives |
| ShaderInclude.ReplaceFirst | ai-vis/lib/gpu/core.ts:570 | without the pattern the text is unchanged; otherwise only its first occurrence is replaced: the text before is kept, the replacement stands there, and the text after the pattern follows |
| ShaderInclude.Resolve | ai-vis/lib/gpu/core.ts:560-571 | the `includes` guard only saves work: resolving is applying the directives collected from the original text, in order |
| ShaderInclude.NoDirectivesUnchanged | ai-vis/lib/gpu/core.ts:560-571 | text without directives comes back unchanged |
| ShaderInclude.PathRunOfPath | ai-vis/lib/gpu/core.ts:561 | the capture of `"path"` is exactly the path |
| ShaderInclude.SingleDirective | ai-vis/lib/gpu/core.ts:560-571 | a file that is one directive resolves to the fetched text, and directives inside it are not expanded |
| Engine.ToUnsignedLong | ai-vis/lib/gpu/core.ts:189-190 | a drawing-buffer size below 2^32 is truncated to its floor; any result is below 2^32 |
| Engine.ReflectedDimension | ai-vis/lib/gpu/core.ts:189-190 | the stored width or height: the floor of a size below 2^31; a size in [2^31, 2^32) leaves the default (300 or 150); never above 2^31 - 1 unless it is the default |
| Engine.DrawingSize | ai-vis/lib/gpu/core.ts:186-187 | the drawing size divided by the pixel ratio gives back the layout size; at ratio 1 it is the layout size |
| Engine.DevicePixelRatio | ai-vis/lib/gpu/core.ts:26-28 | `min(devicePixelRatio \|\| 1, 2)`: at most 2, 1 without a window or with a zero ratio, the ratio itself when it is in (0, 2] |
| Engine.Canvas.constructor | ai-vis/lib/gpu/core.ts:16 | a canvas at its layout size with the default 300 × 150 drawing buffer |
| Engine.LiveTexturesAppend | ai-vis/lib/gpu/core.ts:212-214 | the live-texture count of a log is additive over concatenation |
| Engine.TextureFreeLive | ai-vis/lib/gpu/core.ts:208-224 | a log with no texture events changes no texture count |
| Engine.AtMostOneLiveFree | ai-vis/lib/gpu/core.ts:208-224 | a log with no texture events keeps at most one live texture |
| Engine.ResizeKeepsOneTexture | ai-vis/lib/gpu/core.ts:467-472 | a resize ends with exactly one live depth texture |
| Engine.ResizeNeverTwoTextures | ai-vis/lib/gpu/core.ts:208-224 | during a resize two depth textures are never alive at once: each creation follows the destruction of the previous one |
| Engine.FramePassesShape | ai-vis/lib/gpu/core.ts:488-513 | the compute pass comes first, with `ceil(N / 64)` workgroups that cover N; then a draw of 4 vertices × N instances on the depth texture |
| Engine.OneSubmissionPerFrame | ai-vis/lib/gpu/core.ts:516-539 | a frame submits exactly once, its compute pass reads the previous payload, the new payload is written once after the submission, and no texture is created or destroyed |
| Engine.GPUEngine.constructor | ai-vis/lib/gpu/core.ts:14-63 | after the synchronous body nothing is allocated, clock and size are zero, the log is empty, the pixel ratio is fixed, and the engine is not ready |
| Engine.GPUEngine.Ready | ai-vis/lib/gpu/core.ts:475 | when the `render` guard passes on a valid engine, the canvas, both bind groups and the three buffers exist too |
| Engine.GPUEngine.UpdateSize | ai-vis/lib/gpu/core.ts:183-192 | with a canvas, `config.size` becomes the layout size times the pixel ratio and the drawing buffer its reflected `unsigned long` value (the default past 2^31 - 1); without one, nothing changes |
| Engine.GPUEngine.CreateDepthTexture | ai-vis/lib/gpu/core.ts:208-224 | with device and canvas, the old texture is destroyed and one of the canvas's size is created; otherwise nothing happens |
| Engine.GPUEngine.ConfigureContext | ai-vis/lib/gpu/core.ts:194-206 | with context and device: resize, replace the depth texture, configure; otherwise nothing changes |
| Engine.GPUEngine.UpdateCameraUniforms | ai-vis/lib/gpu/core.ts:434-465 | with device, camera buffer and canvas, the matrices for the canvas size are uploaded, and nothing else |
| Engine.GPUEngine.Resize | ai-vis/lib/gpu/core.ts:467-472 | the canvas follows the layout size; with a device the depth texture has exactly the canvas size, and the log is the resize sequence (old texture destroyed before each creation) |
| Engine.GPUEngine.Render | ai-vis/lib/gpu/core.ts:474-540 | unless device, context, both pipelines and depth texture exist, no clock, uniform, log or spectrum change; otherwise time grows by the clamped step, `lastFrameTime` becomes `now`, the reported levels are `Report` of the spectrum, the uniforms are composed from them, and the log grows by exactly one frame |
| Engine.GPUEngine.WriteFrameUniforms | ai-vis/lib/gpu/core.ts:525-536 | the reported levels are `Report` of the spectrum, and the uniform buffer receives the payload composed from them |
| Engine.GPUEngine.StartRenderLoop | ai-vis/lib/gpu/core.ts:542-545 | `lastFrameTime` is set to the first clock reading `start`; when ready, the first frame reads the clock again (`now`), so time grows by the clamped step from `start` to `now` and the payload is composed with that step and `Report` of the spectrum |
| Engine.GPUEngine.Destroy | ai-vis/lib/gpu/core.ts:547-552 | the audio manager is torn down: analyser, stream and both arrays cleared, the context reference kept, the tracks stopped and the context closed when present; the device is destroyed if present, device and context dropped; the engine is no longer ready, so every later `render` is a no-op; a second `destroy` adds nothing to the GPU log but closes the kept audio context again |
| Engine.GPUEngine.OnDeviceLost | ai-vis/lib/gpu/core.ts:120-123 | only the device is dropped, and the engine is no longer ready |
| Engine.GPUEngine.LoadShaderModule | ai-vis/lib/gpu/core.ts:554-579 | one module is created, over the fetched file with its includes resolved |
| Engine.GPUEngine.CreateComputePipeline | ai-vis/lib/gpu/core.ts:226-335 | compute shader, uniform buffer with the initial payload, particle buffer with the initial particles, in that order |
| Engine.GPUEngine.CreateSimulationBuffers | ai-vis/lib/gpu/core.ts:270-318 | the uniform buffer is written with the initial payload, and the particle buffer with the initial particle data |
| Engine.GPUEngine.CreateRenderPipeline | ai-vis/lib/gpu/core.ts:337-428 | render shader and camera buffer, with the render pipeline and bind group set |
| Engine.GPUEngine.BuildPipelines | ai-vis/lib/gpu/core.ts:162-170 | configuring and building both pipelines makes the engine ready, with the canvas sized and the depth texture at the canvas's size |
| Engine.GPUEngine.Start | ai-vis/lib/gpu/core.ts:126-134 | after the pipelines the render loop starts: ready, sized canvas, depth texture at its size, the initial particles, and the first frame's clock step from `start` to `now` with its payload composed from `Report` of the spectrum |
| Engine.GPUEngine.AcquireDevice | ai-vis/lib/gpu/core.ts:106-124 | the canvas is taken; no adapter fails with `No appropriate GPUAdapter found` and changes nothing else; otherwise a device is requested, and no context then fails with `Failed to get WebGPU context`, the device kept |
| Engine.GPUEngine.Initialize | ai-vis/lib/gpu/core.ts:106-176 | fails exactly when there is no adapter (`No appropriate GPUAdapter found`, no device) or no context (`Failed to get WebGPU context`, device kept); on success the engine is ready with a sized canvas, its depth texture, the initial particles, and a first frame whose step runs from `start` to `now` and whose payload is composed from `Report` of the spectrum |
| Engine.EngineRegistry.GetInstance | ai-vis/lib/gpu/core.ts:65-70 | the first call creates a fresh, not-ready engine with an empty log whose texture count agrees with it, and it becomes the instance; later calls return that same instance |

## Left out

- Float32 rounding: every number is a `real`. `Level` adds `NaN` where the
  code can produce it (a read past the spectrum, 0 / 0). `ScalarUtils` returns
  `None` where JavaScript divides by zero.
- The WebGPU API (adapter, device, buffers, textures, pipelines, bind groups,
  command encoding, `queue.submit`) is foreign. Each call appears only as an
  event in the ghost log. Pipeline layouts, formats and usage flags are not
  modelled.
- Asynchrony: `requestAnimationFrame` is an event, and one `render` call is one
  step. The `device.lost` promise is the explicit method `OnDeviceLost`. The
  asynchronous `getInstance` is the synchronous `EngineRegistry.GetInstance`.
  `fetch` is a total function from URL to text, with no network failure.
- The constructor's WebGPU support check (core.ts:60, and `checkWebGPUSupport`
  at core.ts:72-104) is not modelled. Its `if` tests a promise, which is always
  truthy, so it never throws. But the promise runs on: it assigns
  `this.adapter` (core.ts:85) and, when an adapter exists, `this.device`
  (core.ts:97). So the source engine that `getInstance` returns soon holds a
  device. `initializeDevice` (core.ts:117) then overwrites that device
  without destroying it, and a `destroy` before `initialize` destroys it. The
  model covers only the synchronous constructor body, after which nothing is
  allocated.
- Clock readings are inputs: `Initialize`, `Start` and `StartRenderLoop` take
  the reading of `startRenderLoop` (`start`) and the one of the first
  `render` (`now`); `Render` takes its own.
- The `adapter` field, `config.preferredFormat` and `frameCount` are never read
  by the modelled logic and are not fields of the model. The empty
  `createBuffers` and `initializeResources` are not modelled.
- Camera matrices (core.ts:434-465) involve `tan` and an aspect division.
  `UpdateCameraUniforms` records only the size uploaded, not the 32 floats.
- Engine.GPUEngine.UpdateCameraUniforms: the uploaded matrices are not
  modelled, only the canvas size they are computed from.
- `String.prototype.replace` expands `$&`, `$1` and similar patterns in the
  included text. The model replaces literally.
- `Math.random` is an input sequence of draws, consumed six per particle. The
  bounds lemmas assume the draws lie in [0, 1).
- Microphone and AudioContext I/O: `getUserMedia`, `createMediaStreamSource`,
  `track.stop()` and `close()` appear only as entries in a ghost effect log.
  The sample rate and the microphone permission are inputs.
  `getByteFrequencyData` is the spectrum passed to `GetAudioData`.
- Engine.GPUEngine.Initialize: the audio initialisation (`initializeAudio`,
  core.ts:136-145) is a separate call to `Audio.AudioManager.Initialize` and is
  not part of it. Errors other than a missing adapter or context (a failed
  fetch, a failed device request) are not modelled.
- Store: a patch field is `Some` when its key is present. A key present with
  the value `undefined` (which a spread copies) is not distinguished. The
  zustand `set` is modelled as replacing the held state with the merged one.
- `ai-vis/lib/audio/analyzer.ts` is not part of this model (its RMS needs a
  square root). Neither are the UI, the presets and configuration tables, the
  stub renderer and particle modules, the WebGL fallback and the type-only
  files.
