/**
 * The GPU engine: a state machine over nullable WebGPU resources (device,
 * canvas context, the two pipelines, their buffers and bind groups, the
 * depth texture), the canvas size, and the simulation clock.
 *
 * WebGPU calls are not modelled; each call that matters is recorded in a
 * ghost log of `GpuEvent`s, and the uniform buffer's contents are a ghost
 * field, so that "nothing happens" and "what the GPU sees" can be stated.
 * The clock reading, the analyser spectrum, the random draws, whether an
 * adapter and a context are available, and fetching are inputs.
 */
module Engine {
  import opened Common
  import Audio
  import Frame
  import Particles
  import ShaderInclude
  import ScalarUtils

  // ------------------------------------------------------------ the canvas

  /** The `<canvas>` element: its CSS layout size and its drawing-buffer size. */
  class Canvas {
    var clientWidth: real
    var clientHeight: real
    var width: nat
    var height: nat

    /** A canvas laid out at the given size, with the HTML default 300 × 150 drawing buffer. */
    constructor (clientWidth: real, clientHeight: real)
      ensures this.clientWidth == clientWidth && this.clientHeight == clientHeight
      ensures width == DefaultWidth && height == DefaultHeight
    {
      this.clientWidth := clientWidth;
      this.clientHeight := clientHeight;
      width := DefaultWidth;
      height := DefaultHeight;
    }
  }

  /** The default `width` and `height` of a canvas element. */
  const DefaultWidth: nat := 300
  const DefaultHeight: nat := 150

  /**
   * Assigning a number to `canvas.width`: the WebIDL conversion to
   * `unsigned long` truncates towards zero and reduces modulo 2^32.
   */
  function ToUnsignedLong(x: real): (r: nat)
    ensures r < 0x1_0000_0000
    ensures 0.0 <= x < 4294967296.0 ==> r == x.Floor
  {
    var t := if x >= 0.0 then x.Floor else -((-x).Floor);
    t % 0x1_0000_0000
  }

  /**
   * Assigning to `canvas.width` or `canvas.height`: both are reflected
   * `unsigned long` attributes of the HTML Living Standard, so a converted
   * value above 2^31 - 1 is not stored and the attribute takes its default.
   */
  function ReflectedDimension(x: real, default: nat): (r: nat)
    ensures r <= 0x7FFF_FFFF || r == default
    ensures 0.0 <= x < 2147483648.0 ==> r == x.Floor
    ensures 2147483648.0 <= x < 4294967296.0 ==> r == default
  {
    var v := ToUnsignedLong(x);
    if v <= 0x7FFF_FFFF then v else default
  }

  /** `Math.min(window.devicePixelRatio || 1, 2)`, and 1 where there is no window. */
  function DevicePixelRatio(windowDpr: Option<real>): (r: real)
    ensures r <= 2.0
    ensures windowDpr.None? || windowDpr == Some(0.0) ==> r == 1.0
    ensures windowDpr.Some? && 0.0 < windowDpr.value ==> 0.0 < r <= windowDpr.value
    ensures windowDpr.Some? && 0.0 < windowDpr.value <= 2.0 ==> r == windowDpr.value
  {
    match windowDpr
    case None => 1.0
    case Some(d) => ScalarUtils.Min(if d == 0.0 then 1.0 else d, 2.0)
  }

  /** `config.size`: the unrounded drawing size last computed. */
  datatype Size = Size(width: real, height: real)

  /** The layout size times the pixel ratio. */
  function DrawingSize(clientWidth: real, clientHeight: real, dpr: real): (s: Size)
    ensures dpr != 0.0 ==> s.width / dpr == clientWidth && s.height / dpr == clientHeight
    ensures dpr == 1.0 ==> s == Size(clientWidth, clientHeight)
  {
    Size(clientWidth * dpr, clientHeight * dpr)
  }

  // ---------------------------------------------------------- GPU objects

  /** An opaque WebGPU object (device, context, pipeline or bind group), by its label. */
  datatype Handle = Handle(name: string)

  datatype Buffer = Buffer(name: string, size: nat)

  /** A depth texture, by its size. */
  datatype Texture = Texture(width: nat, height: nat)

  const UniformBuffer := Buffer("Particle simulation uniforms", Particles.UniformBufferSize)
  const ParticleBuffer := Buffer("Particle buffer", Particles.ParticleBufferSize(Particles.ParticleCount))
  const CameraBuffer := Buffer("Camera uniforms", Particles.CameraBufferSize)

  /** A pass of a submitted command buffer, with what it reads. */
  datatype Pass =
    | ComputePass(workgroups: int, uniforms: seq<Level>)
    | RenderPass(vertices: nat, instances: nat, depth: Texture)

  /** The WebGPU calls the model tracks. */
  datatype GpuEvent =
    | RequestDevice
    | Configure
    | CreateTexture(texture: Texture)
    | DestroyTexture(texture: Texture)
    | CreateShaderModule(title: string, code: string)
    | CreateBuffer(buffer: Buffer)
    | WriteUniforms(values: seq<Level>)
    | WriteParticles(data: seq<real>)
    | WriteCamera(width: nat, height: nat)
    | Submit(passes: seq<Pass>)
    | DestroyDevice
    | RequestFrame

  /** How an event changes the number of live depth textures. */
  function TextureDelta(e: GpuEvent): int {
    match e
    case CreateTexture(_) => 1
    case DestroyTexture(_) => -1
    case _ => 0
  }

  /** Textures created minus textures destroyed. */
  function LiveTextures(events: seq<GpuEvent>): int {
    if |events| == 0 then 0
    else TextureDelta(events[0]) + LiveTextures(events[1..])
  }

  lemma {:induction false} LiveTexturesAppend(a: seq<GpuEvent>, b: seq<GpuEvent>)
    ensures LiveTextures(a + b) == LiveTextures(a) + LiveTextures(b)
    decreases |a|
  {
    if |a| == 0 {
      assert a + b == b;
    } else {
      assert (a + b)[1..] == a[1..] + b;
      LiveTexturesAppend(a[1..], b);
    }
  }

  /** A list of events that neither creates nor destroys a texture. */
  predicate TextureFree(es: seq<GpuEvent>) {
    forall k :: 0 <= k < |es| ==> TextureDelta(es[k]) == 0
  }

  lemma {:induction false} TextureFreeLive(es: seq<GpuEvent>)
    requires TextureFree(es)
    ensures LiveTextures(es) == 0
  {
    if |es| > 0 {
      TextureFreeLive(es[1..]);
    }
  }

  lemma {:induction false} AtMostOneLiveFree(live: int, es: seq<GpuEvent>)
    requires live <= 1 && TextureFree(es)
    ensures AtMostOneLive(live, es)
    decreases |es|
  {
    if |es| > 0 {
      AtMostOneLiveFree(live, es[1..]);
    }
  }

  lemma LiveSingle(e: GpuEvent)
    ensures LiveTextures([e]) == TextureDelta(e)
  {
    assert [e][..0] == [];
  }

  lemma AppendAssoc(a: seq<GpuEvent>, b: seq<GpuEvent>, c: seq<GpuEvent>)
    ensures a + b + c == a + (b + c)
  {
  }

  lemma AppendSingles(e: seq<GpuEvent>, a: GpuEvent, b: GpuEvent, c: GpuEvent, d: GpuEvent)
    ensures e + [a] + [b] + [c] + [d] == e + [a, b, c, d]
  {
  }

  function Live(t: Option<Texture>): int {
    if t.Some? then 1 else 0
  }

  /** `this.depthTexture?.destroy()`. */
  function Retire(previous: Option<Texture>): seq<GpuEvent> {
    if previous.Some? then [DestroyTexture(previous.value)] else []
  }

  /** The number of live textures never exceeds one along `e`, starting from `live`. */
  predicate AtMostOneLive(live: int, e: seq<GpuEvent>)
    decreases |e|
  {
    live <= 1 && (|e| == 0 || AtMostOneLive(live + TextureDelta(e[0]), e[1..]))
  }

  /**
   * What `resize` emits with a device and a canvas: the new depth texture
   * (replacing the old one), then, with a context, `configureContext`'s
   * second replacement and the configure call, then the camera upload.
   */
  function ResizeEvents(previous: Option<Texture>, t: Texture, configured: bool, camera: bool): seq<GpuEvent> {
    Retire(previous) + [CreateTexture(t)]
    + (if configured then [DestroyTexture(t), CreateTexture(t), Configure] else [])
    + (if camera then [WriteCamera(t.width, t.height)] else [])
  }

  /** A resize ends with exactly one live depth texture. */
  lemma ResizeKeepsOneTexture(previous: Option<Texture>, t: Texture, configured: bool, camera: bool)
    ensures Live(previous) + LiveTextures(ResizeEvents(previous, t, configured, camera)) == 1
  {
    var r := Retire(previous);
    var c := if configured then [DestroyTexture(t), CreateTexture(t), Configure] else [];
    var w := if camera then [WriteCamera(t.width, t.height)] else [];
    LiveTexturesAppend(r, [CreateTexture(t)]);
    LiveTexturesAppend(r + [CreateTexture(t)], c);
    LiveTexturesAppend(r + [CreateTexture(t)] + c, w);
    LiveSingle(CreateTexture(t));
    if configured {
      LiveSingle(DestroyTexture(t));
      LiveSingle(Configure);
      LiveTexturesAppend([DestroyTexture(t)], [CreateTexture(t)]);
      LiveTexturesAppend([DestroyTexture(t), CreateTexture(t)], [Configure]);
      assert [DestroyTexture(t)] + [CreateTexture(t)] + [Configure] == c;
    }
    TextureFreeLive(w);
    if previous.Some? {
      LiveSingle(DestroyTexture(previous.value));
    }
  }

  lemma AtMostOneLiveCons(live: int, x: GpuEvent, rest: seq<GpuEvent>)
    requires live <= 1 && AtMostOneLive(live + TextureDelta(x), rest)
    ensures AtMostOneLive(live, [x] + rest)
  {
    assert ([x] + rest)[1..] == rest;
  }

  /** During a resize two depth textures are never alive at once: the old one is destroyed before each creation. */
  lemma ResizeNeverTwoTextures(previous: Option<Texture>, t: Texture, configured: bool, camera: bool)
    ensures AtMostOneLive(Live(previous), ResizeEvents(previous, t, configured, camera))
  {
    var r := Retire(previous);
    var c := if configured then [DestroyTexture(t), CreateTexture(t), Configure] else [];
    var w := if camera then [WriteCamera(t.width, t.height)] else [];
    AtMostOneLiveFree(1, w);
    if configured {
      AtMostOneLiveCons(1, Configure, w);
      AtMostOneLiveCons(0, CreateTexture(t), [Configure] + w);
      AtMostOneLiveCons(1, DestroyTexture(t), [CreateTexture(t)] + ([Configure] + w));
      assert [DestroyTexture(t)] + ([CreateTexture(t)] + ([Configure] + w)) == c + w;
    } else {
      assert c + w == w;
    }
    AtMostOneLiveCons(0, CreateTexture(t), c + w);
    if previous.Some? {
      AtMostOneLiveCons(1, DestroyTexture(previous.value), [CreateTexture(t)] + (c + w));
    } else {
      assert r + ([CreateTexture(t)] + (c + w)) == [CreateTexture(t)] + (c + w);
    }
    AppendAssoc(r, [CreateTexture(t)], c);
    AppendAssoc(r + [CreateTexture(t)], c, w);
    AppendAssoc(r, [CreateTexture(t)], c + w);
  }

  /** The passes of one frame's command buffer: the compute dispatch, then the instanced draw. */
  function FramePasses(uniforms: seq<Level>, depth: Texture): seq<Pass> {
    [ ComputePass(Particles.WorkgroupCount(Particles.ParticleCount), uniforms),
      RenderPass(4, Particles.ParticleCount, depth) ]
  }

  /** Compute first, over enough 64-wide workgroups for every particle, then 4 vertices for each particle. */
  lemma FramePassesShape(uniforms: seq<Level>, depth: Texture)
    ensures var p := FramePasses(uniforms, depth);
      && |p| == 2 && p[0].ComputePass? && p[1].RenderPass?
      && p[0].workgroups * Particles.WorkgroupSize >= Particles.ParticleCount
      && (p[0].workgroups - 1) * Particles.WorkgroupSize < Particles.ParticleCount
      && p[0].uniforms == uniforms
      && p[1].vertices == 4 && p[1].instances == Particles.ParticleCount && p[1].depth == depth
  {
    Particles.WorkgroupsCover(Particles.ParticleCount);
  }

  /** Everything a frame emits: camera upload, one submission, the new uniforms, the next-frame request. */
  function FrameEvents(width: nat, height: nat, before: seq<Level>, depth: Texture, after: seq<Level>): seq<GpuEvent> {
    [WriteCamera(width, height), Submit(FramePasses(before, depth)), WriteUniforms(after), RequestFrame]
  }

  /** Exactly one submission per frame, and the uniforms it reads are written before the next one. */
  lemma OneSubmissionPerFrame(width: nat, height: nat, before: seq<Level>, depth: Texture, after: seq<Level>)
    ensures var e := FrameEvents(width, height, before, depth, after);
      && (forall k :: 0 <= k < |e| && e[k].Submit? ==> k == 1)
      && e[1].Submit? && e[1].passes[0].uniforms == before
      && (forall k :: 0 <= k < |e| && e[k].WriteUniforms? ==> k == 2 && e[k].values == after)
      && LiveTextures(e) == 0
  {
    TextureFreeLive(FrameEvents(width, height, before, depth, after));
  }

  /** The snapshot of the engine's resources, for stating what an operation leaves alone. */
  datatype ResourceState = ResourceState(
    canvas: Canvas?, context: Option<Handle>, device: Option<Handle>,
    computePipeline: Option<Handle>, renderPipeline: Option<Handle>,
    particleBuffer: Option<Buffer>, uniformBuffer: Option<Buffer>, cameraUniformBuffer: Option<Buffer>,
    computeBindGroup: Option<Handle>, renderBindGroup: Option<Handle>,
    depthTexture: Option<Texture>)

  // ---------------------------------------------------------- the engine

  class GPUEngine {
    /** The audio manager the frames read their levels from. */
    const audio: Audio.AudioManager
    /** `config.devicePixelRatio`, fixed when the engine is created. */
    const dpr: real

    var canvas: Canvas?
    var context: Option<Handle>
    var device: Option<Handle>
    var computePipeline: Option<Handle>
    var renderPipeline: Option<Handle>
    var particleBuffer: Option<Buffer>
    var uniformBuffer: Option<Buffer>
    var cameraUniformBuffer: Option<Buffer>
    var computeBindGroup: Option<Handle>
    var renderBindGroup: Option<Handle>
    var depthTexture: Option<Texture>
    var time: real
    var lastFrameTime: real
    var size: Size

    /** What the uniform buffer holds on the GPU. */
    ghost var uniformContents: seq<Level>
    /** What was written to the particle buffer when it was created; the compute shader updates it from there. */
    ghost var particleUpload: seq<real>
    /** The WebGPU calls made so far. */
    ghost var events: seq<GpuEvent>
    /** Depth textures created and not yet destroyed, as counted along `events`. */
    ghost var liveTextures: int

    ghost predicate Valid()
      reads this, audio
    {
      && audio.Valid()
      && dpr <= 2.0
      && (device.Some? || context.Some? || depthTexture.Some? ==> canvas != null)
      && (computePipeline.Some? ==>
            uniformBuffer == Some(UniformBuffer) && particleBuffer == Some(ParticleBuffer)
            && computeBindGroup.Some? && |uniformContents| == Particles.UniformFloats)
      && (renderPipeline.Some? ==>
            cameraUniformBuffer == Some(CameraBuffer) && particleBuffer.Some? && renderBindGroup.Some?)
      && liveTextures == Live(depthTexture)
    }

    /**
     * The counter agrees with the log. Only `Emit` writes either. The
     * constructor establishes it and every method that may write the log
     * ensures `old(Ledger()) ==> Ledger()`, so it holds of every engine the
     * constructor builds and these methods drive. It is kept out of `Valid()`
     * so that the frame conditions of the other methods stay small.
     */
    ghost predicate Ledger()
      reads this`events, this`liveTextures
    {
      LiveTextures(events) == liveTextures
    }

    /** The guard of `render`: device, context, both pipelines and the depth texture are all present. */
    predicate Ready()
      reads this, audio
      ensures Ready() && Valid() ==>
        && canvas != null && computeBindGroup.Some? && renderBindGroup.Some?
        && uniformBuffer == Some(UniformBuffer) && particleBuffer == Some(ParticleBuffer)
        && cameraUniformBuffer == Some(CameraBuffer)
    {
      device.Some? && context.Some? && computePipeline.Some? && renderPipeline.Some? && depthTexture.Some?
    }

    function Resources(): ResourceState
      reads this
    {
      ResourceState(canvas, context, device, computePipeline, renderPipeline,
        particleBuffer, uniformBuffer, cameraUniformBuffer, computeBindGroup, renderBindGroup, depthTexture)
    }

    /** The canvas drawing buffer and `config.size` follow the layout size times the pixel ratio. */
    predicate CanvasSized()
      reads this`size, this`canvas, canvas
      requires canvas != null
    {
      var s := DrawingSize(canvas.clientWidth, canvas.clientHeight, dpr);
      && canvas.width == ReflectedDimension(s.width, DefaultWidth)
      && canvas.height == ReflectedDimension(s.height, DefaultHeight)
      && size == s
    }

    /** The canvas's layout size is an input the engine never writes. */
    twostate predicate ClientUnchanged()
      reads this, canvas
      requires canvas != null && old(canvas) == canvas
    {
      canvas.clientWidth == old(canvas.clientWidth) && canvas.clientHeight == old(canvas.clientHeight)
    }

    /** The private constructor: nothing is allocated yet. */
    constructor (audio: Audio.AudioManager, windowDpr: Option<real>)
      requires audio.Valid()
      ensures Valid() && !Ready()
      ensures this.audio == audio && dpr == DevicePixelRatio(windowDpr)
      ensures Resources() == ResourceState(null, None, None, None, None, None, None, None, None, None, None)
      ensures time == 0.0 && lastFrameTime == 0.0 && size == Size(0.0, 0.0)
      ensures events == [] && uniformContents == [] && particleUpload == [] && Ledger()
    {
      this.audio := audio;
      dpr := DevicePixelRatio(windowDpr);
      canvas := null;
      context := None;
      device := None;
      computePipeline := None;
      renderPipeline := None;
      particleBuffer := None;
      uniformBuffer := None;
      cameraUniformBuffer := None;
      computeBindGroup := None;
      renderBindGroup := None;
      depthTexture := None;
      time := 0.0;
      lastFrameTime := 0.0;
      size := Size(0.0, 0.0);
      uniformContents := [];
      particleUpload := [];
      events := [];
      liveTextures := 0;
    }

    /** Records WebGPU calls. */
    ghost method Emit(es: seq<GpuEvent>)
      modifies this`events, this`liveTextures
      ensures events == old(events) + es
      ensures liveTextures == old(liveTextures) + LiveTextures(es)
      ensures TextureFree(es) ==> liveTextures == old(liveTextures)
      ensures old(Ledger()) ==> Ledger()
    {
      LiveTexturesAppend(events, es);
      if TextureFree(es) {
        TextureFreeLive(es);
      }
      events := events + es;
      liveTextures := liveTextures + LiveTextures(es);
    }

    /** `updateSize`: the drawing buffer becomes the layout size times the pixel ratio. */
    method UpdateSize()
      modifies this`size, canvas
      ensures canvas == null ==> size == old(size)
      ensures canvas != null ==> CanvasSized() && ClientUnchanged()
    {
      if canvas == null {
        return;
      }
      var newSize := DrawingSize(canvas.clientWidth, canvas.clientHeight, dpr);
      canvas.width := ReflectedDimension(newSize.width, DefaultWidth);
      canvas.height := ReflectedDimension(newSize.height, DefaultHeight);
      size := newSize;
    }

    /** `createDepthTexture`: the old depth texture is destroyed, then one of the canvas's size is created. */
    method CreateDepthTexture()
      requires Valid()
      modifies this`depthTexture, this`events, this`liveTextures
      ensures old(Ledger()) ==> Ledger()
      ensures Valid()
      ensures device.None? || canvas == null ==> depthTexture == old(depthTexture) && events == old(events)
      ensures device.Some? && canvas != null ==>
        && depthTexture == Some(Texture(canvas.width, canvas.height))
        && events == old(events) + Retire(old(depthTexture)) + [CreateTexture(depthTexture.value)]
    {
      if device.None? || canvas == null {
        return;
      }
      Emit(Retire(depthTexture));
      var t := Texture(canvas.width, canvas.height);
      Emit([CreateTexture(t)]);
      if depthTexture.Some? {
        LiveSingle(DestroyTexture(depthTexture.value));
      }
      LiveSingle(CreateTexture(t));
      depthTexture := Some(t);
    }

    /** `configureContext`: with a context and a device, resize, replace the depth texture, configure. */
    method ConfigureContext()
      requires Valid()
      modifies this`size, this`depthTexture, this`events, this`liveTextures, canvas
      ensures old(Ledger()) ==> Ledger()
      ensures Valid()
      ensures context.None? || device.None? ==>
        size == old(size) && depthTexture == old(depthTexture) && events == old(events)
        && (canvas != null ==> canvas.width == old(canvas.width) && canvas.height == old(canvas.height))
      ensures canvas != null ==> ClientUnchanged()
      ensures context.Some? && device.Some? ==>
        && CanvasSized()
        && depthTexture == Some(Texture(canvas.width, canvas.height))
        && events == old(events) + Retire(old(depthTexture)) + [CreateTexture(depthTexture.value), Configure]
    {
      if context.None? || device.None? {
        return;
      }
      UpdateSize();
      CreateDepthTexture();
      Emit([Configure]);
    }

    /** `updateCameraUniforms`: with a device, a camera buffer and a canvas, the matrices for its size are uploaded. */
    method UpdateCameraUniforms()
      requires Valid()
      modifies this`events, this`liveTextures
      ensures old(Ledger()) ==> Ledger()
      ensures Valid()
      ensures events == old(events)
        + (if device.Some? && cameraUniformBuffer.Some? && canvas != null
           then [WriteCamera(canvas.width, canvas.height)] else [])
    {
      if device.None? || cameraUniformBuffer.None? || canvas == null {
        return;
      }
      Emit([WriteCamera(canvas.width, canvas.height)]);
    }

    /**
     * `resize`: the canvas follows its layout size; with a device the depth
     * texture is replaced by one of exactly the canvas's size, every older one
     * having been destroyed first.
     */
    method Resize()
      requires Valid()
      modifies this`size, this`depthTexture, this`events, this`liveTextures, canvas
      ensures old(Ledger()) ==> Ledger()
      ensures Valid()
      ensures canvas != null ==> CanvasSized() && ClientUnchanged()
      ensures device.Some? ==> canvas != null && depthTexture == Some(Texture(canvas.width, canvas.height))
      ensures device.Some? ==>
        events == old(events) + ResizeEvents(old(depthTexture), depthTexture.value, context.Some?, cameraUniformBuffer.Some?)
      ensures device.None? ==> depthTexture == old(depthTexture) && events == old(events)
    {
      ghost var e0 := events;
      ghost var previous := depthTexture;
      UpdateSize();
      CreateDepthTexture();
      ghost var e1 := events;
      ConfigureContext();
      ghost var e2 := events;
      UpdateCameraUniforms();
      if device.Some? {
        var t := depthTexture.value;
        ghost var r := Retire(previous);
        ghost var c: seq<GpuEvent> := if context.Some? then [DestroyTexture(t), CreateTexture(t), Configure] else [];
        ghost var w: seq<GpuEvent> := if cameraUniformBuffer.Some? then [WriteCamera(t.width, t.height)] else [];
        if context.Some? {
          AppendAssoc(e1, [DestroyTexture(t)], [CreateTexture(t), Configure]);
          assert [DestroyTexture(t)] + [CreateTexture(t), Configure] == c;
        }
        assert e2 == e1 + c;
        AppendAssoc(e0, r, [CreateTexture(t)]);
        AppendAssoc(e0, r + [CreateTexture(t)], c);
        AppendAssoc(e0, r + [CreateTexture(t)] + c, w);
      }
    }

    /**
     * `render`: a no-op unless `Ready()`. Otherwise the camera is uploaded,
     * one command buffer is submitted whose compute pass reads the uniforms
     * written on the previous frame, the clock advances by the clamped step,
     * the new uniforms are composed from the audio levels and written, and
     * the next frame is requested.
     */
    method Render(now: real, spectrum: seq<Audio.byte>)
      requires Valid()
      requires audio.Active() ==> |spectrum| == audio.analyser.value.FrequencyBinCount()
      modifies this`time, this`lastFrameTime, this`uniformContents, this`events, this`liveTextures, audio.frequencyData, audio`lastReport
      ensures old(Ledger()) ==> Ledger()
      ensures Valid()
      ensures !old(Ready()) ==>
        && time == old(time) && lastFrameTime == old(lastFrameTime)
        && uniformContents == old(uniformContents) && events == old(events)
        && (audio.frequencyData != null ==> audio.frequencyData[..] == old(audio.frequencyData[..]))
      ensures old(Ready()) ==>
        var dt := Frame.DeltaTime(now, old(lastFrameTime));
        && time == old(time) + dt
        && lastFrameTime == now
        && audio.lastReport == old(audio.Report(spectrum))
        && uniformContents == Frame.ComposeUniforms(time, dt, audio.lastReport)
        && events == old(events)
          + FrameEvents(canvas.width, canvas.height, old(uniformContents), depthTexture.value, uniformContents)
    {
      if device.None? || context.None? || computePipeline.None? || renderPipeline.None? || depthTexture.None? {
        return;
      }
      ghost var before := uniformContents;
      ghost var e0 := events;
      UpdateCameraUniforms();
      Emit([Submit(FramePasses(uniformContents, depthTexture.value))]);
      var currentTime := now;
      var deltaTime := Frame.DeltaTime(currentTime, lastFrameTime);
      time := time + deltaTime;
      lastFrameTime := currentTime;
      WriteFrameUniforms(deltaTime, spectrum);
      Emit([RequestFrame]);
      AppendSingles(e0, WriteCamera(canvas.width, canvas.height), Submit(FramePasses(before, depthTexture.value)),
        WriteUniforms(uniformContents), RequestFrame);
    }

    /** The tail of `render`: read the audio levels, compose the payload and write it to the uniform buffer. */
    method WriteFrameUniforms(deltaTime: real, spectrum: seq<Audio.byte>)
      requires Valid() && computePipeline.Some?
      requires audio.Active() ==> |spectrum| == audio.analyser.value.FrequencyBinCount()
      modifies this`uniformContents, this`events, this`liveTextures, audio.frequencyData, audio`lastReport
      ensures old(Ledger()) ==> Ledger()
      ensures Valid()
      ensures audio.lastReport == old(audio.Report(spectrum))
      ensures uniformContents == Frame.ComposeUniforms(time, deltaTime, audio.lastReport)
      ensures events == old(events) + [WriteUniforms(uniformContents)]
      ensures liveTextures == old(liveTextures)
    {
      var audioData := audio.GetAudioData(spectrum);
      var uniformData := Frame.ComposeUniforms(time, deltaTime, audioData);
      uniformContents := uniformData;
      Emit([WriteUniforms(uniformData)]);
    }

    /**
     * `startRenderLoop`: the clock is reset to the reading `start`, then the
     * first frame is rendered, which reads the clock again (`now`).
     */
    method StartRenderLoop(start: real, now: real, spectrum: seq<Audio.byte>)
      requires Valid()
      requires audio.Active() ==> |spectrum| == audio.analyser.value.FrequencyBinCount()
      modifies this`time, this`lastFrameTime, this`uniformContents, this`events, this`liveTextures, audio.frequencyData, audio`lastReport
      ensures old(Ledger()) ==> Ledger()
      ensures Valid()
      ensures !old(Ready()) ==> lastFrameTime == start && time == old(time) && events == old(events)
      ensures old(Ready()) ==>
        var dt := Frame.DeltaTime(now, start);
        && time == old(time) + dt
        && lastFrameTime == now
        && audio.lastReport == old(audio.Report(spectrum))
        && uniformContents == Frame.ComposeUniforms(time, dt, audio.lastReport)
        && events == old(events)
          + FrameEvents(canvas.width, canvas.height, old(uniformContents), depthTexture.value, uniformContents)
    {
      lastFrameTime := start;
      Render(now, spectrum);
    }

    /** `destroy`: the audio manager is torn down, the device destroyed, and context and device dropped. */
    method Destroy()
      requires Valid()
      modifies this`context, this`device, this`events, this`liveTextures, audio
      ensures old(Ledger()) ==> Ledger()
      ensures Valid() && !Ready()
      ensures device.None? && context.None?
      ensures events == old(events) + (if old(device).Some? then [DestroyDevice] else [])
      ensures !audio.Active() && audio.audioContext == old(audio.audioContext)
      ensures audio.analyser.None? && audio.mediaStream.None? && audio.dataArray == null && audio.frequencyData == null
      ensures audio.effects == old(audio.effects)
        + (if old(audio.mediaStream).Some? then [Audio.StopTracks] else [])
        + (if old(audio.audioContext).Some? then [Audio.CloseContext] else [])
    {
      audio.Destroy();
      if device.Some? {
        Emit([DestroyDevice]);
      }
      context := None;
      device := None;
    }

    /** The `device.lost` handler: only the device reference is dropped. */
    method OnDeviceLost()
      requires Valid()
      modifies this`device
      ensures Valid() && !Ready()
      ensures device.None?
    {
      device := None;
    }

    /** `loadShaderModule`: fetch the file, resolve its includes, create the module. */
    method LoadShaderModule(name: string, title: string, fetch: string -> string)
      modifies this`events, this`liveTextures
      ensures events == old(events)
        + [CreateShaderModule(title, ShaderInclude.ShaderSource(name, fetch))]
      ensures liveTextures == old(liveTextures)
      ensures old(Ledger()) ==> Ledger()
    {
      var shaderCode := fetch(ShaderInclude.ShaderUrl(name));
      shaderCode := ShaderInclude.ResolveIncludes(shaderCode, fetch);
      Emit([CreateShaderModule(title, shaderCode)]);
    }

    /**
     * `createComputePipeline`: the simulation pipeline, the uniform buffer
     * with its initial payload, and the particle buffer with the initial
     * particles.
     */
    method CreateComputePipeline(fetch: string -> string, random: seq<real>)
      requires Valid()
      requires 6 * Particles.ParticleCount <= |random|
      modifies this`computePipeline, this`uniformBuffer, this`particleBuffer, this`computeBindGroup,
        this`uniformContents, this`particleUpload, this`events, this`liveTextures
      ensures old(Ledger()) ==> Ledger()
      ensures Valid()
      ensures canvas == old(canvas) && (canvas != null ==> unchanged(canvas)) && size == old(size)
      ensures device == old(device) && context == old(context) && depthTexture == old(depthTexture)
      ensures computePipeline.Some? && uniformBuffer == Some(UniformBuffer) && particleBuffer == Some(ParticleBuffer)
      ensures uniformContents == Frame.InitialUniforms
      ensures particleUpload == Particles.InitialData(random, Particles.ParticleCount)
      ensures events == old(events) + [
        CreateShaderModule("Particle simulation compute shader",
          ShaderInclude.ShaderSource("simulation.wgsl", fetch)),
        CreateBuffer(UniformBuffer), WriteUniforms(Frame.InitialUniforms),
        CreateBuffer(ParticleBuffer), WriteParticles(Particles.InitialData(random, Particles.ParticleCount))]
    {
      LoadShaderModule("simulation.wgsl", "Particle simulation compute shader", fetch);
      computePipeline := Some(Handle("Particle simulation pipeline"));
      CreateSimulationBuffers(random);
      computeBindGroup := Some(Handle("Compute bind group"));
    }

    /**
     * The buffers of `createComputePipeline`: the uniform buffer written with
     * the initial payload, then the particle buffer written with the particles
     * the initialisation loop fills in.
     */
    method CreateSimulationBuffers(random: seq<real>)
      requires 6 * Particles.ParticleCount <= |random|
      modifies this`uniformBuffer, this`particleBuffer, this`uniformContents, this`particleUpload, this`events, this`liveTextures
      ensures uniformBuffer == Some(UniformBuffer) && particleBuffer == Some(ParticleBuffer)
      ensures uniformContents == Frame.InitialUniforms
      ensures particleUpload == Particles.InitialData(random, Particles.ParticleCount)
      ensures events == old(events) + [
        CreateBuffer(UniformBuffer), WriteUniforms(Frame.InitialUniforms),
        CreateBuffer(ParticleBuffer), WriteParticles(Particles.InitialData(random, Particles.ParticleCount))]
      ensures liveTextures == old(liveTextures)
      ensures old(Ledger()) ==> Ledger()
    {
      uniformBuffer := Some(UniformBuffer);
      uniformContents := Frame.InitialUniforms;
      Emit([CreateBuffer(UniformBuffer), WriteUniforms(Frame.InitialUniforms)]);
      particleBuffer := Some(ParticleBuffer);
      var initialParticleData := Particles.InitialParticleData(Particles.ParticleCount, random);
      particleUpload := initialParticleData[..];
      Emit([CreateBuffer(ParticleBuffer), WriteParticles(particleUpload)]);
    }

    /** `createRenderPipeline`: the render pipeline, the camera buffer and the render bind group. */
    method CreateRenderPipeline(fetch: string -> string)
      requires Valid() && particleBuffer.Some?
      modifies this`renderPipeline, this`cameraUniformBuffer, this`renderBindGroup, this`events, this`liveTextures
      ensures old(Ledger()) ==> Ledger()
      ensures Valid()
      ensures canvas == old(canvas) && (canvas != null ==> unchanged(canvas)) && size == old(size)
      ensures device == old(device) && context == old(context) && depthTexture == old(depthTexture)
      ensures renderPipeline.Some? && cameraUniformBuffer == Some(CameraBuffer)
      ensures events == old(events) + [
        CreateShaderModule("Particle render shader",
          ShaderInclude.ShaderSource("render.wgsl", fetch)),
        CreateBuffer(CameraBuffer)]
    {
      LoadShaderModule("render.wgsl", "Particle render shader", fetch);
      renderPipeline := Some(Handle("Particle render pipeline"));
      cameraUniformBuffer := Some(CameraBuffer);
      Emit([CreateBuffer(CameraBuffer)]);
      renderBindGroup := Some(Handle("Render bind group"));
    }

    /**
     * The middle of `initialize`, once device and context exist: configure
     * the context, then build the compute and the render pipeline.
     */
    method BuildPipelines(fetch: string -> string, random: seq<real>)
      requires Valid() && device.Some? && context.Some? && canvas != null
      requires 6 * Particles.ParticleCount <= |random|
      modifies this`size, this`depthTexture, canvas,
        this`computePipeline, this`uniformBuffer, this`particleBuffer, this`computeBindGroup, this`uniformContents,
        this`particleUpload, this`renderPipeline, this`cameraUniformBuffer, this`renderBindGroup, this`events, this`liveTextures
      ensures old(Ledger()) ==> Ledger()
      ensures Valid() && Ready() && CanvasSized()
      ensures depthTexture == Some(Texture(canvas.width, canvas.height))
      ensures particleUpload == Particles.InitialData(random, Particles.ParticleCount)
    {
      ConfigureContext();
      CreateComputePipeline(fetch, random);
      CreateRenderPipeline(fetch);
    }

    /** The end of a successful `initialize`: build the pipelines, then start the render loop. */
    method Start(fetch: string -> string, random: seq<real>, start: real, now: real, spectrum: seq<Audio.byte>)
      requires Valid() && device.Some? && context.Some? && canvas != null
      requires 6 * Particles.ParticleCount <= |random|
      requires audio.Active() ==> |spectrum| == audio.analyser.value.FrequencyBinCount()
      modifies this`size, this`depthTexture, canvas,
        this`computePipeline, this`uniformBuffer, this`particleBuffer, this`computeBindGroup, this`uniformContents,
        this`particleUpload, this`renderPipeline, this`cameraUniformBuffer, this`renderBindGroup, this`events, this`liveTextures,
        this`time, this`lastFrameTime, audio.frequencyData, audio`lastReport
      ensures old(Ledger()) ==> Ledger()
      ensures Valid() && Ready() && CanvasSized()
      ensures depthTexture == Some(Texture(canvas.width, canvas.height))
      ensures particleUpload == Particles.InitialData(random, Particles.ParticleCount)
      ensures time == old(time) + Frame.DeltaTime(now, start) && lastFrameTime == now
      ensures audio.lastReport == old(audio.Report(spectrum))
      ensures uniformContents == Frame.ComposeUniforms(time, Frame.DeltaTime(now, start), audio.lastReport)
    {
      BuildPipelines(fetch, random);
      StartRenderLoop(start, now, spectrum);
    }

    /**
     * `initialize`: take the canvas, get a device and a context, configure
     * the context, build both pipelines, then start the render loop. A
     * missing adapter or context throws, leaving whatever was set before it.
     */
    method Initialize(c: Canvas, adapterFound: bool, contextAvailable: bool, fetch: string -> string,
                      random: seq<real>, start: real, now: real, spectrum: seq<Audio.byte>)
      returns (r: Result<(), string>)
      requires Valid()
      requires 6 * Particles.ParticleCount <= |random|
      requires audio.Active() ==> |spectrum| == audio.analyser.value.FrequencyBinCount()
      modifies this, c, audio.frequencyData, audio`lastReport
      ensures old(Ledger()) ==> Ledger()
      ensures Valid()
      ensures canvas == c
      ensures r.Failure? <==> !adapterFound || !contextAvailable
      ensures !adapterFound ==>
        r == Failure("No appropriate GPUAdapter found") && device == old(device) && events == old(events)
      ensures adapterFound && !contextAvailable ==>
        r == Failure("Failed to get WebGPU context") && device.Some? && context.None?
      ensures r.Success? ==>
        && Ready() && CanvasSized()
        && depthTexture == Some(Texture(c.width, c.height))
        && particleUpload == Particles.InitialData(random, Particles.ParticleCount)
        && time == old(time) + Frame.DeltaTime(now, start) && lastFrameTime == now
        && audio.lastReport == old(audio.Report(spectrum))
        && uniformContents == Frame.ComposeUniforms(time, Frame.DeltaTime(now, start), audio.lastReport)
    {
      r := AcquireDevice(c, adapterFound, contextAvailable);
      if r.Success? {
        Start(fetch, random, start, now, spectrum);
      }
    }

    /**
     * The start of `initGPU`: take the canvas, get an adapter and a device
     * (`initializeDevice`), then the canvas's WebGPU context. A missing
     * adapter or context throws, leaving whatever was set before it.
     */
    method AcquireDevice(c: Canvas, adapterFound: bool, contextAvailable: bool) returns (r: Result<(), string>)
      requires Valid()
      modifies this`canvas, this`device, this`context, this`events, this`liveTextures
      ensures old(Ledger()) ==> Ledger()
      ensures Valid()
      ensures canvas == c
      ensures r.Failure? <==> !adapterFound || !contextAvailable
      ensures !adapterFound ==>
        r == Failure("No appropriate GPUAdapter found") && device == old(device) && context == old(context)
        && events == old(events)
      ensures adapterFound ==> device.Some? && events == old(events) + [RequestDevice]
      ensures adapterFound && !contextAvailable ==> r == Failure("Failed to get WebGPU context") && context.None?
      ensures r.Success? ==> context.Some?
    {
      canvas := c;
      if !adapterFound {
        return Failure("No appropriate GPUAdapter found");
      }
      device := Some(Handle("device"));
      Emit([RequestDevice]);
      if !contextAvailable {
        context := None;
        return Failure("Failed to get WebGPU context");
      }
      context := Some(Handle("webgpu context"));
      r := Success(());
    }
  }

  /** `GPUEngine.instance` and the static `getInstance`. */
  class EngineRegistry {
    var instance: GPUEngine?

    constructor ()
      ensures instance == null
    {
      instance := null;
    }

    /** The existing engine if there is one, otherwise a new one that becomes the instance. */
    method GetInstance(audio: Audio.AudioManager, windowDpr: Option<real>) returns (e: GPUEngine)
      requires audio.Valid()
      modifies this
      ensures instance == e
      ensures old(instance) != null ==> e == old(instance)
      ensures old(instance) == null ==> fresh(e) && e.Valid() && !e.Ready() && e.audio == audio
      ensures old(instance) == null ==> e.events == [] && e.Ledger()
    {
      if instance == null {
        instance := new GPUEngine(audio, windowDpr);
      }
      e := instance;
    }
  }
}
