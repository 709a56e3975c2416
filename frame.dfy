/**
 * What one frame of the engine computes: the clamped time step and the
 * 8-float uniform payload `[time, speed, curlFreq, deltaTime, bass, mid,
 * high, average]` built from the audio levels.
 */
module Frame {
  import opened Common
  import Audio
  import Particles

  /** The largest time step a frame may take, in seconds. */
  const MaxDeltaTime: real := 0.1

  /** `Math.min((now - last) / 1000, 0.1)`, with clock readings in milliseconds. */
  function DeltaTime(now: real, last: real): (dt: real)
    ensures dt <= MaxDeltaTime
    ensures now - last <= 100.0 ==> dt == (now - last) / 1000.0
    ensures now - last >= 100.0 ==> dt == MaxDeltaTime
  {
    var raw := (now - last) / 1000.0;
    if raw <= MaxDeltaTime then raw else MaxDeltaTime
  }

  /**
   * The uniform payload written after each frame. Each audio-driven slot is
   * `a + b * level`; a `NaN` level stays `NaN`.
   */
  function ComposeUniforms(time: real, dt: real, a: Audio.AudioData): (u: seq<Level>)
    ensures |u| == Particles.UniformFloats
  {
    [ Num(time),
      (match a.average case Num(x) => Num(1.0 + 2.0 * x) case NaN => NaN),
      (match a.bass case Num(x) => Num(0.5 + 0.5 * x) case NaN => NaN),
      Num(dt),
      (match a.bass case Num(x) => Num(2.0 * x) case NaN => NaN),
      (match a.mid case Num(x) => Num(1.5 * x) case NaN => NaN),
      a.high,
      (match a.average case Num(x) => Num(1.5 * x) case NaN => NaN) ]
  }

  /** The payload written when the compute pipeline is created. */
  const InitialUniforms: seq<Level> :=
    [Num(0.0), Num(1.0), Num(0.5), Num(0.016), Num(0.0), Num(0.0), Num(0.0), Num(0.0)]

  /** Silence gives speed 1, curl frequency 0.5 and zero audio fields. */
  lemma SilentPayload(time: real, dt: real)
    ensures ComposeUniforms(time, dt, Audio.Silence)
      == [Num(time), Num(1.0), Num(0.5), Num(dt), Num(0.0), Num(0.0), Num(0.0), Num(0.0)]
  {
  }

  /** The initial payload is the one a silent frame at time 0 with a 1/60 s step would compose. */
  lemma InitialIsSilentFrame()
    ensures InitialUniforms == ComposeUniforms(0.0, 0.016, Audio.Silence)
    ensures 4 * |InitialUniforms| == Particles.UniformBufferSize
  {
    SilentPayload(0.0, 0.016);
  }

  /** A full average gives speed 3 and amplified average 1.5, whatever the bands; a full bass gives curl frequency 1. */
  lemma LoudAverageSpeed(time: real, dt: real, a: Audio.AudioData)
    requires a.average == Num(1.0)
    ensures var u := ComposeUniforms(time, dt, a);
      u[1] == Num(3.0) && u[7] == Num(1.5) && (a.bass == Num(1.0) ==> u[2] == Num(1.0))
  {
  }

  /**
   * Speed and amplified average follow the average alone, curl frequency and
   * amplified bass the bass alone, and the remaining fields their own level.
   */
  lemma SlotsFollowTheirLevel(time: real, dt: real, a: Audio.AudioData, b: Audio.AudioData)
    ensures var u, w := ComposeUniforms(time, dt, a), ComposeUniforms(time, dt, b);
      && (a.average == b.average ==> u[1] == w[1] && u[7] == w[7])
      && (a.bass == b.bass ==> u[2] == w[2] && u[4] == w[4])
      && (a.mid == b.mid ==> u[5] == w[5])
      && (a.high == b.high ==> u[6] == w[6])
      && u[0] == w[0] && u[3] == w[3]
  {
  }

  /** Levels in [0, 1] keep speed in [1, 3], curl frequency in [0.5, 1] and the amplified fields in their ranges. */
  lemma PayloadBounds(time: real, dt: real, a: Audio.AudioData)
    requires a.bass.Num? && 0.0 <= a.bass.v <= 1.0
    requires a.mid.Num? && 0.0 <= a.mid.v <= 1.0
    requires a.high.Num? && 0.0 <= a.high.v <= 1.0
    requires a.average.Num? && 0.0 <= a.average.v <= 1.0
    ensures var u := ComposeUniforms(time, dt, a);
      && (forall k :: 0 <= k < |u| ==> u[k].Num?)
      && u[0] == Num(time) && u[3] == Num(dt)
      && 1.0 <= u[1].v <= 3.0 && 0.5 <= u[2].v <= 1.0
      && 0.0 <= u[4].v <= 2.0 && 0.0 <= u[5].v <= 1.5
      && 0.0 <= u[6].v <= 1.0 && 0.0 <= u[7].v <= 1.5
  {
  }

  /**
   * When the high band reads past the spectrum (a low sample rate), the
   * average is `NaN`, and so are the speed and the amplified average sent to
   * the shader.
   */
  lemma OverrunPoisonsSpeed(time: real, dt: real, data: seq<Audio.byte>, sampleRate: real)
    requires sampleRate > 0.0
    requires Audio.BinForFrequency(Audio.High.high, sampleRate, |data|) >= |data|
    ensures var u := ComposeUniforms(time, dt, Audio.Levels(data, sampleRate, |data|));
      u[1] == NaN && u[6] == NaN && u[7] == NaN
  {
    Audio.HighBandOverrun(data, sampleRate);
  }
}
