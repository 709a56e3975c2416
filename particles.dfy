/**
 * The particle system's sizes and its initial contents. Each particle is
 * three `vec4`s of 32-bit floats (position, velocity, colour): 12 floats,
 * 48 bytes. The random draws are an input sequence, consumed six per
 * particle in the order x, y, z, red, green, blue.
 */
module Particles {
  /** The engine's particle count and compute workgroup size. */
  const ParticleCount: nat := 100000
  const WorkgroupSize: nat := 64

  const FloatsPerParticle: nat := 12
  const BytesPerFloat: nat := 4

  /** The uniform record: 8 floats of 4 bytes. */
  const UniformFloats: nat := 8
  const UniformBufferSize: nat := 8 * 4

  /** The camera record: a view and a projection matrix, 16 floats each. */
  const CameraFloats: nat := 2 * 16
  const CameraBufferSize: nat := 2 * 16 * 4

  /** The particle buffer's size and both layouts' binding size: `n * 3 * 4 * 4` bytes. */
  function ParticleBufferSize(n: nat): nat {
    n * 3 * 4 * 4
  }

  /** The byte size of the buffer, of the bindings, and of the initial data all agree. */
  lemma SizesAgree(n: nat)
    ensures ParticleBufferSize(n) == 48 * n
    ensures ParticleBufferSize(n) == BytesPerFloat * (FloatsPerParticle * n)
    ensures UniformBufferSize == BytesPerFloat * UniformFloats
    ensures CameraBufferSize == BytesPerFloat * CameraFloats
  {
  }

  /** `Math.ceil(x)`. */
  function Ceil(x: real): (c: int)
    ensures x <= c as real < x + 1.0
  {
    -((-x).Floor)
  }

  /** `Math.ceil(n / 64)`: the workgroups dispatched for `n` particles. */
  function WorkgroupCount(n: nat): int {
    Ceil(n as real / WorkgroupSize as real)
  }

  /** The workgroups cover every particle, and one fewer would not. */
  lemma WorkgroupsCover(n: nat)
    ensures var c := WorkgroupCount(n);
      0 <= c && c * WorkgroupSize >= n && (c - 1) * WorkgroupSize < n
  {
    var q := n as real / 64.0;
    assert q * 64.0 == n as real;
    var c := WorkgroupCount(n);
    assert q <= c as real < q + 1.0;
    assert (c * 64) as real == c as real * 64.0;
  }

  /** 100000 particles in groups of 64 take 1563 workgroups. */
  lemma EngineWorkgroups()
    ensures WorkgroupCount(ParticleCount) == 1563
  {
    assert ParticleCount as real / WorkgroupSize as real == 1562.5;
  }

  /** One particle's twelve floats from its six draws. */
  function Record(draw: seq<real>): (r: seq<real>)
    requires |draw| == 6
    ensures |r| == FloatsPerParticle
  {
    [ (draw[0] - 0.5) * 2.0, (draw[1] - 0.5) * 2.0, (draw[2] - 0.5) * 2.0, 1.0,
      0.0, 0.0, 0.0, 0.0,
      draw[3], draw[4], draw[5], 1.0 ]
  }

  /** The draws of particle `i`. */
  function Draws(random: seq<real>, i: nat): seq<real>
    requires 6 * i + 6 <= |random|
  {
    random[6 * i..6 * i + 6]
  }

  /** The initial particle data for the first `n` particles, record after record. */
  function InitialData(random: seq<real>, n: nat): (r: seq<real>)
    requires 6 * n <= |random|
    ensures |r| == FloatsPerParticle * n
  {
    if n == 0 then [] else InitialData(random, n - 1) + Record(Draws(random, n - 1))
  }

  /** Particle `i` occupies floats `[12 i, 12 i + 12)`. */
  lemma {:induction false} ParticleAt(random: seq<real>, n: nat, i: nat)
    requires 6 * n <= |random| && i < n
    ensures InitialData(random, n)[12 * i..12 * i + 12] == Record(Draws(random, i))
  {
    var d := InitialData(random, n);
    var prefix := InitialData(random, n - 1);
    assert d == prefix + Record(Draws(random, n - 1));
    if i < n - 1 {
      ParticleAt(random, n - 1, i);
      assert d[12 * i..12 * i + 12] == prefix[12 * i..12 * i + 12];
    } else {
      assert d[12 * i..12 * i + 12] == d[|prefix|..];
    }
  }

  /** A draw lies in [0, 1), as `Math.random` promises. */
  predicate UnitDraws(random: seq<real>) {
    forall k :: 0 <= k < |random| ==> 0.0 <= random[k] < 1.0
  }

  /**
   * With draws in [0, 1): position components in [-1, 1) and `w = 1`, a zero
   * velocity, colour components in [0, 1) and alpha 1.
   */
  lemma InitialParticleBounds(random: seq<real>, n: nat, i: nat)
    requires 6 * n <= |random| && i < n && UnitDraws(random)
    ensures var d := InitialData(random, n);
      && (forall j :: 12 * i <= j < 12 * i + 3 ==> -1.0 <= d[j] < 1.0)
      && d[12 * i + 3] == 1.0
      && (forall j :: 12 * i + 4 <= j < 12 * i + 8 ==> d[j] == 0.0)
      && (forall j :: 12 * i + 8 <= j < 12 * i + 11 ==> 0.0 <= d[j] < 1.0)
      && d[12 * i + 11] == 1.0
  {
    ParticleAt(random, n, i);
    var d := InitialData(random, n);
    var rec := Record(Draws(random, i));
    assert forall j :: 12 * i <= j < 12 * i + 12 ==> d[j] == rec[j - 12 * i];
  }

  /** One pass of the loop body: particle `i`'s twelve floats written from `baseIndex` on. */
  method WriteParticle(data: array<real>, baseIndex: nat, draw: seq<real>)
    requires |draw| == 6 && baseIndex + 12 <= data.Length
    modifies data
    ensures forall j :: 0 <= j < baseIndex ==> data[j] == old(data[j])
    ensures data[baseIndex..baseIndex + 12] == Record(draw)
  {
    data[baseIndex] := (draw[0] - 0.5) * 2.0;
    data[baseIndex + 1] := (draw[1] - 0.5) * 2.0;
    data[baseIndex + 2] := (draw[2] - 0.5) * 2.0;
    data[baseIndex + 3] := 1.0;
    data[baseIndex + 4] := 0.0;
    data[baseIndex + 5] := 0.0;
    data[baseIndex + 6] := 0.0;
    data[baseIndex + 7] := 0.0;
    data[baseIndex + 8] := draw[3];
    data[baseIndex + 9] := draw[4];
    data[baseIndex + 10] := draw[5];
    data[baseIndex + 11] := 1.0;
  }

  /** The particle initialisation loop, filling the array particle by particle. */
  method InitialParticleData(n: nat, random: seq<real>) returns (data: array<real>)
    requires 6 * n <= |random|
    ensures data.Length == FloatsPerParticle * n
    ensures data[..] == InitialData(random, n)
  {
    data := new real[n * 12](_ => 0.0);
    var i := 0;
    while i < n
      invariant 0 <= i <= n
      invariant data.Length == 12 * n
      invariant forall j :: 0 <= j < 12 * i ==> data[j] == InitialData(random, i)[j]
    {
      var baseIndex := i * 12;
      WriteParticle(data, baseIndex, Draws(random, i));
      assert InitialData(random, i + 1) == InitialData(random, i) + Record(Draws(random, i));
      i := i + 1;
    }
  }
}
