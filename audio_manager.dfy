/**
 * The audio manager: it holds the Web Audio objects (context, analyser,
 * microphone stream, two byte arrays) as nullable fields, and reduces the
 * analyser's byte spectrum to four levels (bass, mid, high and their average).
 *
 * The analyser's output spectrum, the context's sample rate and whether the
 * microphone is granted are inputs; stopping tracks and closing the context
 * are recorded in a ghost effect log.
 */
module Audio {
  import opened Common
  import ScalarUtils

  newtype byte = x: int | 0 <= x < 256

  /** The analyser's FFT size. */
  const FftSize: nat := 2048
  const SmoothingTimeConstant: real := 0.8

  /** Section 1.8 of the W3C Web Audio API: an analyser reports half its FFT size in frequency bins. */
  function BinCountFor(fftSize: nat): nat {
    fftSize / 2
  }

  /** A frequency band in hertz. */
  datatype Band = Band(low: real, high: real)

  const Bass := Band(20.0, 140.0)
  const Mid := Band(140.0, 2000.0)
  const High := Band(2000.0, 20000.0)

  /** `Math.round` on a finite number: the nearest integer, halves upwards. */
  function Round(x: real): (n: int)
    ensures n as real - 0.5 <= x < n as real + 0.5
  {
    (x + 0.5).Floor
  }

  /** `getBinForFrequency`: `Math.round(freq / nyquist * frequencyBinCount)`. */
  function BinForFrequency(freq: real, sampleRate: real, binCount: nat): (bin: int)
    requires sampleRate > 0.0
    ensures 0.0 <= freq ==> 0 <= bin
    ensures freq <= sampleRate / 2.0 ==> bin <= binCount
    ensures freq == sampleRate / 2.0 ==> bin == binCount
  {
    var q := freq / (sampleRate / 2.0);
    ScalarUtils.DivBounds(freq, sampleRate / 2.0, q);
    ScaledBounds(q, binCount as real);
    var bin := Round(q * binCount as real);
    assert bin as real < binCount as real + 1.0 ==> bin <= binCount;
    bin
  }

  /** Scaling a non-negative `n` by `q`: non-negative for `q >= 0`, at most `n` for `q <= 1`. */
  lemma ScaledBounds(q: real, n: real)
    requires 0.0 <= n
    ensures 0.0 <= q ==> 0.0 <= q * n
    ensures q <= 1.0 ==> q * n <= n
  {
    if 0.0 <= q {
      ScalarUtils.MulNonneg(q, n);
    }
    if q <= 1.0 {
      ScalarUtils.MulNonneg(1.0 - q, n);
    }
  }

  /** `frequencyData[i]` as a number; an index outside the array reads `undefined`, which is `NaN` in a sum. */
  function ReadBin(data: seq<byte>, i: int): Level {
    if 0 <= i < |data| then Num(data[i] as real) else NaN
  }

  /** The loop's `sum` after adding bins `lo .. hi - 1`, starting from 0. */
  function SpanSum(data: seq<byte>, lo: int, hi: int): Level
    decreases hi - lo
  {
    if hi <= lo then Num(0.0) else Add(SpanSum(data, lo, hi - 1), ReadBin(data, hi - 1))
  }

  /**
   * `getAverageForRange` on bins already computed:
   * `sum / (highBin - lowBin + 1) / 255`, the sum taken over `lowBin ..= highBin`.
   * An empty range with count 0 divides `0 / 0`.
   */
  function RangeAverage(data: seq<byte>, lowBin: int, highBin: int): (r: Level)
    ensures highBin + 1 == lowBin ==> r == NaN
    ensures highBin + 1 < lowBin ==> r == Num(0.0)
  {
    var count := highBin - lowBin + 1;
    match SpanSum(data, lowBin, highBin + 1)
    case NaN => NaN
    case Num(s) => if count == 0 then NaN else Num(s / count as real / 255.0)
  }

  /** `(bass + mid + high) / 3`. */
  function Mean3(a: Level, b: Level, c: Level): Level {
    match Add(Add(a, b), c)
    case NaN => NaN
    case Num(s) => Num(s / 3.0)
  }

  /** The levels `getAudioData` returns. */
  datatype AudioData = AudioData(bass: Level, mid: Level, high: Level, average: Level)

  /** What `getAudioData` returns before the analyser exists and after `destroy`. */
  const Silence := AudioData(Num(0.0), Num(0.0), Num(0.0), Num(0.0))

  /** The average level of one band of the spectrum `data`. */
  function BandLevel(data: seq<byte>, band: Band, sampleRate: real, binCount: nat): Level
    requires sampleRate > 0.0
  {
    RangeAverage(data, BinForFrequency(band.low, sampleRate, binCount), BinForFrequency(band.high, sampleRate, binCount))
  }

  /** The four levels of the spectrum `data`. */
  function Levels(data: seq<byte>, sampleRate: real, binCount: nat): (d: AudioData)
    requires sampleRate > 0.0
    ensures d.average.Num? <==> d.bass.Num? && d.mid.Num? && d.high.Num?
  {
    var bass := BandLevel(data, Bass, sampleRate, binCount);
    var mid := BandLevel(data, Mid, sampleRate, binCount);
    var high := BandLevel(data, High, sampleRate, binCount);
    AudioData(bass, mid, high, Mean3(bass, mid, high))
  }

  // ---------------------------------------------------------------- lemmas

  lemma RoundMonotone(x: real, y: real)
    requires x <= y
    ensures Round(x) <= Round(y)
  {
  }

  /** The bin of a frequency grows with the frequency. */
  lemma BinMonotone(f1: real, f2: real, sampleRate: real, binCount: nat)
    requires sampleRate > 0.0 && f1 <= f2
    ensures BinForFrequency(f1, sampleRate, binCount) <= BinForFrequency(f2, sampleRate, binCount)
  {
    var nyquist := sampleRate / 2.0;
    var q1, q2 := f1 / nyquist, f2 / nyquist;
    assert q1 <= q2 by {
      ScalarUtils.DivBounds(f2 - f1, nyquist, (f2 - f1) / nyquist);
      assert q2 - q1 == (f2 - f1) / nyquist;
    }
    var n := binCount as real;
    ScalarUtils.MulNonneg(q2 - q1, n);
    assert q2 * n - q1 * n == (q2 - q1) * n;
    RoundMonotone(q1 * n, q2 * n);
  }

  /** Every band's low bin is at most its high bin, and the shared boundaries fall in both neighbours. */
  lemma BandBins(sampleRate: real, binCount: nat)
    requires sampleRate > 0.0
    ensures BinForFrequency(Bass.low, sampleRate, binCount) <= BinForFrequency(Bass.high, sampleRate, binCount)
    ensures BinForFrequency(Mid.low, sampleRate, binCount) <= BinForFrequency(Mid.high, sampleRate, binCount)
    ensures BinForFrequency(High.low, sampleRate, binCount) <= BinForFrequency(High.high, sampleRate, binCount)
    ensures BinForFrequency(Bass.high, sampleRate, binCount) == BinForFrequency(Mid.low, sampleRate, binCount)
    ensures BinForFrequency(Mid.high, sampleRate, binCount) == BinForFrequency(High.low, sampleRate, binCount)
  {
    BinMonotone(Bass.low, Bass.high, sampleRate, binCount);
    BinMonotone(Mid.low, Mid.high, sampleRate, binCount);
    BinMonotone(High.low, High.high, sampleRate, binCount);
  }

  /** A sum of in-range bytes is a number between 0 and 255 per bin. */
  lemma {:induction false} SpanSumBounds(data: seq<byte>, lo: int, hi: int)
    requires 0 <= lo <= hi <= |data|
    ensures SpanSum(data, lo, hi).Num?
    ensures 0.0 <= SpanSum(data, lo, hi).v <= 255.0 * (hi - lo) as real
    decreases hi - lo
  {
    if lo < hi {
      SpanSumBounds(data, lo, hi - 1);
    }
  }

  /** A read past either end of the spectrum makes the sum `NaN`. */
  lemma {:induction false} SpanSumOutOfRange(data: seq<byte>, lo: int, hi: int, i: int)
    requires lo <= i < hi && !(0 <= i < |data|)
    ensures SpanSum(data, lo, hi) == NaN
    decreases hi - lo
  {
    if i < hi - 1 {
      SpanSumOutOfRange(data, lo, hi - 1, i);
    }
  }

  /** A band whose bins lie inside the spectrum averages to a level in [0, 1]. */
  lemma RangeAverageUnit(data: seq<byte>, lowBin: int, highBin: int)
    requires 0 <= lowBin <= highBin < |data|
    ensures RangeAverage(data, lowBin, highBin).Num?
    ensures 0.0 <= RangeAverage(data, lowBin, highBin).v <= 1.0
  {
    SpanSumBounds(data, lowBin, highBin + 1);
    var s := SpanSum(data, lowBin, highBin + 1).v;
    var count := (highBin - lowBin + 1) as real;
    var m := s / count;
    ScalarUtils.DivBounds(s, count, m);
    assert m <= 255.0 by {
      ScalarUtils.DivBounds(s, 255.0 * count, s / (255.0 * count));
      assert m == 255.0 * (s / (255.0 * count));
    }
    ScalarUtils.DivBounds(m, 255.0, m / 255.0);
  }

  /** The average of three levels lies between the smallest and the largest. */
  lemma Mean3Between(a: real, b: real, c: real)
    ensures Mean3(Num(a), Num(b), Num(c)).Num?
    ensures ScalarUtils.Min(a, ScalarUtils.Min(b, c)) <= Mean3(Num(a), Num(b), Num(c)).v
    ensures Mean3(Num(a), Num(b), Num(c)).v <= ScalarUtils.Max(a, ScalarUtils.Max(b, c))
  {
  }

  /**
   * When the top band's high bin lies inside the spectrum, all four levels are
   * numbers in [0, 1].
   */
  lemma LevelsInUnit(data: seq<byte>, sampleRate: real)
    requires sampleRate > 0.0
    requires BinForFrequency(High.high, sampleRate, |data|) < |data|
    ensures var d := Levels(data, sampleRate, |data|);
      && d.bass.Num? && 0.0 <= d.bass.v <= 1.0
      && d.mid.Num? && 0.0 <= d.mid.v <= 1.0
      && d.high.Num? && 0.0 <= d.high.v <= 1.0
      && d.average.Num? && 0.0 <= d.average.v <= 1.0
  {
    var n := |data|;
    BandBins(sampleRate, n);
    BinMonotone(0.0, Bass.low, sampleRate, n);
    assert BinForFrequency(0.0, sampleRate, n) == 0;
    RangeAverageUnit(data, BinForFrequency(Bass.low, sampleRate, n), BinForFrequency(Bass.high, sampleRate, n));
    RangeAverageUnit(data, BinForFrequency(Mid.low, sampleRate, n), BinForFrequency(Mid.high, sampleRate, n));
    RangeAverageUnit(data, BinForFrequency(High.low, sampleRate, n), BinForFrequency(High.high, sampleRate, n));
  }

  /** The high band reads past the spectrum when its top bin is at or beyond the bin count: its level and the average are `NaN`. */
  lemma HighBandOverrun(data: seq<byte>, sampleRate: real)
    requires sampleRate > 0.0
    requires BinForFrequency(High.high, sampleRate, |data|) >= |data|
    ensures Levels(data, sampleRate, |data|).high == NaN
    ensures Levels(data, sampleRate, |data|).average == NaN
  {
    var n := |data|;
    BandBins(sampleRate, n);
    var hb := BinForFrequency(High.high, sampleRate, n);
    SpanSumOutOfRange(data, BinForFrequency(High.low, sampleRate, n), hb + 1, hb);
  }

  /** At the common 44.1 kHz rate the 1024 bins cover 20 kHz: the top bin is 929. */
  lemma TopBinAt44100()
    ensures BinForFrequency(High.high, 44100.0, BinCountFor(FftSize)) == 929
  {
  }

  /** At 44.1 kHz and above the top band's high bin stays inside the 1024 bins. */
  lemma StandardRateInRange(sampleRate: real)
    requires sampleRate >= 44100.0
    ensures BinForFrequency(High.high, sampleRate, BinCountFor(FftSize)) < BinCountFor(FftSize)
  {
    var nyquist := sampleRate / 2.0;
    var q := High.high / nyquist;
    assert q * nyquist == High.high;
    ScalarUtils.MulNonneg(q, nyquist - 22050.0);
    assert q * 22050.0 <= 20000.0;
  }

  /** All four levels are numbers in [0, 1]. */
  predicate UnitLevels(d: AudioData) {
    && d.bass.Num? && 0.0 <= d.bass.v <= 1.0
    && d.mid.Num? && 0.0 <= d.mid.v <= 1.0
    && d.high.Num? && 0.0 <= d.high.v <= 1.0
    && d.average.Num? && 0.0 <= d.average.v <= 1.0
  }

  /** At a 16 kHz rate the top band's bin is 2560, far past the 1024 bins. */
  lemma TopBinAt16000()
    ensures BinForFrequency(High.high, 16000.0, BinCountFor(FftSize)) == 2560
  {
  }

  // ---------------------------------------------------------- the manager

  datatype AudioContextInfo = AudioContextInfo(sampleRate: real)

  datatype Analyser = Analyser(fftSize: nat, smoothingTimeConstant: real) {
    function FrequencyBinCount(): nat { BinCountFor(fftSize) }
  }

  /** The microphone stream, by identity. */
  datatype MediaStream = MediaStream(id: nat)

  /** Teardown calls made on the platform objects. */
  datatype AudioEffect = ConnectSource | StopTracks | CloseContext

  datatype AudioError = PermissionDenied

  class AudioManager {
    var audioContext: Option<AudioContextInfo>
    var analyser: Option<Analyser>
    var mediaStream: Option<MediaStream>
    var dataArray: array?<byte>
    var frequencyData: array?<byte>
    ghost var effects: seq<AudioEffect>
    /** The levels `getAudioData` returned last. */
    ghost var lastReport: AudioData

    ghost predicate Valid()
      reads this
    {
      && (audioContext.Some? ==> audioContext.value.sampleRate > 0.0)
      && (analyser.Some? ==> audioContext.Some? && analyser.value == Analyser(FftSize, SmoothingTimeConstant))
      && (frequencyData != null ==> analyser.Some? && frequencyData.Length == analyser.value.FrequencyBinCount())
      && (dataArray != null ==> dataArray != frequencyData)
    }

    /** Whether `getAudioData` reads the spectrum rather than returning silence. */
    predicate Active()
      reads this
    {
      analyser.Some? && frequencyData != null
    }

    constructor ()
      ensures Valid() && !Active()
      ensures audioContext.None? && analyser.None? && mediaStream.None?
      ensures dataArray == null && frequencyData == null && effects == []
    {
      audioContext := None;
      analyser := None;
      mediaStream := None;
      dataArray := null;
      frequencyData := null;
      effects := [];
      lastReport := Silence;
    }

    /**
     * `initialize`: context, analyser and both arrays are set before the
     * microphone is requested, so a refused microphone leaves them set.
     */
    method Initialize(sampleRate: real, micGranted: bool, stream: MediaStream) returns (r: Result<(), AudioError>)
      requires sampleRate > 0.0
      modifies this
      ensures Valid() && Active()
      ensures audioContext == Some(AudioContextInfo(sampleRate))
      ensures analyser == Some(Analyser(FftSize, SmoothingTimeConstant))
      ensures fresh(dataArray) && fresh(frequencyData)
      ensures dataArray.Length == frequencyData.Length == 1024
      ensures forall i :: 0 <= i < frequencyData.Length ==> frequencyData[i] == 0
      ensures r.Failure? <==> !micGranted
      ensures micGranted ==> mediaStream == Some(stream) && effects == old(effects) + [ConnectSource]
      ensures !micGranted ==> mediaStream == old(mediaStream) && effects == old(effects)
    {
      audioContext := Some(AudioContextInfo(sampleRate));
      var a := Analyser(FftSize, SmoothingTimeConstant);
      analyser := Some(a);
      dataArray := new byte[a.FrequencyBinCount()](_ => 0);
      frequencyData := new byte[a.FrequencyBinCount()](_ => 0);
      if !micGranted {
        return Failure(PermissionDenied);
      }
      mediaStream := Some(stream);
      effects := effects + [ConnectSource];
      r := Success(());
    }

    /** The levels `getAudioData` reports for the analyser's current spectrum. */
    function Report(spectrum: seq<byte>): (d: AudioData)
      reads this
      requires Valid()
      ensures !Active() ==> d == Silence
      ensures Active() && |spectrum| == analyser.value.FrequencyBinCount() && audioContext.value.sampleRate >= 44100.0
        ==> UnitLevels(d)
    {
      if !Active() then Silence
      else
        var sampleRate := audioContext.value.sampleRate;
        if |spectrum| == analyser.value.FrequencyBinCount() && sampleRate >= 44100.0 then
          StandardRateInRange(sampleRate);
          LevelsInUnit(spectrum, sampleRate);
          Levels(spectrum, sampleRate, analyser.value.FrequencyBinCount())
        else
          Levels(spectrum, sampleRate, analyser.value.FrequencyBinCount())
    }

    /** `getAverageForRange` over the bins of `low` and `high`: the summing loop. */
    method AverageForRange(low: real, high: real) returns (r: Level)
      requires Valid() && Active()
      ensures r == RangeAverage(frequencyData[..],
        BinForFrequency(low, audioContext.value.sampleRate, analyser.value.FrequencyBinCount()),
        BinForFrequency(high, audioContext.value.sampleRate, analyser.value.FrequencyBinCount()))
    {
      var sampleRate := audioContext.value.sampleRate;
      var binCount := analyser.value.FrequencyBinCount();
      var lowBin := BinForFrequency(low, sampleRate, binCount);
      var highBin := BinForFrequency(high, sampleRate, binCount);
      var sum := Num(0.0);
      var i := lowBin;
      while i <= highBin
        invariant i == lowBin || lowBin < i <= highBin + 1
        invariant sum == SpanSum(frequencyData[..], lowBin, i)
        decreases highBin + 1 - i
      {
        var x := if 0 <= i < frequencyData.Length then Num(frequencyData[i] as real) else NaN;
        assert x == ReadBin(frequencyData[..], i);
        sum := Add(sum, x);
        i := i + 1;
      }
      assert highBin + 1 < lowBin ==> SpanSum(frequencyData[..], lowBin, highBin + 1) == sum;
      assert sum == SpanSum(frequencyData[..], lowBin, highBin + 1);
      var count := highBin - lowBin + 1;
      if sum.NaN? || count == 0 {
        r := NaN;
      } else {
        r := Num(sum.v / count as real / 255.0);
      }
    }

    /**
     * `getAudioData`: silence while the analyser or its array is missing;
     * otherwise the analyser's spectrum is copied into `frequencyData` and
     * reduced to the four levels.
     */
    method GetAudioData(spectrum: seq<byte>) returns (d: AudioData)
      requires Valid()
      requires Active() ==> |spectrum| == analyser.value.FrequencyBinCount()
      modifies frequencyData, this`lastReport
      ensures Valid()
      ensures d == old(Report(spectrum)) && lastReport == d
      ensures old(Active()) ==> frequencyData[..] == spectrum
      ensures !old(Active()) ==> d == Silence
    {
      if analyser.None? || frequencyData == null {
        lastReport := Silence;
        return Silence;
      }
      var k := 0;
      while k < |spectrum|
        invariant 0 <= k <= |spectrum|
        invariant frequencyData[..k] == spectrum[..k]
      {
        frequencyData[k] := spectrum[k];
        k := k + 1;
      }
      assert frequencyData[..] == spectrum;
      var bass := AverageForRange(Bass.low, Bass.high);
      var mid := AverageForRange(Mid.low, Mid.high);
      var high := AverageForRange(High.low, High.high);
      d := AudioData(bass, mid, high, Mean3(bass, mid, high));
      lastReport := d;
    }

    /**
     * `destroy`: stops the stream's tracks and closes the context when they
     * exist, then clears analyser, stream and both arrays; the context
     * reference itself is kept.
     */
    method Destroy()
      requires Valid()
      modifies this
      ensures Valid() && !Active()
      ensures analyser.None? && mediaStream.None? && dataArray == null && frequencyData == null
      ensures audioContext == old(audioContext)
      ensures effects == old(effects)
        + (if old(mediaStream).Some? then [StopTracks] else [])
        + (if old(audioContext).Some? then [CloseContext] else [])
    {
      if mediaStream.Some? {
        effects := effects + [StopTracks];
      }
      if audioContext.Some? {
        effects := effects + [CloseContext];
      }
      analyser := None;
      mediaStream := None;
      dataArray := null;
      frequencyData := null;
    }
  }
}
