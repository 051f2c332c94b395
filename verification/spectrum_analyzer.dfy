/** The bar spectrum analyzer of src/spectrum_analyzer.py: logarithmically
    spaced band centres from 20 Hz to Nyquist, band edges at the geometric
    means of neighbouring centres, and per block a Hamming-windowed spectrum
    whose mean level in decibels per band is mapped onto [0, 1], smoothed and
    held as a decaying peak. */
module Spectrum {
  import opened Outcomes
  import opened ComplexNumbers
  import opened NumPyModel
  import Fft

  /** `self.peak_decay` and `self.level_smoothing`. */
  const PeakDecay: real := 0.95
  const LevelSmoothing: real := 0.7

  /** A band as (low edge, high edge) in hertz. */
  type Edge = (real, real)

  /** The i-th of num >= 2 evenly spaced exponents from start to stop. */
  function Exponent(start: real, stop: real, num: nat, i: nat): real
    requires num >= 2
  {
    start + i as real * ((stop - start) / (num - 1) as real)
  }

  lemma LastExponent(start: real, stop: real, num: nat)
    requires num >= 2
    ensures Exponent(start, stop, num, num - 1) == stop
  {
    var d := (num - 1) as real;
    assert ((stop - start) / d) * d == stop - start;
  }

  lemma ExponentsIncrease(start: real, stop: real, num: nat, i: nat, j: nat)
    requires num >= 2 && start < stop && i < j
    ensures Exponent(start, stop, num, i) < Exponent(start, stop, num, j)
  {
    var step := (stop - start) / (num - 1) as real;
    assert step > 0.0;
    StepsIncrease(i, j, step);
  }

  lemma StepsIncrease(i: nat, j: nat, step: real)
    requires i < j && step > 0.0
    ensures i as real * step < j as real * step
  {
    assert j as real * step - i as real * step == (j - i) as real * step;
  }

  /** `np.logspace(start, stop, num)`: 10 raised to num evenly spaced exponents
      from start to stop; a single point is 10 ** start. */
  function LogSpace(np: NumPy, start: real, stop: real, num: nat): (c: seq<real>)
    ensures |c| == num
    ensures num >= 1 ==> c[0] == np.pow10(start)
    ensures num >= 2 ==> c[num - 1] == np.pow10(stop)
  {
    if num <= 1 then seq(num, _ => np.pow10(start))
    else
      LastExponent(start, stop, num);
      assert Exponent(start, stop, num, 0) == start;
      var c := seq(num, i requires 0 <= i < num => np.pow10(Exponent(start, stop, num, i)));
      assert c[0] == np.pow10(Exponent(start, stop, num, 0));
      assert c[num - 1] == np.pow10(Exponent(start, stop, num, num - 1));
      c
  }

  /** Every centre is positive, and with the exponents rising so do the centres. */
  lemma {:induction false} LogSpaceIncreasing(np: NumPy, start: real, stop: real, num: nat, i: nat, j: nat)
    requires Sound(np) && start < stop && i < j < num
    ensures 0.0 < LogSpace(np, start, stop, num)[i] < LogSpace(np, start, stop, num)[j]
  {
    ExponentsIncrease(start, stop, num, i, j);
    var c := LogSpace(np, start, stop, num);
    assert c[i] == np.pow10(Exponent(start, stop, num, i));
    assert c[j] == np.pow10(Exponent(start, stop, num, j));
  }

  /** `np.sqrt(a * b)`. */
  function GeometricMean(np: NumPy, a: real, b: real): real {
    np.sqrt(a * b)
  }

  /** The band of index i: from 0 or the geometric mean with the centre below,
      up to the geometric mean with the centre above or Nyquist. */
  function EdgeOf(np: NumPy, centers: seq<real>, nyquist: real, i: nat): Edge
    requires i < |centers|
  {
    (if i == 0 then 0.0 else GeometricMean(np, centers[i - 1], centers[i]),
     if i == |centers| - 1 then nyquist else GeometricMean(np, centers[i], centers[i + 1]))
  }

  /** `self.band_edges`: one pair per band, starting at 0, ending at Nyquist,
      and each high edge the next band's low edge. */
  function BandEdges(np: NumPy, centers: seq<real>, nyquist: real): (e: seq<Edge>)
    ensures |e| == |centers|
    ensures |e| >= 1 ==> e[0].0 == 0.0 && e[|e| - 1].1 == nyquist
  {
    seq(|centers|, i requires 0 <= i < |centers| => EdgeOf(np, centers, nyquist, i))
  }

  /** Neighbouring bands meet at the geometric mean of their centres. */
  lemma EdgesMeet(np: NumPy, centers: seq<real>, nyquist: real, i: nat)
    requires i + 1 < |centers|
    ensures var e := BandEdges(np, centers, nyquist);
      e[i].1 == e[i + 1].0 == GeometricMean(np, centers[i], centers[i + 1])
  {
  }

  /** The two further laws the edges' placement relies on: np.sqrt is the
      non-negative square root and np.log10 inverts 10 ** x on positive reals. */
  ghost predicate RootLaws(np: NumPy) {
    && (forall x {:trigger np.sqrt(x)} :: x >= 0.0 ==> np.sqrt(x) * np.sqrt(x) == x)
    && (forall x {:trigger np.log10(x)} :: x > 0.0 ==> np.pow10(np.log10(x)) == x)
  }

  /** The geometric mean of two distinct positive centres lies strictly between them. */
  lemma GeometricMeanBetween(np: NumPy, a: real, b: real)
    requires Sound(np) && RootLaws(np) && 0.0 < a < b
    ensures a < GeometricMean(np, a, b) < b
  {
    var m := np.sqrt(a * b);
    assert m >= 0.0 && m * m == a * b;
    SquareRootBetween(a, b, m);
  }

  lemma SquareRootBetween(a: real, b: real, m: real)
    requires 0.0 < a < b && m >= 0.0 && m * m == a * b
    ensures a < m < b
  {
    if m >= b {
      ScaleBoth(b, m, m);
      ScaleBoth(b, m, b);
    }
    if m <= a {
      ScaleBoth(m, a, m);
      ScaleBoth(m, a, a);
    }
  }

  lemma ScaleBoth(x: real, y: real, z: real)
    requires x <= y && z >= 0.0
    ensures x * z <= y * z
  {
    assert (y - x) * z >= 0.0;
  }

  /** The first centre is 20 Hz and, with two bands or more, the last is Nyquist. */
  lemma {:induction false} CenterEnds(np: NumPy, nyquist: real, nBands: nat)
    requires Sound(np) && RootLaws(np) && nyquist > 20.0 && nBands >= 1
    ensures var c := LogSpace(np, np.log10(20.0), np.log10(nyquist), nBands);
      c[0] == 20.0 && c[nBands - 1] == (if nBands == 1 then 20.0 else nyquist) &&
      np.log10(20.0) < np.log10(nyquist)
  {
    assert np.pow10(np.log10(20.0)) == 20.0;
    assert np.pow10(np.log10(nyquist)) == nyquist;
  }

  /** For a sample rate above 40 Hz (Nyquist above the lowest centre) every
      centre lies inside its own band, strictly above its low edge and at most
      its high edge, which it reaches only as the last band's Nyquist. */
  lemma {:induction false} EdgesBracketCenters(np: NumPy, sampleRate: real, nBands: nat, i: nat)
    requires Sound(np) && RootLaws(np) && sampleRate > 40.0 && i < nBands
    ensures var nyquist := sampleRate / 2.0;
      var c := LogSpace(np, np.log10(20.0), np.log10(nyquist), nBands);
      var e := BandEdges(np, c, nyquist);
      e[i].0 < c[i] <= e[i].1 && (i < nBands - 1 ==> c[i] < e[i].1)
  {
    var nyquist := sampleRate / 2.0;
    CenterEnds(np, nyquist, nBands);
    var start, stop := np.log10(20.0), np.log10(nyquist);
    var c := LogSpace(np, start, stop, nBands);
    var e := BandEdges(np, c, nyquist);
    assert e[i] == EdgeOf(np, c, nyquist, i);
    if i > 0 {
      LogSpaceIncreasing(np, start, stop, nBands, i - 1, i);
      GeometricMeanBetween(np, c[i - 1], c[i]);
    }
    if i < nBands - 1 {
      LogSpaceIncreasing(np, start, stop, nBands, i, i + 1);
      GeometricMeanBetween(np, c[i], c[i + 1]);
    } else if i > 0 {
      LogSpaceIncreasing(np, start, stop, nBands, 0, i);
    }
  }

  /** The loop of `__init__` that appends one edge pair per band. */
  method BuildEdges(np: NumPy, centers: seq<real>, nyquist: real) returns (edges: seq<Edge>)
    ensures edges == BandEdges(np, centers, nyquist)
  {
    edges := [];
    for i := 0 to |centers|
      invariant |edges| == i
      invariant forall k :: 0 <= k < i ==> edges[k] == EdgeOf(np, centers, nyquist, k)
    {
      var lowEdge := if i == 0 then 0.0 else GeometricMean(np, centers[i - 1], centers[i]);
      var highEdge := if i == |centers| - 1 then nyquist else GeometricMean(np, centers[i], centers[i + 1]);
      edges := edges + [(lowEdge, highEdge)];
    }
  }

  /** `(freqs >= low_edge) & (freqs < high_edge)`: the band is half-open. */
  predicate InBand(f: real, e: Edge) {
    e.0 <= f < e.1
  }

  /** The number of the first m bins that fall in the band. */
  function MaskCount(freqs: seq<real>, e: Edge, m: nat): nat
    requires m <= |freqs|
  {
    if m == 0 then 0
    else MaskCount(freqs, e, m - 1) + (if InBand(freqs[m - 1], e) then 1 else 0)
  }

  /** The sum of the levels of the first m bins that fall in the band. */
  function MaskSum(db: seq<real>, freqs: seq<real>, e: Edge, m: nat): real
    requires |db| == |freqs| && m <= |freqs|
  {
    if m == 0 then 0.0
    else MaskSum(db, freqs, e, m - 1) + (if InBand(freqs[m - 1], e) then db[m - 1] else 0.0)
  }

  /** `np.any(mask)` holds exactly when some bin falls in the band. */
  lemma {:induction false} AnyIffCount(freqs: seq<real>, e: Edge, m: nat)
    requires m <= |freqs|
    ensures MaskCount(freqs, e, m) > 0 <==> exists k :: 0 <= k < m && InBand(freqs[k], e)
  {
    if m > 0 {
      AnyIffCount(freqs, e, m - 1);
      if InBand(freqs[m - 1], e) {
        assert exists k :: 0 <= k < m && InBand(freqs[k], e);
      }
    }
  }

  /** The masked sum lies between count * lo and count * hi when every bin in
      the band does, so the mean lies between lo and hi. */
  lemma {:induction false} MaskSumBounds(db: seq<real>, freqs: seq<real>, e: Edge, m: nat, lo: real, hi: real)
    requires |db| == |freqs| && m <= |freqs|
    requires forall k :: 0 <= k < m && InBand(freqs[k], e) ==> lo <= db[k] <= hi
    ensures MaskCount(freqs, e, m) as real * lo <= MaskSum(db, freqs, e, m) <= MaskCount(freqs, e, m) as real * hi
  {
    if m > 0 {
      MaskSumBounds(db, freqs, e, m - 1, lo, hi);
      var c := MaskCount(freqs, e, m - 1) as real;
      assert (c + 1.0) * lo == c * lo + lo;
      assert (c + 1.0) * hi == c * hi + hi;
    }
  }

  /** `np.clip(x, 0.0, 1.0)`. */
  function Clip(x: real): (y: real)
    ensures 0.0 <= y <= 1.0
    ensures 0.0 <= x <= 1.0 ==> y == x
    ensures x < 0.0 ==> y == 0.0
    ensures x > 1.0 ==> y == 1.0
  {
    if x < 0.0 then 0.0 else if x > 1.0 then 1.0 else x
  }

  /** The mean level of the band's bins mapped from [-80 dB, 0 dB] onto [0, 1]
      and clipped, or 0 for a band that holds no bin. */
  function BandLevel(db: seq<real>, freqs: seq<real>, e: Edge): (level: real)
    requires |db| == |freqs|
    ensures 0.0 <= level <= 1.0
    ensures (forall k :: 0 <= k < |freqs| ==> !InBand(freqs[k], e)) ==> level == 0.0
  {
    var count := MaskCount(freqs, e, |freqs|);
    AnyIffCount(freqs, e, |freqs|);
    if count == 0 then 0.0
    else Clip((MaskSum(db, freqs, e, |freqs|) / count as real + 80.0) / 80.0)
  }

  /** A band whose bins all read between lo and hi dB, with -80 <= lo <= hi <= 0,
      reads between the two mapped onto [0, 1]: the level follows the mean. */
  lemma {:induction false} LevelFollowsMean(db: seq<real>, freqs: seq<real>, e: Edge, lo: real, hi: real)
    requires |db| == |freqs| && -80.0 <= lo <= hi <= 0.0
    requires forall k :: 0 <= k < |freqs| && InBand(freqs[k], e) ==> lo <= db[k] <= hi
    requires exists k :: 0 <= k < |freqs| && InBand(freqs[k], e)
    ensures (lo + 80.0) / 80.0 <= BandLevel(db, freqs, e) <= (hi + 80.0) / 80.0
  {
    AnyIffCount(freqs, e, |freqs|);
    MaskSumBounds(db, freqs, e, |freqs|, lo, hi);
    var count := MaskCount(freqs, e, |freqs|) as real;
    var sum := MaskSum(db, freqs, e, |freqs|);
    MeanBetween(sum, count, lo, hi);
    var mean := sum / count;
    assert BandLevel(db, freqs, e) == Clip((mean + 80.0) / 80.0);
  }

  lemma MeanBetween(sum: real, count: real, lo: real, hi: real)
    requires count > 0.0 && count * lo <= sum <= count * hi
    ensures lo <= sum / count <= hi
  {
    var mean := sum / count;
    assert mean * count == sum;
    assert (mean - lo) * count == sum - lo * count;
    assert (hi - mean) * count == hi * count - sum;
  }

  /** `audio_chunk * np.hamming(n_samples)`. */
  function Windowed(np: NumPy, chunk: seq<real>): (w: seq<real>)
    ensures |w| == |chunk|
    ensures forall k :: 0 <= k < |w| ==> w[k] == chunk[k] * np.hamming(k, |chunk|)
  {
    seq(|chunk|, k requires 0 <= k < |chunk| => chunk[k] * np.hamming(k, |chunk|))
  }

  /** `20 * np.log10(np.abs(fft[:n // 2]) + 1e-10)`: the levels in decibels of
      the non-negative-frequency half of the windowed block's spectrum. */
  function LevelsDb(np: NumPy, chunk: seq<real>): (db: seq<real>)
    requires Sound(np)
    ensures |db| == |chunk| / 2
  {
    var spectrum := np.fft(ToComplex(Windowed(np, chunk)));
    seq(|chunk| / 2, k requires 0 <= k < |chunk| / 2 => 20.0 * np.log10(Modulus(np, spectrum[k]) + 0.0000000001))
  }

  /** `np.fft.fftfreq(n, 1 / sample_rate)[:n // 2]`: the bins' frequencies,
      k * sample_rate / n, all of them non-negative. */
  function BinFreqs(n: nat, sampleRate: real): (f: seq<real>)
    requires n >= 1 && sampleRate > 0.0
    ensures |f| == n / 2
    ensures forall k :: 0 <= k < n / 2 ==> f[k] == Fft.BinFrequency(n, 1.0 / sampleRate, k) && f[k] == k as real * (sampleRate / n as real)
  {
    var d := 1.0 / sampleRate;
    var f := seq(n / 2, k requires 0 <= k < n / 2 => Fft.BinFrequency(n, d, k));
    forall k | 0 <= k < n / 2 ensures f[k] == k as real * (sampleRate / n as real) {
      assert k < (n - 1) / 2 + 1;
      assert 1.0 / (n as real * d) == sampleRate / n as real;
    }
    f
  }

  /** `new_levels`: the level of every band for a non-empty block. */
  function NewLevels(np: NumPy, chunk: seq<real>, sampleRate: real, edges: seq<Edge>): (levels: seq<real>)
    requires Sound(np) && |chunk| >= 1 && sampleRate > 0.0
    ensures |levels| == |edges|
    ensures forall i :: 0 <= i < |levels| ==> 0.0 <= levels[i] <= 1.0
  {
    var db := LevelsDb(np, chunk);
    var freqs := BinFreqs(|chunk|, sampleRate);
    seq(|edges|, i requires 0 <= i < |edges| => BandLevel(db, freqs, edges[i]))
  }

  /** A block of one sample has no bins, so every band reads 0. */
  lemma SingleSampleReadsZero(np: NumPy, chunk: seq<real>, sampleRate: real, edges: seq<Edge>)
    requires Sound(np) && |chunk| == 1 && sampleRate > 0.0
    ensures NewLevels(np, chunk, sampleRate, edges) == seq(|edges|, _ => 0.0)
  {
  }

  /** Every level in [0, 1]. */
  predicate AllUnit(s: seq<real>) {
    forall i :: 0 <= i < |s| ==> 0.0 <= s[i] <= 1.0
  }

  /** `level_smoothing * band_levels + (1 - level_smoothing) * new_levels`: each
      level moves 30% of the way towards the new one. */
  function Smoothed(levels: seq<real>, latest: seq<real>): (r: seq<real>)
    requires |latest| == |levels|
    ensures |r| == |levels|
    ensures forall i :: 0 <= i < |r| ==> r[i] - levels[i] == (1.0 - LevelSmoothing) * (latest[i] - levels[i])
    ensures forall i :: 0 <= i < |r| ==>
      (levels[i] <= latest[i] ==> levels[i] <= r[i] <= latest[i]) && (latest[i] <= levels[i] ==> latest[i] <= r[i] <= levels[i])
    ensures AllUnit(levels) && AllUnit(latest) ==> AllUnit(r)
  {
    seq(|levels|, i requires 0 <= i < |levels| => LevelSmoothing * levels[i] + (1.0 - LevelSmoothing) * latest[i])
  }

  /** `np.maximum(band_peaks * peak_decay, new_levels)`: a peak decays by 5%
      per block unless the new level is above it. */
  function PeakHold(peaks: seq<real>, latest: seq<real>): (r: seq<real>)
    requires |latest| == |peaks|
    ensures |r| == |peaks|
    ensures forall i :: 0 <= i < |r| ==> r[i] >= latest[i] && r[i] >= PeakDecay * peaks[i]
    ensures forall i :: 0 <= i < |r| ==> r[i] == latest[i] || r[i] == PeakDecay * peaks[i]
    ensures AllUnit(peaks) && AllUnit(latest) ==> AllUnit(r)
  {
    seq(|peaks|, i requires 0 <= i < |peaks| => if PeakDecay * peaks[i] >= latest[i] then PeakDecay * peaks[i] else latest[i])
  }

  /** The loop of `analyze` filling `new_levels[i]` band by band. */
  method ComputeLevels(db: seq<real>, freqs: seq<real>, edges: seq<Edge>) returns (levels: seq<real>)
    requires |db| == |freqs|
    ensures levels == seq(|edges|, i requires 0 <= i < |edges| => BandLevel(db, freqs, edges[i]))
  {
    var newLevels := new real[|edges|](_ => 0.0);
    for i := 0 to |edges|
      invariant forall k :: 0 <= k < i ==> newLevels[k] == BandLevel(db, freqs, edges[k])
    {
      var e := edges[i];
      var count := MaskCount(freqs, e, |freqs|);
      if count > 0 {
        var bandMagnitude := MaskSum(db, freqs, e, |freqs|) / count as real;
        newLevels[i] := Clip((bandMagnitude + 80.0) / 80.0);
      } else {
        newLevels[i] := 0.0;
      }
    }
    levels := newLevels[..];
  }

  class SpectrumAnalyzer {
    const sampleRate: real
    const nBands: nat
    const bandCenters: seq<real>
    const bandEdges: seq<Edge>
    var bandLevels: seq<real>
    var bandPeaks: seq<real>

    /** One centre, edge pair, level and peak per band; levels and peaks in [0, 1]. */
    ghost predicate Valid()
      reads this
    {
      && sampleRate > 0.0
      && |bandCenters| == nBands && |bandEdges| == nBands
      && |bandLevels| == nBands && |bandPeaks| == nBands
      && AllUnit(bandLevels) && AllUnit(bandPeaks)
    }

    /** `__init__`. */
    constructor(np: NumPy, sampleRate: real, nBands: nat)
      requires sampleRate > 0.0
      ensures Valid()
      ensures this.sampleRate == sampleRate && this.nBands == nBands
      ensures bandCenters == LogSpace(np, np.log10(20.0), np.log10(sampleRate / 2.0), nBands)
      ensures bandEdges == BandEdges(np, bandCenters, sampleRate / 2.0)
      ensures bandLevels == seq(nBands, _ => 0.0) && bandPeaks == seq(nBands, _ => 0.0)
    {
      var nyquist := sampleRate / 2.0;
      var centers := LogSpace(np, np.log10(20.0), np.log10(nyquist), nBands);
      var edges := BuildEdges(np, centers, nyquist);
      this.sampleRate := sampleRate;
      this.nBands := nBands;
      bandCenters := centers;
      bandEdges := edges;
      bandLevels := seq(nBands, _ => 0.0);
      bandPeaks := seq(nBands, _ => 0.0);
    }

    /** `analyze`: no block or an empty one leaves the state as it is; any other
        block smooths the levels towards the block's levels and updates the
        held peaks. Either way the current levels and peaks are returned. */
    method Analyze(np: NumPy, chunk: Option<seq<real>>) returns (levels: seq<real>, peaks: seq<real>)
      requires Valid() && Sound(np)
      modifies this
      ensures Valid()
      ensures chunk.None? || |chunk.value| == 0 ==> bandLevels == old(bandLevels) && bandPeaks == old(bandPeaks)
      ensures chunk.Some? && |chunk.value| > 0 ==>
        var latest := NewLevels(np, chunk.value, sampleRate, bandEdges);
        bandLevels == Smoothed(old(bandLevels), latest) && bandPeaks == PeakHold(old(bandPeaks), latest)
      ensures levels == bandLevels && peaks == bandPeaks
    {
      if chunk.None? || |chunk.value| == 0 {
        return bandLevels, bandPeaks;
      }
      var audio := chunk.value;
      var db := LevelsDb(np, audio);
      var freqs := BinFreqs(|audio|, sampleRate);
      var latest := ComputeLevels(db, freqs, bandEdges);
      bandLevels := Smoothed(bandLevels, latest);
      bandPeaks := PeakHold(bandPeaks, latest);
      levels, peaks := bandLevels, bandPeaks;
    }

    /** `get_band_frequencies`. */
    method GetBandFrequencies() returns (centers: seq<real>)
      requires Valid()
      ensures |centers| == nBands
      ensures centers == bandCenters
    {
      centers := bandCenters;
    }
  }
}
