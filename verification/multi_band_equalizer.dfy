/** The five-band equalizer of multi_band_equalizer.py: fixed centre
    frequencies, one amplification factor in [0, 100] per band (50 leaves a
    band as it is), and a combined frequency response
    h = sum_i (factor_i / 50) * h_i built from the band filters of equalizer.py. */
module MultiBand {
  import opened Outcomes
  import opened NumPyModel
  import opened Signal
  import opened Combination
  import Equalizer

  /** The centre frequencies in hertz, in band order. */
  const DefaultCenters: seq<real> := [100.0, 330.0, 1000.0, 3300.0, 10000.0]

  /** The factors a new equalizer starts with. */
  const DefaultFactors: seq<real> := [100.0, 50.0, 25.0, 50.0, 50.0]

  /** A factor `set_band_gain` accepts. */
  predicate InRange(gain: real) {
    0.0 <= gain <= 100.0
  }

  /** Every factor is one `set_band_gain` could have accepted. */
  predicate AllInRange(factors: seq<real>) {
    forall i :: 0 <= i < |factors| ==> InRange(factors[i])
  }

  /** `factor / 50.0`: 50 leaves the band unchanged, less attenuates it, more
      amplifies it, and the accepted range [0, 100] maps onto [0, 2]. */
  function NormalizedFactor(factor: real): (w: real)
    ensures w == 1.0 <==> factor == 50.0
    ensures w < 1.0 <==> factor < 50.0
    ensures w > 1.0 <==> factor > 50.0
    ensures InRange(factor) <==> 0.0 <= w <= 2.0
    ensures w * 50.0 == factor
  {
    factor / 50.0
  }

  /** The three anchor points the factor scale is described by. */
  lemma FactorScaleAnchors()
    ensures NormalizedFactor(0.0) == 0.0
    ensures NormalizedFactor(50.0) == 1.0
    ensures NormalizedFactor(100.0) == 2.0
  {
  }

  /** `normalized_factors`, one weight per band. */
  function NormalizedFactors(factors: seq<real>): (ws: seq<real>)
    ensures |ws| == |factors|
    ensures forall i :: 0 <= i < |ws| ==> ws[i] * 50.0 == factors[i]
    ensures AllInRange(factors) ==> forall i :: 0 <= i < |ws| ==> 0.0 <= ws[i] <= 2.0
  {
    seq(|factors|, i requires 0 <= i < |factors| => NormalizedFactor(factors[i]))
  }

  /** The outcome of `set_all_gains`' loop from position i on: each entry is
      written in turn, and the first one out of range stops the loop with an
      error after the entries before it have been written. */
  datatype Applied = Applied(factors: seq<real>, outcome: Outcome)

  function SetGainsFrom(factors: seq<real>, gains: seq<real>, i: nat): (r: Applied)
    requires |gains| == |factors| && i <= |gains|
    ensures |r.factors| == |factors|
    decreases |gains| - i
  {
    if i == |gains| then Applied(factors, Pass)
    else if !InRange(gains[i]) then Applied(factors, Fail(InvalidGainRange))
    else SetGainsFrom(factors[i := gains[i]], gains, i + 1)
  }

  /** Stopping at position j (the first entry out of range, or the end): the
      factors are the gains before j and the old factors from j on, and the
      call fails exactly when j is not the end. */
  lemma {:induction false} SetGainsStopsAtFirstInvalid(factors: seq<real>, gains: seq<real>, i: nat, j: nat)
    requires |gains| == |factors| && i <= j <= |gains|
    requires forall k :: i <= k < j ==> InRange(gains[k])
    requires j == |gains| || !InRange(gains[j])
    ensures SetGainsFrom(factors, gains, i).factors == factors[..i] + gains[i..j] + factors[j..]
    ensures SetGainsFrom(factors, gains, i).outcome == if j == |gains| then Pass else Fail(InvalidGainRange)
    decreases |gains| - i
  {
    if i == j {
      assert factors[..i] + gains[i..j] + factors[j..] == factors;
    } else {
      var next := factors[i := gains[i]];
      SetGainsStopsAtFirstInvalid(next, gains, i + 1, j);
      assert next[..i + 1] + gains[i + 1..j] + next[j..] == factors[..i] + gains[i..j] + factors[j..];
    }
  }

  /** With every entry in range `set_all_gains` replaces all factors and succeeds. */
  lemma {:induction false} SetAllGainsValid(factors: seq<real>, gains: seq<real>)
    requires |gains| == |factors| && AllInRange(gains)
    ensures SetGainsFrom(factors, gains, 0) == Applied(gains, Pass)
  {
    SetGainsStopsAtFirstInvalid(factors, gains, 0, |gains|);
    assert factors[..0] + gains[0..|gains|] + factors[|gains|..] == gains;
  }

  /** Whatever the entries, every factor afterwards is an old factor or an
      accepted gain, so the range invariant survives a failed call. */
  lemma {:induction false} SetGainsKeepsRange(factors: seq<real>, gains: seq<real>, i: nat)
    requires |gains| == |factors| && i <= |gains| && AllInRange(factors)
    ensures AllInRange(SetGainsFrom(factors, gains, i).factors)
    decreases |gains| - i
  {
    if i < |gains| && InRange(gains[i]) {
      SetGainsKeepsRange(factors[i := gains[i]], gains, i + 1);
    }
  }

  /** The response the equalizer applies: sum_i (factor_i / 50) * h_i. */
  function CombinedFilter(np: NumPy, n: nat, sampleRate: real, centers: seq<real>, factors: seq<real>, bandwidth: real, shape: string): (h: seq<real>)
    requires Sound(np) && n >= 1 && sampleRate != 0.0 && |factors| == |centers|
    requires shape == "gaussian" ==> bandwidth != 0.0
    ensures |h| == n
  {
    Combined(NormalizedFactors(factors), Equalizer.BandFilters(np, n, sampleRate, centers, bandwidth, shape), n)
  }

  /** The combined response keeps the bins' mirror symmetry and, with every
      factor in range, lies between 0 and twice the number of bands. */
  lemma {:induction false} CombinedFilterShape(np: NumPy, n: nat, sampleRate: real, centers: seq<real>, factors: seq<real>, bandwidth: real, shape: string)
    requires Sound(np) && n >= 1 && sampleRate != 0.0 && |factors| == |centers|
    requires shape == "gaussian" ==> bandwidth != 0.0
    ensures CircularlySymmetric(CombinedFilter(np, n, sampleRate, centers, factors, bandwidth, shape))
    ensures AllInRange(factors) ==> forall k :: 0 <= k < n ==>
      0.0 <= CombinedFilter(np, n, sampleRate, centers, factors, bandwidth, shape)[k] <= 2.0 * |factors| as real
  {
    var ws := NormalizedFactors(factors);
    var hs := Equalizer.BandFilters(np, n, sampleRate, centers, bandwidth, shape);
    SumSymmetric(ws, hs, n, |ws|);
    if AllInRange(factors) {
      SumBounded(ws, hs, n, |ws|);
    }
  }

  lemma {:induction false} SumSymmetric(ws: seq<real>, hs: seq<seq<real>>, n: nat, m: nat)
    requires Bands(ws, hs, n) && m <= |ws|
    requires forall i :: 0 <= i < |hs| ==> CircularlySymmetric(hs[i])
    ensures CircularlySymmetric(WeightedSum(ws, hs, n, m))
  {
    if m > 0 {
      SumSymmetric(ws, hs, n, m - 1);
      var rest := WeightedSum(ws, hs, n, m - 1);
      var h := hs[m - 1];
      ScaledSymmetric(ws[m - 1], h);
      var band := Times(ws[m - 1], h);
      SumOfSymmetric(rest, band);
    }
  }

  lemma ScaledSymmetric(r: real, a: seq<real>)
    requires CircularlySymmetric(a)
    ensures CircularlySymmetric(Times(r, a))
  {
  }

  lemma SumOfSymmetric(a: seq<real>, b: seq<real>)
    requires |a| == |b| && CircularlySymmetric(a) && CircularlySymmetric(b)
    ensures CircularlySymmetric(Plus(a, b))
  {
  }

  lemma {:induction false} SumBounded(ws: seq<real>, hs: seq<seq<real>>, n: nat, m: nat)
    requires Bands(ws, hs, n) && m <= |ws|
    requires forall i :: 0 <= i < |ws| ==> 0.0 <= ws[i] <= 2.0
    requires forall i, k :: 0 <= i < |hs| && 0 <= k < n ==> 0.0 <= hs[i][k] <= 1.0
    ensures forall k :: 0 <= k < n ==> 0.0 <= WeightedSum(ws, hs, n, m)[k] <= 2.0 * m as real
  {
    if m > 0 {
      SumBounded(ws, hs, n, m - 1);
      forall k | 0 <= k < n ensures 0.0 <= WeightedSum(ws, hs, n, m)[k] <= 2.0 * m as real {
        WeightTimesResponse(ws[m - 1], hs[m - 1][k]);
      }
    }
  }

  /** A response in [0, 1] scales a weight down, never past zero. */
  lemma WeightTimesResponse(w: real, f: real)
    requires 0.0 <= w && 0.0 <= f <= 1.0
    ensures 0.0 <= w * f <= w
  {
    assert (1.0 - f) * w >= 0.0;
  }

  /** A band whose factor is 0 is silenced: the combined response is the one
      without it. A band at 50 adds its own response unscaled. */
  lemma {:induction false} FactorZeroOrFifty(np: NumPy, n: nat, sampleRate: real, centers: seq<real>, factors: seq<real>, bandwidth: real, shape: string, j: nat, k: nat)
    requires Sound(np) && n >= 1 && sampleRate != 0.0 && |factors| == |centers|
    requires shape == "gaussian" ==> bandwidth != 0.0
    requires j < |factors| && k < n
    ensures var ws := NormalizedFactors(factors);
      var hs := Equalizer.BandFilters(np, n, sampleRate, centers, bandwidth, shape);
      (factors[j] == 0.0 ==> CombinedFilter(np, n, sampleRate, centers, factors, bandwidth, shape)[k] == Combined(ws[j := 0.0], hs, n)[k]) &&
      (factors[j] == 50.0 ==> CombinedFilter(np, n, sampleRate, centers, factors, bandwidth, shape)[k] == hs[j][k] + Combined(ws[j := 0.0], hs, n)[k])
  {
    var ws := NormalizedFactors(factors);
    var hs := Equalizer.BandFilters(np, n, sampleRate, centers, bandwidth, shape);
    BandWithUnitOrZeroWeight(ws, hs, n, j, k);
  }

  /** One channel of `process_audio`: its spectrum times the combined response,
      back to the time domain, then the peak normalisation. This is the
      equation the equalizer is built on: the same block results from weighting
      and summing the separately filtered bands. */
  function EqualizeChannel(np: NumPy, x: seq<real>, sampleRate: real, centers: seq<real>, factors: seq<real>, bandwidth: real, shape: string): (y: seq<real>)
    requires Sound(np) && |x| >= 1 && sampleRate != 0.0 && |factors| == |centers|
    requires shape == "gaussian" ==> bandwidth != 0.0
    ensures |y| == |x|
    ensures y == PeakNormalize(WeightedSum(NormalizedFactors(factors), FilterEach(np, x, Equalizer.BandFilters(np, |x|, sampleRate, centers, bandwidth, shape)), |x|, |factors|))
    ensures forall i :: 0 <= i < |y| ==> Abs(y[i]) <= 1.0
  {
    var ws := NormalizedFactors(factors);
    var hs := Equalizer.BandFilters(np, |x|, sampleRate, centers, bandwidth, shape);
    CombinedFilterIsSumOfBands(np, x, ws, hs, |ws|);
    PeakNormalize(FilterSpectrum(np, x, CombinedFilter(np, |x|, sampleRate, centers, factors, bandwidth, shape)))
  }

  class MultiBandEqualizer {
    const centerFrequencies: seq<real>
    var amplificationFactors: seq<real>
    var bandwidth: real
    var filterShape: string

    /** One factor per band, each in [0, 100]. */
    ghost predicate Valid()
      reads this
    {
      |amplificationFactors| == |centerFrequencies| && AllInRange(amplificationFactors)
    }

    /** `__init__`: the default centres and factors. */
    constructor(bandwidth: real, filterShape: string)
      ensures Valid()
      ensures centerFrequencies == DefaultCenters && amplificationFactors == DefaultFactors
      ensures this.bandwidth == bandwidth && this.filterShape == filterShape
    {
      centerFrequencies := DefaultCenters;
      amplificationFactors := DefaultFactors;
      this.bandwidth := bandwidth;
      this.filterShape := filterShape;
    }

    /** `set_band_gain`: the index is checked first, then the factor; only an
        accepted call writes, and it writes that one band. */
    method SetBandGain(bandIndex: int, gainFactor: real) returns (o: Outcome)
      requires Valid()
      modifies this
      ensures Valid()
      ensures bandwidth == old(bandwidth) && filterShape == old(filterShape)
      ensures !(0 <= bandIndex < |centerFrequencies|) ==>
        o == Fail(InvalidBandIndex) && amplificationFactors == old(amplificationFactors)
      ensures 0 <= bandIndex < |centerFrequencies| && !InRange(gainFactor) ==>
        o == Fail(InvalidGainRange) && amplificationFactors == old(amplificationFactors)
      ensures 0 <= bandIndex < |centerFrequencies| && InRange(gainFactor) ==>
        o == Pass && amplificationFactors == old(amplificationFactors)[bandIndex := gainFactor]
    {
      if bandIndex < 0 || bandIndex >= |centerFrequencies| {
        return Fail(InvalidBandIndex);
      }
      if gainFactor < 0.0 || gainFactor > 100.0 {
        return Fail(InvalidGainRange);
      }
      amplificationFactors := amplificationFactors[bandIndex := gainFactor];
      o := Pass;
    }

    /** `set_all_gains`: a list of the wrong length is refused before anything is
        written; otherwise the entries are applied in band order and the first
        one out of range raises with the earlier ones already in place. */
    method SetAllGains(gains: seq<real>) returns (o: Outcome)
      requires Valid()
      modifies this
      ensures Valid()
      ensures bandwidth == old(bandwidth) && filterShape == old(filterShape)
      ensures |gains| != |centerFrequencies| ==>
        o == Fail(InvalidBandCount) && amplificationFactors == old(amplificationFactors)
      ensures |gains| == |centerFrequencies| ==>
        Applied(amplificationFactors, o) == SetGainsFrom(old(amplificationFactors), gains, 0)
    {
      if |gains| != |centerFrequencies| {
        return Fail(InvalidBandCount);
      }
      ghost var start := amplificationFactors;
      for i := 0 to |gains|
        invariant Valid()
        invariant bandwidth == old(bandwidth) && filterShape == old(filterShape)
        invariant SetGainsFrom(amplificationFactors, gains, i) == SetGainsFrom(start, gains, 0)
      {
        o := SetBandGain(i, gains[i]);
        if o.Fail? {
          return;
        }
      }
      o := Pass;
    }

    /** `_create_combined_filter`: zeros, then `combined_filter += normalized_factors[i] * h_i`
        band by band. */
    method CreateCombinedFilter(np: NumPy, nSamples: nat, sampleRate: real) returns (h: seq<real>)
      requires Valid() && Sound(np) && nSamples >= 1 && sampleRate != 0.0
      requires filterShape == "gaussian" ==> bandwidth != 0.0
      ensures h == CombinedFilter(np, nSamples, sampleRate, centerFrequencies, amplificationFactors, bandwidth, filterShape)
    {
      var normalized := NormalizedFactors(amplificationFactors);
      ghost var filters := Equalizer.BandFilters(np, nSamples, sampleRate, centerFrequencies, bandwidth, filterShape);
      var combined := Zeros(nSamples);
      for i := 0 to |centerFrequencies|
        invariant combined == WeightedSum(normalized, filters, nSamples, i)
      {
        var hi := Equalizer.CreateFrequencyFilter(np, nSamples, sampleRate, centerFrequencies[i], bandwidth, filterShape);
        combined := Plus(combined, Times(normalized[i], hi));
      }
      h := combined;
    }

    /** `get_band_info`: (centre, factor) pairs in band order. */
    method GetBandInfo() returns (info: seq<(real, real)>)
      requires Valid()
      ensures |info| == |centerFrequencies|
      ensures forall i :: 0 <= i < |info| ==> info[i] == (centerFrequencies[i], amplificationFactors[i])
    {
      var centers, factors := centerFrequencies, amplificationFactors;
      info := seq(|centers|, i requires 0 <= i < |centers| => (centers[i], factors[i]));
    }
  }
}
