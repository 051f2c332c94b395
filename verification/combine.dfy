/** Combining per-band frequency responses into one, as both multi-band
    equalizers do: `combined_filter += weight_i * h_i` for every band, starting
    from zeros. The weights are factor / 50 in multi_band_equalizer.py and
    10 ** (gain_db / 20) in realtime_equalizer.py. */
module Combination {
  import opened ComplexNumbers
  import opened NumPyModel

  function Zeros(n: nat): (z: seq<real>)
    ensures |z| == n && forall k :: 0 <= k < n ==> z[k] == 0.0
  {
    seq(n, _ => 0.0)
  }

  /** `a + b`, entry by entry. */
  function Plus(a: seq<real>, b: seq<real>): (c: seq<real>)
    requires |a| == |b|
    ensures |c| == |a| && forall k :: 0 <= k < |a| ==> c[k] == a[k] + b[k]
  {
    seq(|a|, k requires 0 <= k < |a| => a[k] + b[k])
  }

  /** `r * a`, entry by entry. */
  function Times(r: real, a: seq<real>): (c: seq<real>)
    ensures |c| == |a| && forall k :: 0 <= k < |a| ==> c[k] == r * a[k]
  {
    seq(|a|, k requires 0 <= k < |a| => r * a[k])
  }

  /** Every band response has n bins, one weight per band. */
  ghost predicate Bands(weights: seq<real>, filters: seq<seq<real>>, n: nat) {
    |weights| == |filters| && forall i :: 0 <= i < |filters| ==> |filters[i]| == n
  }

  /** The sum of weight_i * filter_i over the first m bands. */
  function WeightedSum(weights: seq<real>, filters: seq<seq<real>>, n: nat, m: nat): (h: seq<real>)
    requires Bands(weights, filters, n) && m <= |weights|
    ensures |h| == n
  {
    if m == 0 then Zeros(n)
    else Plus(WeightedSum(weights, filters, n, m - 1), Times(weights[m - 1], filters[m - 1]))
  }

  /** The combined response, all bands summed. */
  function Combined(weights: seq<real>, filters: seq<seq<real>>, n: nat): (h: seq<real>)
    requires Bands(weights, filters, n)
    ensures |h| == n
  {
    WeightedSum(weights, filters, n, |weights|)
  }

  /** The accumulation loop: a zero array, then `combined += weights[i] * filters[i]`. */
  method AccumulateFilters(weights: seq<real>, filters: seq<seq<real>>, n: nat) returns (h: seq<real>)
    requires Bands(weights, filters, n)
    ensures h == Combined(weights, filters, n)
  {
    var combined := new real[n](_ => 0.0);
    assert combined[..] == WeightedSum(weights, filters, n, 0);
    for i := 0 to |weights|
      invariant combined[..] == WeightedSum(weights, filters, n, i)
    {
      ghost var before := combined[..];
      for k := 0 to n
        invariant forall j :: 0 <= j < k ==> combined[j] == before[j] + weights[i] * filters[i][j]
        invariant forall j :: k <= j < n ==> combined[j] == before[j]
      {
        combined[k] := combined[k] + weights[i] * filters[i][k];
      }
      assert combined[..] == WeightedSum(weights, filters, n, i + 1);
    }
    h := combined[..];
  }

  /** Each band's share of a bin is its weight times its response there:
      the sum with band j's weight set to 0.0, plus weight_j * filter_j[k]. */
  lemma {:induction false} BandContribution(weights: seq<real>, filters: seq<seq<real>>, n: nat, m: nat, j: nat, k: nat)
    requires Bands(weights, filters, n) && m <= |weights| && j < |weights| && k < n
    ensures WeightedSum(weights, filters, n, m)[k] ==
      (if j < m then weights[j] * filters[j][k] else 0.0) + WeightedSum(weights[j := 0.0], filters, n, m)[k]
  {
    if m > 0 {
      BandContribution(weights, filters, n, m - 1, j, k);
    }
  }

  /** A band with weight 0.0 contributes nothing, one with weight 1.0 contributes
      its response unchanged. */
  lemma {:induction false} BandWithUnitOrZeroWeight(weights: seq<real>, filters: seq<seq<real>>, n: nat, j: nat, k: nat)
    requires Bands(weights, filters, n) && j < |weights| && k < n
    ensures weights[j] == 0.0 ==> Combined(weights, filters, n)[k] == Combined(weights[j := 0.0], filters, n)[k]
    ensures weights[j] == 1.0 ==> Combined(weights, filters, n)[k] == filters[j][k] + Combined(weights[j := 0.0], filters, n)[k]
  {
    BandContribution(weights, filters, n, |weights|, j, k);
  }

  lemma {:induction false} ResponseOfSum(s: seq<Complex>, a: seq<real>, b: seq<real>)
    requires |a| == |s| && |b| == |s|
    ensures MulByResponse(s, Plus(a, b)) == AddAll(MulByResponse(s, a), MulByResponse(s, b))
  {
    forall k | 0 <= k < |s| ensures MulByResponse(s, Plus(a, b))[k] == AddAll(MulByResponse(s, a), MulByResponse(s, b))[k] {
      assert (a[k] + b[k]) * s[k].re == a[k] * s[k].re + b[k] * s[k].re;
      assert (a[k] + b[k]) * s[k].im == a[k] * s[k].im + b[k] * s[k].im;
    }
  }

  lemma {:induction false} ResponseOfScaled(s: seq<Complex>, r: real, a: seq<real>)
    requires |a| == |s|
    ensures MulByResponse(s, Times(r, a)) == ScaleAll(r, MulByResponse(s, a))
  {
    forall k | 0 <= k < |s| ensures MulByResponse(s, Times(r, a))[k] == ScaleAll(r, MulByResponse(s, a))[k] {
      assert (r * a[k]) * s[k].re == r * (a[k] * s[k].re);
      assert (r * a[k]) * s[k].im == r * (a[k] * s[k].im);
    }
  }

  lemma {:induction false} RealPartsOfSum(u: seq<Complex>, v: seq<Complex>)
    requires |u| == |v|
    ensures RealParts(AddAll(u, v)) == Plus(RealParts(u), RealParts(v))
  {
  }

  lemma {:induction false} RealPartsOfScaled(r: real, u: seq<Complex>)
    ensures RealParts(ScaleAll(r, u)) == Times(r, RealParts(u))
  {
    forall k | 0 <= k < |u| ensures RealParts(ScaleAll(r, u))[k] == Times(r, RealParts(u))[k] {
      assert ScaleAll(r, u)[k] == Scale(r, u[k]);
    }
  }

  /** Filtering is linear in the response. */
  lemma {:induction false} FilterOfSum(np: NumPy, x: seq<real>, a: seq<real>, b: seq<real>)
    requires Sound(np) && |a| == |x| && |b| == |x|
    ensures FilterSpectrum(np, x, Plus(a, b)) == Plus(FilterSpectrum(np, x, a), FilterSpectrum(np, x, b))
  {
    var s := np.fft(ToComplex(x));
    var sa, sb := MulByResponse(s, a), MulByResponse(s, b);
    ResponseOfSum(s, a, b);
    RealPartsOfSum(np.ifft(sa), np.ifft(sb));
  }

  lemma {:induction false} FilterOfScaled(np: NumPy, x: seq<real>, r: real, a: seq<real>)
    requires Sound(np) && |a| == |x|
    ensures FilterSpectrum(np, x, Times(r, a)) == Times(r, FilterSpectrum(np, x, a))
  {
    var s := np.fft(ToComplex(x));
    var sa := MulByResponse(s, a);
    ResponseOfScaled(s, r, a);
    RealPartsOfScaled(r, np.ifft(sa));
  }

  lemma {:induction false} FilterOfZeros(np: NumPy, x: seq<real>)
    requires Sound(np)
    ensures FilterSpectrum(np, x, Zeros(|x|)) == Zeros(|x|)
  {
    FilterOfScaled(np, x, 0.0, Zeros(|x|));
    assert Times(0.0, Zeros(|x|)) == Zeros(|x|);
    assert Times(0.0, FilterSpectrum(np, x, Zeros(|x|))) == Zeros(|x|);
  }

  /** The per-band filtered signals. */
  function FilterEach(np: NumPy, x: seq<real>, filters: seq<seq<real>>): (ys: seq<seq<real>>)
    requires Sound(np) && forall i :: 0 <= i < |filters| ==> |filters[i]| == |x|
    ensures |ys| == |filters| && forall i :: 0 <= i < |ys| ==> |ys[i]| == |x|
  {
    seq(|filters|, i requires 0 <= i < |filters| => FilterSpectrum(np, x, filters[i]))
  }

  /** The equation both equalizers are built on:
      sum_i A_i (x * h_i) = x * (sum_i A_i h_i), with * filtering by a response. */
  lemma {:induction false} CombinedFilterIsSumOfBands(np: NumPy, x: seq<real>, weights: seq<real>, filters: seq<seq<real>>, m: nat)
    requires Sound(np) && Bands(weights, filters, |x|) && m <= |weights|
    ensures FilterSpectrum(np, x, WeightedSum(weights, filters, |x|, m)) ==
      WeightedSum(weights, FilterEach(np, x, filters), |x|, m)
  {
    if m == 0 {
      FilterOfZeros(np, x);
    } else {
      CombinedFilterIsSumOfBands(np, x, weights, filters, m - 1);
      AddOneBand(np, x, weights, filters, m);
    }
  }

  lemma {:induction false} AddOneBand(np: NumPy, x: seq<real>, weights: seq<real>, filters: seq<seq<real>>, m: nat)
    requires Sound(np) && Bands(weights, filters, |x|) && 1 <= m <= |weights|
    requires FilterSpectrum(np, x, WeightedSum(weights, filters, |x|, m - 1)) ==
      WeightedSum(weights, FilterEach(np, x, filters), |x|, m - 1)
    ensures FilterSpectrum(np, x, WeightedSum(weights, filters, |x|, m)) ==
      WeightedSum(weights, FilterEach(np, x, filters), |x|, m)
  {
    var ys := FilterEach(np, x, filters);
    var rest := WeightedSum(weights, filters, |x|, m - 1);
    var band := Times(weights[m - 1], filters[m - 1]);
    FilterOfSum(np, x, rest, band);
    FilterOfScaled(np, x, weights[m - 1], filters[m - 1]);
    assert ys[m - 1] == FilterSpectrum(np, x, filters[m - 1]);
  }
}
