/** The band filters of equalizer.py, built directly in the frequency domain:
    a Gaussian bell around the centre frequency, or a rectangular mask over
    [center - bandwidth / 2, center + bandwidth / 2] clipped to [0, Nyquist].
    Any shape other than "gaussian" takes the rectangular branch. */
module Equalizer {
  import opened NumPyModel
  import opened Fft
  import opened Signal

  /** A frequency band in hertz. */
  datatype Band = Band(low: real, high: real)

  function Max(a: real, b: real): real { if a >= b then a else b }
  function Min(a: real, b: real): real { if a <= b then a else b }

  /** `low_freq = max(0, center - bandwidth / 2)`, `high_freq = min(sample_rate / 2, center + bandwidth / 2)`. */
  function BandLimits(sampleRate: real, center: real, bandwidth: real): (b: Band)
    ensures 0.0 <= b.low && b.high <= sampleRate / 2.0
    ensures b.low == 0.0 || b.low == center - bandwidth / 2.0
    ensures b.high == sampleRate / 2.0 || b.high == center + bandwidth / 2.0
    ensures center - bandwidth / 2.0 <= b.low && b.high <= center + bandwidth / 2.0
  {
    Band(Max(0.0, center - bandwidth / 2.0), Min(sampleRate / 2.0, center + bandwidth / 2.0))
  }

  /** sigma of the bell whose full width at half maximum is `bandwidth`. */
  function Sigma(np: NumPy, bandwidth: real): (s: real)
    requires Sound(np)
    ensures bandwidth != 0.0 <==> s != 0.0
  {
    bandwidth / FwhmFactor(np)
  }

  /** The response the filter specifies: a Gaussian bell, or 1.0 on the bins whose
      frequency lies in the clipped band and 0.0 elsewhere. */
  function FrequencyFilter(np: NumPy, n: nat, sampleRate: real, center: real, bandwidth: real, shape: string): (r: seq<real>)
    requires Sound(np) && n >= 1 && sampleRate != 0.0
    requires shape == "gaussian" ==> bandwidth != 0.0
    ensures |r| == n
    ensures CircularlySymmetric(r)
    ensures forall k :: 0 <= k < n ==> 0.0 <= r[k] <= 1.0
  {
    var freqs := FrequencyMagnitudes(n, sampleRate);
    if shape == "gaussian" then
      seq(n, k requires 0 <= k < n => Gaussian(np, freqs[k], center, Sigma(np, bandwidth)))
    else
      var band := BandLimits(sampleRate, center, bandwidth);
      BandMask(freqs, band)
  }

  /** 1.0 on the bins whose frequency lies in the band, 0.0 elsewhere. */
  function BandMask(freqs: seq<real>, band: Band): (r: seq<real>)
    ensures |r| == |freqs|
    ensures forall k :: 0 <= k < |r| ==> r[k] == if band.low <= freqs[k] <= band.high then 1.0 else 0.0
  {
    seq(|freqs|, k requires 0 <= k < |freqs| => if band.low <= freqs[k] <= band.high then 1.0 else 0.0)
  }

  /** `np.zeros_like(freqs)` then `filter_response[mask] = 1.0`. */
  method CreateBandMask(freqs: seq<real>, band: Band) returns (r: seq<real>)
    ensures r == BandMask(freqs, band)
  {
    var response := new real[|freqs|](_ => 0.0);
    for k := 0 to |freqs|
      invariant forall j :: 0 <= j < k ==> response[j] == if band.low <= freqs[j] <= band.high then 1.0 else 0.0
      invariant forall j :: k <= j < |freqs| ==> response[j] == 0.0
    {
      if band.low <= freqs[k] <= band.high {
        response[k] := 1.0;
      }
    }
    r := response[..];
  }

  /** The Gaussian branch is strictly positive and reaches 1.0 exactly at the bins
      whose frequency equals the centre. */
  lemma {:induction false} GaussianFilterPeak(np: NumPy, n: nat, sampleRate: real, center: real, bandwidth: real, k: nat)
    requires Sound(np) && n >= 1 && sampleRate != 0.0 && bandwidth != 0.0 && k < n
    ensures var r := FrequencyFilter(np, n, sampleRate, center, bandwidth, "gaussian");
      0.0 < r[k] <= 1.0 &&
      (FrequencyMagnitudes(n, sampleRate)[k] == center ==> r[k] == 1.0)
  {
  }

  /** Every shape other than "gaussian" is the rectangular mask: 1.0 exactly on the
      bins with low <= |f| <= high. */
  lemma {:induction false} RectangularFilterIsMask(np: NumPy, n: nat, sampleRate: real, center: real, bandwidth: real, shape: string, k: nat)
    requires Sound(np) && n >= 1 && sampleRate != 0.0 && shape != "gaussian" && k < n
    ensures var r := FrequencyFilter(np, n, sampleRate, center, bandwidth, shape);
      var f := FrequencyMagnitudes(n, sampleRate)[k];
      var band := BandLimits(sampleRate, center, bandwidth);
      (r[k] == 1.0 <==> band.low <= f <= band.high) &&
      (r[k] == 0.0 <==> !(band.low <= f <= band.high))
  {
  }

  /** `create_frequency_filter`. */
  method CreateFrequencyFilter(np: NumPy, n: nat, sampleRate: real, center: real, bandwidth: real, shape: string)
    returns (r: seq<real>)
    requires Sound(np) && n >= 1 && sampleRate != 0.0
    requires shape == "gaussian" ==> bandwidth != 0.0
    ensures r == FrequencyFilter(np, n, sampleRate, center, bandwidth, shape)
  {
    var freqs := FrequencyMagnitudes(n, sampleRate);
    if shape == "gaussian" {
      var sigma := Sigma(np, bandwidth);
      r := seq(n, k requires 0 <= k < n => Gaussian(np, freqs[k], center, sigma));
    } else {
      var band := BandLimits(sampleRate, center, bandwidth);
      r := CreateBandMask(freqs, band);
    }
  }

  /** One band filter per centre frequency, as both multi-band equalizers build them. */
  function BandFilters(np: NumPy, n: nat, sampleRate: real, centers: seq<real>, bandwidth: real, shape: string): (hs: seq<seq<real>>)
    requires Sound(np) && n >= 1 && sampleRate != 0.0
    requires shape == "gaussian" ==> bandwidth != 0.0
    ensures |hs| == |centers|
    ensures forall i :: 0 <= i < |hs| ==> hs[i] == FrequencyFilter(np, n, sampleRate, centers[i], bandwidth, shape)
    ensures forall i :: 0 <= i < |hs| ==> |hs[i]| == n && CircularlySymmetric(hs[i])
    ensures forall i, k :: 0 <= i < |hs| && 0 <= k < n ==> 0.0 <= hs[i][k] <= 1.0
  {
    seq(|centers|, i requires 0 <= i < |centers| => FrequencyFilter(np, n, sampleRate, centers[i], bandwidth, shape))
  }

  /** `apply_bandpass_filter`: the input's spectrum times the filter, back to the
      time domain, real part. */
  function ApplyBandpassFilter(np: NumPy, audio: seq<real>, sampleRate: real, center: real, bandwidth: real, shape: string): (y: seq<real>)
    requires Sound(np) && |audio| >= 1 && sampleRate != 0.0
    requires shape == "gaussian" ==> bandwidth != 0.0
    ensures |y| == |audio|
  {
    FilterSpectrum(np, audio, FrequencyFilter(np, |audio|, sampleRate, center, bandwidth, shape))
  }
}
