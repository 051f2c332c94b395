/** `apply_parametric_eq`, written identically in src/equalizer.py and
    equalizer.py: a Gaussian bell F of width center / q around the centre
    frequency shapes a response that is 1 + F (A - 1) for a boost and
    1 - F (1 - A) for a cut, A = 10 ** (gain_db / 20); the filtered block is
    then peak-normalised. A gain of 0 dB returns the input itself. */
module ParametricEq {
  import opened NumPyModel
  import opened Signal
  import opened Fft
  import Equalizer

  /** The boost/cut response at one bin, F being the bell's value there. */
  function EqResponse(bell: real, gainLinear: real, gainDb: real): real {
    if gainDb > 0.0 then 1.0 + bell * (gainLinear - 1.0)
    else 1.0 - bell * (1.0 - gainLinear)
  }

  /** With the bell in [0, 1] a boost lies between 1 and A. */
  lemma BoostBounds(bell: real, gainLinear: real, gainDb: real)
    requires 0.0 <= bell <= 1.0 && gainDb > 0.0 && gainLinear >= 1.0
    ensures 1.0 <= EqResponse(bell, gainLinear, gainDb) <= gainLinear
  {
    var c := gainLinear - 1.0;
    FractionOf(bell, c);
    assert EqResponse(bell, gainLinear, gainDb) == 1.0 + bell * c;
  }

  /** With the bell in [0, 1] a cut lies between A and 1. */
  lemma CutBounds(bell: real, gainLinear: real, gainDb: real)
    requires 0.0 <= bell <= 1.0 && gainDb <= 0.0 && gainLinear <= 1.0
    ensures gainLinear <= EqResponse(bell, gainLinear, gainDb) <= 1.0
  {
    var c := 1.0 - gainLinear;
    FractionOf(bell, c);
    assert EqResponse(bell, gainLinear, gainDb) == 1.0 - bell * c;
  }

  /** Far from the centre (bell 0) nothing changes; at the centre (bell 1) the
      response is A itself, for a boost and a cut alike. */
  lemma ResponseAtBellEnds(gainLinear: real, gainDb: real)
    ensures EqResponse(0.0, gainLinear, gainDb) == 1.0
    ensures EqResponse(1.0, gainLinear, gainDb) == gainLinear
  {
  }

  lemma FractionOf(a: real, c: real)
    requires 0.0 <= a <= 1.0 && c >= 0.0
    ensures 0.0 <= a * c <= c
  {
    assert (1.0 - a) * c >= 0.0;
  }

  /** The width `center / q` is non-zero when both are. */
  lemma WidthNonZero(center: real, q: real)
    requires center != 0.0 && q != 0.0
    ensures center / q != 0.0
  {
    assert (center / q) * q == center;
  }

  /** The response over all n bins. */
  function ParametricResponse(np: NumPy, n: nat, sampleRate: real, center: real, gainDb: real, q: real): (r: seq<real>)
    requires Sound(np) && n >= 1 && sampleRate != 0.0 && q != 0.0 && center != 0.0
    ensures |r| == n
    ensures gainDb > 0.0 ==> forall k :: 0 <= k < n ==> 1.0 <= r[k] <= DbToLinear(np, gainDb)
    ensures gainDb < 0.0 ==> forall k :: 0 <= k < n ==> DbToLinear(np, gainDb) <= r[k] <= 1.0
  {
    var gainLinear := DbToLinear(np, gainDb);
    var bandwidth := center / q;
    WidthNonZero(center, q);
    var freqs := FrequencyMagnitudes(n, sampleRate);
    var sigma := Equalizer.Sigma(np, bandwidth);
    var r := seq(n, k requires 0 <= k < n => EqResponse(Gaussian(np, freqs[k], center, sigma), gainLinear, gainDb));
    ResponseBounds(np, freqs, center, sigma, gainLinear, gainDb, r);
    r
  }

  lemma {:induction false} ResponseBounds(np: NumPy, freqs: seq<real>, center: real, sigma: real, gainLinear: real, gainDb: real, r: seq<real>)
    requires Sound(np) && sigma != 0.0 && |r| == |freqs|
    requires gainLinear == DbToLinear(np, gainDb)
    requires forall k :: 0 <= k < |r| ==> r[k] == EqResponse(Gaussian(np, freqs[k], center, sigma), gainLinear, gainDb)
    ensures gainDb > 0.0 ==> forall k :: 0 <= k < |r| ==> 1.0 <= r[k] <= gainLinear
    ensures gainDb < 0.0 ==> forall k :: 0 <= k < |r| ==> gainLinear <= r[k] <= 1.0
  {
    forall k | 0 <= k < |r|
      ensures gainDb > 0.0 ==> 1.0 <= r[k] <= gainLinear
      ensures gainDb < 0.0 ==> gainLinear <= r[k] <= 1.0
    {
      var bell := Gaussian(np, freqs[k], center, sigma);
      if gainDb > 0.0 {
        BoostBounds(bell, gainLinear, gainDb);
      } else if gainDb < 0.0 {
        CutBounds(bell, gainLinear, gainDb);
      }
    }
  }

  /** The filtered block before normalisation. */
  function Shaped(np: NumPy, audio: seq<real>, sampleRate: real, center: real, gainDb: real, q: real): (y: seq<real>)
    requires Sound(np) && |audio| >= 1 && sampleRate != 0.0 && q != 0.0 && center != 0.0
    ensures |y| == |audio|
  {
    FilterSpectrum(np, audio, ParametricResponse(np, |audio|, sampleRate, center, gainDb, q))
  }

  /** `apply_parametric_eq`. A zero gain returns the input before anything is
      computed, so only the other gains need a non-empty input, a non-zero Q and
      a non-zero centre (whose bell would otherwise have zero width). */
  function ApplyParametricEq(np: NumPy, audio: seq<real>, sampleRate: real, center: real, gainDb: real, q: real): (y: seq<real>)
    requires Sound(np)
    requires gainDb != 0.0 ==> |audio| >= 1 && sampleRate != 0.0 && q != 0.0 && center != 0.0
    ensures gainDb == 0.0 ==> y == audio
    ensures |y| == |audio|
    ensures gainDb != 0.0 ==> forall i :: 0 <= i < |y| ==> Abs(y[i]) <= 1.0
    ensures gainDb != 0.0 && MaxAbs(Shaped(np, audio, sampleRate, center, gainDb, q)) <= 1.0 ==>
      y == Shaped(np, audio, sampleRate, center, gainDb, q)
    ensures gainDb != 0.0 && MaxAbs(Shaped(np, audio, sampleRate, center, gainDb, q)) > 1.0 ==>
      MaxAbs(y) == 1.0
  {
    if gainDb == 0.0 then audio
    else PeakNormalize(Shaped(np, audio, sampleRate, center, gainDb, q))
  }
}
