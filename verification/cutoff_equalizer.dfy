/** The band filters of src/equalizer.py. Bands are cut at the midpoints
    between neighbouring centre frequencies. A filter is either a windowed-sinc
    band-pass kernel, placed for zero phase and transformed, or a Gaussian bell
    multiplied by a window that is zero outside the band and tapers linearly
    over 10% of the bandwidth at both edges. */
module CutoffEqualizer {
  import opened Outcomes
  import opened ComplexNumbers
  import opened NumPyModel
  import opened Fft
  import opened Signal
  import Equalizer

  /** One band's `(low_cutoff, high_cutoff)` pair, in hertz. */
  datatype Cutoff = Cutoff(low: real, high: real)

  // ---------------------------------------------------------------------------
  // calculate_cutoff_frequencies

  /** One band per centre. Each band's edges are the midpoints to its neighbours.
      The first band starts at 0 Hz and the last one ends at Nyquist. */
  function MidpointCutoffs(centers: seq<real>, sampleRate: real): (cs: seq<Cutoff>)
    ensures |cs| == |centers|
    ensures |cs| > 0 ==> cs[0].low == 0.0 && cs[|cs| - 1].high == sampleRate / 2.0
    ensures forall i {:trigger cs[i]} :: 0 <= i < |cs| - 1 ==> cs[i].high == (centers[i] + centers[i + 1]) / 2.0
    ensures forall i {:trigger cs[i]} :: 0 < i < |cs| ==> cs[i].low == (centers[i - 1] + centers[i]) / 2.0
  {
    var n := |centers|;
    seq(n, i requires 0 <= i < n =>
      Cutoff(if i == 0 then 0.0 else (centers[i - 1] + centers[i]) / 2.0,
             if i == n - 1 then sampleRate / 2.0 else (centers[i] + centers[i + 1]) / 2.0))
  }

  /** The source's loop, appending one pair per band. */
  method CalculateCutoffFrequencies(centers: seq<real>, sampleRate: real) returns (cutoffs: seq<Cutoff>)
    ensures cutoffs == MidpointCutoffs(centers, sampleRate)
  {
    cutoffs := [];
    var n := |centers|;
    for i := 0 to n
      invariant cutoffs == MidpointCutoffs(centers, sampleRate)[..i]
    {
      var low, high;
      if i == 0 {
        low := 0.0;
      } else {
        low := (centers[i - 1] + centers[i]) / 2.0;
      }
      if i == n - 1 {
        high := sampleRate / 2.0;
      } else {
        high := (centers[i] + centers[i + 1]) / 2.0;
      }
      ghost var all := MidpointCutoffs(centers, sampleRate);
      assert all[..i + 1] == all[..i] + [all[i]];
      cutoffs := cutoffs + [Cutoff(low, high)];
    }
  }

  /** Take strictly increasing centres, the first above 0 Hz and the last below
      Nyquist. Then every centre lies strictly inside its own band. */
  lemma {:induction false} CutoffsBracketCenters(centers: seq<real>, sampleRate: real)
    requires |centers| >= 1 && centers[0] > 0.0 && centers[|centers| - 1] < sampleRate / 2.0
    requires forall i, j :: 0 <= i < j < |centers| ==> centers[i] < centers[j]
    ensures var cs := MidpointCutoffs(centers, sampleRate);
      forall i :: 0 <= i < |cs| ==> cs[i].low < centers[i] < cs[i].high
  {
  }

  // ---------------------------------------------------------------------------
  // create_bandpass_impulse_response

  /** A frequency in hertz as radians per sample: `2 * np.pi * f / sample_rate`. */
  function Omega(np: NumPy, f: real, sampleRate: real): real
    requires sampleRate != 0.0
  {
    2.0 * np.pi * f / sampleRate
  }

  /** (w / pi) sinc(w k / pi), the ideal low-pass kernel of cutoff w at tap k. */
  function SincTerm(np: NumPy, w: real, k: int): real
    requires Sound(np)
  {
    (w / np.pi) * np.sinc(w * k as real / np.pi)
  }

  /** Tap k of the ideal band-pass kernel: (w2 - w1) / pi at k = 0, the
      difference of the two low-pass kernels elsewhere. */
  function Tap(np: NumPy, sampleRate: real, low: real, high: real, k: int): real
    requires Sound(np) && sampleRate != 0.0
  {
    var w1, w2 := Omega(np, low, sampleRate), Omega(np, high, sampleRate);
    if k == 0 then (w2 - w1) / np.pi
    else SincTerm(np, w2, k) - SincTerm(np, w1, k)
  }

  /** The centre tap (w2 - w1) / pi is 2 (high - low) / sample_rate. */
  lemma TapAtCentre(np: NumPy, sampleRate: real, low: real, high: real)
    requires Sound(np) && sampleRate != 0.0
    ensures Tap(np, sampleRate, low, high, 0) == 2.0 * (high - low) / sampleRate
  {
    var w1, w2 := Omega(np, low, sampleRate), Omega(np, high, sampleRate);
    assert w2 - w1 == np.pi * (2.0 * (high - low) / sampleRate);
  }

  /** np.sinc is even, so each low-pass kernel is symmetric about tap 0. */
  lemma {:induction false} SincTermSymmetric(np: NumPy, w: real, k: int)
    requires Sound(np)
    ensures SincTerm(np, w, -k) == SincTerm(np, w, k)
  {
    NegatedArgument(w, k, np.pi);
  }

  lemma {:induction false} NegatedArgument(w: real, k: int, p: real)
    requires p != 0.0
    ensures w * (-k) as real / p == -(w * k as real / p)
  {
    assert w * (-k) as real == -(w * k as real);
  }

  /** The band-pass kernel is symmetric about its centre. */
  lemma {:induction false} TapSymmetric(np: NumPy, sampleRate: real, low: real, high: real, k: int)
    requires Sound(np) && sampleRate != 0.0
    ensures Tap(np, sampleRate, low, high, -k) == Tap(np, sampleRate, low, high, k)
  {
    SincTermSymmetric(np, Omega(np, low, sampleRate), k);
    SincTermSymmetric(np, Omega(np, high, sampleRate), k);
  }

  /** `filter_length`, plus one when even. */
  function OddLength(filterLength: nat): (l: nat)
    ensures l % 2 == 1 && filterLength <= l <= filterLength + 1
    ensures filterLength % 2 == 1 ==> l == filterLength
  {
    if filterLength % 2 == 0 then filterLength + 1 else filterLength
  }

  /** The taps -M..M of an odd-length kernel, M = length / 2 (the source's
      `(filter_length - 1) // 2`): h[M + k] = Tap(k). */
  function Kernel(np: NumPy, length: nat, sampleRate: real, low: real, high: real): (h: seq<real>)
    requires Sound(np) && sampleRate != 0.0
    ensures |h| == length
  {
    seq(length, j requires 0 <= j < length => Tap(np, sampleRate, low, high, j - length / 2))
  }

  lemma {:induction false} KernelCentre(np: NumPy, length: nat, sampleRate: real, low: real, high: real)
    requires Sound(np) && sampleRate != 0.0 && length % 2 == 1
    ensures Kernel(np, length, sampleRate, low, high)[length / 2] == 2.0 * (high - low) / sampleRate
  {
    TapAtCentre(np, sampleRate, low, high);
  }

  lemma {:induction false} KernelSymmetric(np: NumPy, length: nat, sampleRate: real, low: real, high: real)
    requires Sound(np) && sampleRate != 0.0 && length % 2 == 1
    ensures Palindrome(Kernel(np, length, sampleRate, low, high))
  {
    var h := Kernel(np, length, sampleRate, low, high);
    forall i, j | 0 <= i < |h| && i + j == |h| - 1 ensures h[i] == h[j] {
      TapSymmetric(np, sampleRate, low, high, i - length / 2);
    }
  }

  /** The kernel of `create_bandpass_impulse_response`: `filter_length` made odd,
      with the centre tap 2 (high - low) / sample_rate and mirror-symmetric taps. */
  function BandpassImpulse(np: NumPy, filterLength: nat, sampleRate: real, low: real, high: real): (h: seq<real>)
    requires Sound(np) && sampleRate != 0.0
    ensures |h| == OddLength(filterLength)
    ensures h[|h| / 2] == 2.0 * (high - low) / sampleRate
    ensures Palindrome(h)
  {
    var length := OddLength(filterLength);
    KernelCentre(np, length, sampleRate, low, high);
    KernelSymmetric(np, length, sampleRate, low, high);
    Kernel(np, length, sampleRate, low, high)
  }

  /** The source writes h[M] first, then every other tap through the mask n != 0. */
  method CreateBandpassImpulseResponse(np: NumPy, filterLength: nat, sampleRate: real, low: real, high: real)
    returns (h: seq<real>)
    requires Sound(np) && sampleRate != 0.0
    ensures h == BandpassImpulse(np, filterLength, sampleRate, low, high)
  {
    var length := filterLength;
    if length % 2 == 0 {
      length := length + 1;
    }
    var w1, w2 := Omega(np, low, sampleRate), Omega(np, high, sampleRate);
    var m := (length - 1) / 2;
    var taps := seq(length, _ => 0.0);
    taps := taps[m := (w2 - w1) / np.pi];
    for j := 0 to length
      invariant |taps| == length
      invariant taps[m] == Tap(np, sampleRate, low, high, 0)
      invariant forall i :: 0 <= i < j ==> taps[i] == Tap(np, sampleRate, low, high, i - m)
    {
      if j != m {
        taps := taps[j := SincTerm(np, w2, j - m) - SincTerm(np, w1, j - m)];
      }
    }
    h := taps;
    assert m == |h| / 2;
    TapsAreKernel(np, sampleRate, low, high, h);
    assert length == OddLength(filterLength);
  }

  lemma {:induction false} TapsAreKernel(np: NumPy, sampleRate: real, low: real, high: real, h: seq<real>)
    requires Sound(np) && sampleRate != 0.0
    requires forall i :: 0 <= i < |h| ==> h[i] == Tap(np, sampleRate, low, high, i - |h| / 2)
    ensures h == Kernel(np, |h|, sampleRate, low, high)
  {
  }

  /** `h * np.hamming(len(h))`. */
  function Windowed(np: NumPy, h: seq<real>): (w: seq<real>)
    ensures |w| == |h|
  {
    seq(|h|, j requires 0 <= j < |h| => h[j] * np.hamming(j, |h|))
  }

  /** The Hamming window is symmetric, so windowing keeps a kernel symmetric. */
  lemma {:induction false} WindowedPalindrome(np: NumPy, h: seq<real>)
    requires Sound(np) && Palindrome(h)
    ensures Palindrome(Windowed(np, h))
  {
    var w := Windowed(np, h);
    forall i, j | 0 <= i < |w| && i + j == |w| - 1 ensures w[i] == w[j] {
      assert np.hamming(i, |h|) == np.hamming(j, |h|);
    }
  }

  // ---------------------------------------------------------------------------
  // The sinc kernel's length and placement

  /** Python's `int()` of a float: the integer part, rounded toward zero. */
  function Trunc(x: real): (i: int)
    ensures x >= 0.0 ==> i as real <= x < i as real + 1.0
    ensures x < 0.0 ==> i as real - 1.0 < x <= i as real
  {
    if x >= 0.0 then x.Floor else -((-x).Floor)
  }

  /** The steps are: `int(4 * sample_rate / max(bandwidth, 1))`, capped at
      `n_samples // 2`, raised to the next odd number, and at least 3. The result
      is always odd and at least 3. It is exactly 3 up to 5 samples, and from 3
      samples on it never exceeds n_samples. */
  function SincKernelLength(sampleRate: real, effectiveBandwidth: real, n: nat): (l: nat)
    ensures l >= 3 && l % 2 == 1
    ensures n <= 5 ==> l == 3
    ensures n >= 3 ==> l <= n
  {
    var rough := Trunc(4.0 * sampleRate / Equalizer.Max(effectiveBandwidth, 1.0));
    var capped := if rough <= n / 2 then rough else n / 2;
    var odd := if capped % 2 == 0 then capped + 1 else capped;
    if odd >= 3 then odd else 3
  }

  /** Zero-phase placement into n samples: `h_padded[:M+1] = h[M:]` then
      `h_padded[-M:] = h[:M]`, M = len(h) // 2. Where the two slices overlap the
      second write wins. The first assignment is a shape error when n < M + 1. */
  function ZeroPhasePlacement(h: seq<real>, n: nat): (r: Result<seq<real>>)
    requires |h| % 2 == 1 && |h| >= 3
    ensures r.Err? <==> |h| / 2 + 1 > n
    ensures r.Err? ==> r.error == ShapeMismatch
    ensures r.Ok? ==> |r.value| == n && r.value[0] == h[|h| / 2]
    ensures r.Ok? ==> forall j :: n - |h| / 2 <= j < n ==> r.value[j] == h[j - (n - |h| / 2)]
    ensures r.Ok? ==> forall j :: 0 <= j < n - |h| / 2 && j <= |h| / 2 ==> r.value[j] == h[|h| / 2 + j]
  {
    var m := |h| / 2;
    if m + 1 > n then Err(ShapeMismatch)
    else Ok(seq(n, j requires 0 <= j < n =>
      if j >= n - m then h[j - (n - m)] else if j <= m then h[m + j] else 0.0))
  }

  /** When the kernel fits (2M + 1 <= n), the upper half h[M..] opens the buffer,
      the lower half h[..M] closes it, and everything between is zero. */
  lemma {:induction false} ZeroPhaseLayout(h: seq<real>, n: nat)
    requires |h| % 2 == 1 && |h| >= 3 && |h| <= n
    ensures var m := |h| / 2;
      var r := ZeroPhasePlacement(h, n);
      r.Ok? &&
      (forall j :: 0 <= j <= m ==> r.value[j] == h[m + j]) &&
      (forall j :: 0 <= j < m ==> r.value[n - m + j] == h[j]) &&
      (forall j :: m < j < n - m ==> r.value[j] == 0.0)
  {
  }

  /** A kernel symmetric about its centre becomes circularly symmetric:
      padded[j] == padded[n - j]. This is what makes its transform real. */
  lemma {:induction false} ZeroPhaseCircularSymmetry(h: seq<real>, n: nat)
    requires |h| % 2 == 1 && |h| >= 3 && |h| <= n
    requires Palindrome(h)
    ensures var r := ZeroPhasePlacement(h, n);
      r.Ok? && r.value[0] == h[|h| / 2] &&
      CircularlySymmetric(r.value)
  {
    var m := |h| / 2;
    var p := ZeroPhasePlacement(h, n).value;
    forall j, l | 0 < j < n && j + l == n ensures p[j] == p[l] {
      if j <= m {
        assert p[l] == h[m - j];
        assert h[m + j] == h[m - j];
      } else if j >= n - m {
        assert p[j] == h[m - l];
        assert h[m + l] == h[m - l];
      }
    }
  }

  /** The windowed kernel of the sinc branch, placed into n >= 2 samples, is
      circularly symmetric with the centre tap at index 0. */
  lemma {:induction false} SincPlacementSymmetric(np: NumPy, n: nat, sampleRate: real, e: Effective)
    requires Sound(np) && n >= 2 && sampleRate != 0.0
    ensures var h := Windowed(np, BandpassImpulse(np, SincKernelLength(sampleRate, e.width, n), sampleRate, e.low, e.high));
      var r := ZeroPhasePlacement(h, n);
      r.Ok? && r.value[0] == h[|h| / 2] && CircularlySymmetric(r.value)
  {
    var length := SincKernelLength(sampleRate, e.width, n);
    var kernel := BandpassImpulse(np, length, sampleRate, e.low, e.high);
    var h := Windowed(np, kernel);
    assert |h| == length;
    WindowedPalindrome(np, kernel);
    if n > 2 {
      ZeroPhaseCircularSymmetry(h, n);
    }
  }

  /** The source's two slice assignments. */
  method PlaceZeroPhase(h: seq<real>, n: nat) returns (r: Result<seq<real>>)
    requires |h| % 2 == 1 && |h| >= 3
    ensures r == ZeroPhasePlacement(h, n)
  {
    var m := |h| / 2;
    if m + 1 > n {
      return Err(ShapeMismatch);
    }
    var padded := new real[n](_ => 0.0);
    for j := 0 to m + 1
      invariant forall i :: 0 <= i < j ==> padded[i] == h[m + i]
      invariant forall i :: j <= i < n ==> padded[i] == 0.0
    {
      padded[j] := h[m + j];
    }
    for j := 0 to m
      invariant forall i :: n - m <= i < n - m + j ==> padded[i] == h[i - (n - m)]
      invariant forall i :: 0 <= i < n && !(n - m <= i < n - m + j) ==>
        padded[i] == if i <= m then h[m + i] else 0.0
    {
      padded[n - m + j] := h[j];
    }
    assert padded[..] == ZeroPhasePlacement(h, n).value;
    r := Ok(padded[..]);
  }

  // ---------------------------------------------------------------------------
  // Effective cutoffs

  /** The band the filter uses, and the bandwidth its shape is computed from. */
  datatype Effective = Effective(low: real, high: real, width: real)

  /** Explicit cutoffs, when both are given, are clipped to [0, Nyquist] and the
      width is what remains between them. Otherwise the band is
      center +- bandwidth / 2, clipped the same way, and the width is `bandwidth`. */
  function EffectiveCutoffs(sampleRate: real, center: real, bandwidth: real,
                            lowCutoff: Option<real>, highCutoff: Option<real>): (e: Effective)
    ensures 0.0 <= e.low && e.high <= sampleRate / 2.0
    ensures lowCutoff.Some? && highCutoff.Some? ==>
      e.width == e.high - e.low &&
      e.low == Equalizer.Max(0.0, lowCutoff.value) && e.high == Equalizer.Min(sampleRate / 2.0, highCutoff.value)
    ensures !(lowCutoff.Some? && highCutoff.Some?) ==>
      e.width == bandwidth && Equalizer.Band(e.low, e.high) == Equalizer.BandLimits(sampleRate, center, bandwidth)
  {
    if lowCutoff.Some? && highCutoff.Some? then
      var low := Equalizer.Max(0.0, lowCutoff.value);
      var high := Equalizer.Min(sampleRate / 2.0, highCutoff.value);
      Effective(low, high, high - low)
    else
      var band := Equalizer.BandLimits(sampleRate, center, bandwidth);
      Effective(band.low, band.high, bandwidth)
  }

  // ---------------------------------------------------------------------------
  // The Gaussian branch's window, one masked write at a time

  function ZeroBelow(f: real, low: real, w: real): real { if f < low then 0.0 else w }
  function ZeroAbove(f: real, high: real, w: real): real { if f > high then 0.0 else w }

  function RisingEdge(f: real, low: real, tw: real, w: real): real
    requires tw > 0.0
  {
    if low <= f < low + tw then (f - low) / tw else w
  }

  function FallingEdge(f: real, high: real, tw: real, w: real): real
    requires tw > 0.0
  {
    if high - tw < f <= high then (high - f) / tw else w
  }

  /** The window at frequency f. Start from ones, zero below `low`, zero above
      `high`. If the transition width tw is positive, then write the rising edge
      (f - low) / tw on [low, low + tw) and the falling edge (high - f) / tw on
      (high - tw, high], in that order. */
  function TaperWindow(f: real, low: real, high: real, tw: real): (w: real)
    ensures 0.0 <= w <= 1.0
  {
    var clipped := ZeroAbove(f, high, ZeroBelow(f, low, 1.0));
    if tw > 0.0 then
      EdgeInUnit(f - low, tw);
      EdgeInUnit(high - f, tw);
      FallingEdge(f, high, tw, RisingEdge(f, low, tw, clipped))
    else clipped
  }

  lemma EdgeInUnit(d: real, tw: real)
    requires tw > 0.0
    ensures 0.0 <= d < tw ==> 0.0 <= d / tw < 1.0
  {
    if 0.0 <= d < tw {
      var q := d / tw;
      assert q * tw == d;
      MulNonNeg(d, 1.0 / tw);
      assert (1.0 - q) * tw == tw - d;
    }
  }

  lemma MulNonNeg(x: real, y: real)
    requires x >= 0.0 && y >= 0.0
    ensures x * y >= 0.0
  {
  }

  /** The window is 1 between low + tw and high - tw. It is 0 outside [low, high]
      whenever the edges fit inside the band (tw <= high - low) or there are no
      edges (tw <= 0). */
  lemma TaperWindowShape(f: real, low: real, high: real, tw: real)
    ensures 0.0 <= tw && low + tw <= f <= high - tw ==> TaperWindow(f, low, high, tw) == 1.0
    ensures (tw <= 0.0 || tw <= high - low) && (f < low || f > high) ==> TaperWindow(f, low, high, tw) == 0.0
  {
  }

  /** The window over all bins. */
  function WindowOf(freqs: seq<real>, low: real, high: real, tw: real): (w: seq<real>)
    ensures |w| == |freqs|
    ensures forall k :: 0 <= k < |w| ==> 0.0 <= w[k] <= 1.0
  {
    seq(|freqs|, k requires 0 <= k < |freqs| => TaperWindow(freqs[k], low, high, tw))
  }

  /** The four masked writes of the source, each over the whole array. */
  method GaussianWindow(freqs: seq<real>, low: real, high: real, tw: real) returns (w: seq<real>)
    ensures w == WindowOf(freqs, low, high, tw)
  {
    var n := |freqs|;
    var window := new real[n](_ => 1.0);
    for k := 0 to n
      invariant forall j :: 0 <= j < k ==> window[j] == ZeroBelow(freqs[j], low, 1.0)
      invariant forall j :: k <= j < n ==> window[j] == 1.0
    {
      if freqs[k] < low { window[k] := 0.0; }
    }
    for k := 0 to n
      invariant forall j :: 0 <= j < k ==> window[j] == ZeroAbove(freqs[j], high, ZeroBelow(freqs[j], low, 1.0))
      invariant forall j :: k <= j < n ==> window[j] == ZeroBelow(freqs[j], low, 1.0)
    {
      if freqs[k] > high { window[k] := 0.0; }
    }
    if tw > 0.0 {
      for k := 0 to n
        invariant forall j :: 0 <= j < k ==>
          window[j] == RisingEdge(freqs[j], low, tw, ZeroAbove(freqs[j], high, ZeroBelow(freqs[j], low, 1.0)))
        invariant forall j :: k <= j < n ==> window[j] == ZeroAbove(freqs[j], high, ZeroBelow(freqs[j], low, 1.0))
      {
        if low <= freqs[k] < low + tw { window[k] := (freqs[k] - low) / tw; }
      }
      for k := 0 to n
        invariant forall j :: 0 <= j < k ==> window[j] == TaperWindow(freqs[j], low, high, tw)
        invariant forall j :: k <= j < n ==>
          window[j] == RisingEdge(freqs[j], low, tw, ZeroAbove(freqs[j], high, ZeroBelow(freqs[j], low, 1.0)))
      {
        if high - tw < freqs[k] <= high { window[k] := (high - freqs[k]) / tw; }
      }
    }
    w := window[..];
  }

  // ---------------------------------------------------------------------------
  // create_frequency_filter

  /** The bell `np.exp(-0.5 * ((freqs - center) / sigma) ** 2)` over all bins. */
  function Bell(np: NumPy, freqs: seq<real>, center: real, sigma: real): (b: seq<real>)
    requires Sound(np) && sigma != 0.0
    ensures |b| == |freqs|
    ensures forall k :: 0 <= k < |b| ==> 0.0 < b[k] <= 1.0
    ensures forall k :: 0 <= k < |b| && freqs[k] == center ==> b[k] == 1.0
  {
    seq(|freqs|, k requires 0 <= k < |freqs| => Gaussian(np, freqs[k], center, sigma))
  }

  /** Bin-by-bin product, `filter_response *= window`. */
  function Product(a: seq<real>, b: seq<real>): (p: seq<real>)
    requires |a| == |b|
    ensures |p| == |a|
    ensures forall k :: 0 <= k < |p| ==> p[k] == a[k] * b[k]
  {
    seq(|a|, k requires 0 <= k < |a| => a[k] * b[k])
  }

  /** The Gaussian branch: the bell of width `effective_bandwidth` times the
      window, whose transition width is 10% of that bandwidth. */
  function GaussianResponse(np: NumPy, freqs: seq<real>, center: real, e: Effective): (r: seq<real>)
    requires Sound(np) && e.width != 0.0
    ensures |r| == |freqs|
  {
    Product(Bell(np, freqs, center, Equalizer.Sigma(np, e.width)), WindowOf(freqs, e.low, e.high, 0.1 * e.width))
  }

  /** Every bin of the Gaussian branch lies in [0, 1]. */
  lemma {:induction false} GaussianResponseInUnit(np: NumPy, freqs: seq<real>, center: real, e: Effective)
    requires Sound(np) && e.width != 0.0
    ensures forall k :: 0 <= k < |freqs| ==> 0.0 <= GaussianResponse(np, freqs, center, e)[k] <= 1.0
  {
    var bell := Bell(np, freqs, center, Equalizer.Sigma(np, e.width));
    var window := WindowOf(freqs, e.low, e.high, 0.1 * e.width);
    ProductsInUnit(bell, window);
    assert GaussianResponse(np, freqs, center, e) == Product(bell, window);
  }

  lemma {:induction false} ProductsInUnit(a: seq<real>, b: seq<real>)
    requires |a| == |b|
    requires forall k :: 0 <= k < |a| ==> 0.0 <= a[k] <= 1.0
    requires forall k :: 0 <= k < |b| ==> 0.0 <= b[k] <= 1.0
    ensures forall k :: 0 <= k < |a| ==> 0.0 <= Product(a, b)[k] <= 1.0
  {
    forall k | 0 <= k < |a| ensures 0.0 <= Product(a, b)[k] <= 1.0 {
      UnitProduct(a[k], b[k]);
    }
  }

  lemma UnitProduct(a: real, b: real)
    requires 0.0 <= a <= 1.0 && 0.0 <= b <= 1.0
    ensures 0.0 <= a * b <= 1.0
  {
    MulNonNeg(a, 1.0 - b);
    MulNonNeg(a, b);
    assert a * (1.0 - b) == a - a * b;
  }

  /** The sinc branch: kernel, Hamming window, zero-phase placement, then the
      magnitude of its transform. */
  function SincResponse(np: NumPy, n: nat, sampleRate: real, e: Effective): (r: Result<seq<real>>)
    requires Sound(np) && n >= 1 && sampleRate != 0.0
    ensures r.Err? <==> n == 1
    ensures r.Err? ==> r.error == ShapeMismatch
    ensures r.Ok? ==> |r.value| == n && forall k :: 0 <= k < n ==> r.value[k] >= 0.0
  {
    var length := SincKernelLength(sampleRate, e.width, n);
    var h := Windowed(np, BandpassImpulse(np, length, sampleRate, e.low, e.high));
    var placed := ZeroPhasePlacement(h, n);
    if placed.Err? then Err(placed.error)
    else
      var spectrum := np.fft(ToComplex(placed.value));
      Ok(seq(n, k requires 0 <= k < n => Modulus(np, spectrum[k])))
  }

  /** Filter shapes other than "sinc" and "gaussian" are an error. The Gaussian
      branch needs a non-zero width for its bell. */
  ghost predicate FilterArguments(np: NumPy, n: nat, sampleRate: real, center: real, bandwidth: real,
                                  lowCutoff: Option<real>, highCutoff: Option<real>, shape: string) {
    && Sound(np) && n >= 1 && sampleRate != 0.0
    && (shape == "gaussian" ==> EffectiveCutoffs(sampleRate, center, bandwidth, lowCutoff, highCutoff).width != 0.0)
  }

  function FrequencyFilter(np: NumPy, n: nat, sampleRate: real, center: real, bandwidth: real,
                           lowCutoff: Option<real>, highCutoff: Option<real>, shape: string): (r: Result<seq<real>>)
    requires FilterArguments(np, n, sampleRate, center, bandwidth, lowCutoff, highCutoff, shape)
    ensures shape != "sinc" && shape != "gaussian" ==> r == Err(UnknownFilterShape)
    ensures shape == "gaussian" ==> r.Ok? && |r.value| == n && forall k :: 0 <= k < n ==> 0.0 <= r.value[k] <= 1.0
    ensures shape == "sinc" ==> (r.Ok? <==> n >= 2) && (r.Err? ==> r.error == ShapeMismatch)
    ensures shape == "sinc" && r.Ok? ==> |r.value| == n && forall k :: 0 <= k < n ==> r.value[k] >= 0.0
  {
    var freqs := FrequencyMagnitudes(n, sampleRate);
    var e := EffectiveCutoffs(sampleRate, center, bandwidth, lowCutoff, highCutoff);
    if shape == "sinc" then SincResponse(np, n, sampleRate, e)
    else if shape == "gaussian" then
      GaussianResponseInUnit(np, freqs, center, e);
      Ok(GaussianResponse(np, freqs, center, e))
    else Err(UnknownFilterShape)
  }

  /** The dispatch with shape "gaussian" is the Gaussian branch. */
  lemma {:induction false} GaussianBranch(np: NumPy, n: nat, sampleRate: real, center: real, bandwidth: real,
                       lowCutoff: Option<real>, highCutoff: Option<real>)
    requires FilterArguments(np, n, sampleRate, center, bandwidth, lowCutoff, highCutoff, "gaussian")
    ensures FrequencyFilter(np, n, sampleRate, center, bandwidth, lowCutoff, highCutoff, "gaussian") ==
      Ok(GaussianResponse(np, FrequencyMagnitudes(n, sampleRate), center,
                          EffectiveCutoffs(sampleRate, center, bandwidth, lowCutoff, highCutoff)))
  {
  }

  /** Where the window is 0 the response is 0; where it is 1 the response is the bell. */
  lemma {:induction false} GaussianResponseByWindow(np: NumPy, freqs: seq<real>, center: real, e: Effective, k: nat)
    requires Sound(np) && e.width != 0.0 && k < |freqs|
    ensures WindowOf(freqs, e.low, e.high, 0.1 * e.width)[k] == 0.0 ==>
      GaussianResponse(np, freqs, center, e)[k] == 0.0
    ensures WindowOf(freqs, e.low, e.high, 0.1 * e.width)[k] == 1.0 ==>
      GaussianResponse(np, freqs, center, e)[k] == Bell(np, freqs, center, Equalizer.Sigma(np, e.width))[k]
  {
    ProductByFactor(Bell(np, freqs, center, Equalizer.Sigma(np, e.width)), WindowOf(freqs, e.low, e.high, 0.1 * e.width), k);
  }

  /** A factor of 0 gives 0 and a factor of 1 gives the other factor. */
  lemma {:induction false} ProductByFactor(a: seq<real>, b: seq<real>, k: nat)
    requires |a| == |b| && k < |a|
    ensures b[k] == 0.0 ==> Product(a, b)[k] == 0.0
    ensures b[k] == 1.0 ==> Product(a, b)[k] == a[k]
  {
  }

  /** With explicit cutoffs the effective width is high - low, so the taper
      width, a tenth of it, always fits in the band. */
  lemma ExplicitCutoffsTaperFits(sampleRate: real, center: real, bandwidth: real,
                                 lowCutoff: Option<real>, highCutoff: Option<real>)
    requires lowCutoff.Some? && highCutoff.Some?
    ensures var e := EffectiveCutoffs(sampleRate, center, bandwidth, lowCutoff, highCutoff);
      0.1 * e.width <= 0.0 || 0.1 * e.width <= e.high - e.low
  {
  }

  /** A band the clip narrowed can still hold its tapers: at 180 Hz, a centre of
      100 Hz and a bandwidth of 50 Hz the band is [75, 90] and the taper 5 Hz. */
  lemma NarrowedBandTaperFits()
    ensures var e := EffectiveCutoffs(180.0, 100.0, 50.0, None, None);
      e.low == 75.0 && e.high == 90.0 && e.high - e.low != e.width &&
      0.1 * e.width <= e.high - e.low
  {
  }

  /** Whenever the taper width fits in the band (always so with explicit
      cutoffs), the Gaussian response is exactly zero at every bin outside
      [low_freq, high_freq]. The source leaks only when the clipping to
      [0, Nyquist] leaves the band narrower than the taper width. */
  lemma {:induction false} GaussianZeroOutsideBand(np: NumPy, n: nat, sampleRate: real, center: real, bandwidth: real,
                                lowCutoff: Option<real>, highCutoff: Option<real>, k: nat)
    requires FilterArguments(np, n, sampleRate, center, bandwidth, lowCutoff, highCutoff, "gaussian") && k < n
    requires var e := EffectiveCutoffs(sampleRate, center, bandwidth, lowCutoff, highCutoff);
      0.1 * e.width <= 0.0 || 0.1 * e.width <= e.high - e.low
    ensures var e := EffectiveCutoffs(sampleRate, center, bandwidth, lowCutoff, highCutoff);
      var f := FrequencyMagnitudes(n, sampleRate)[k];
      f < e.low || f > e.high ==>
        FrequencyFilter(np, n, sampleRate, center, bandwidth, lowCutoff, highCutoff, "gaussian").value[k] == 0.0
  {
    var e := EffectiveCutoffs(sampleRate, center, bandwidth, lowCutoff, highCutoff);
    var freqs := FrequencyMagnitudes(n, sampleRate);
    TaperWindowShape(freqs[k], e.low, e.high, 0.1 * e.width);
    GaussianResponseByWindow(np, freqs, center, e, k);
    GaussianBranch(np, n, sampleRate, center, bandwidth, lowCutoff, highCutoff);
  }

  /** The source's tapers are not confined to [low_freq, high_freq]. When the
      clip to [0, Nyquist] leaves a band narrower than the taper width, the
      falling edge reaches below the band. With 8 samples at 8 Hz, a centre of
      14 Hz and a bandwidth of 20 Hz, the band is [4, 4] and the taper width 2,
      and the bin at 3 Hz keeps half the window. */
  lemma GaussianLeaksBelowNarrowedBand(np: NumPy)
    requires Sound(np)
    ensures var e := EffectiveCutoffs(8.0, 14.0, 20.0, None, None);
      var freqs := FrequencyMagnitudes(8, 8.0);
      e.low == 4.0 && e.high == 4.0 && freqs[3] == 3.0 &&
      WindowOf(freqs, e.low, e.high, 0.1 * e.width)[3] == 0.5 &&
      FrequencyFilter(np, 8, 8.0, 14.0, 20.0, None, None, "gaussian").value[3] > 0.0
  {
    var e := EffectiveCutoffs(8.0, 14.0, 20.0, None, None);
    var freqs := FrequencyMagnitudes(8, 8.0);
    assert BinFrequency(8, 1.0 / 8.0, 3) == 3.0;
    var bell := Bell(np, freqs, 14.0, Equalizer.Sigma(np, e.width));
    var window := WindowOf(freqs, e.low, e.high, 0.1 * e.width);
    assert window[3] == 0.5;
    GaussianBranch(np, 8, 8.0, 14.0, 20.0, None, None);
    assert GaussianResponse(np, freqs, 14.0, e)[3] == bell[3] * window[3];
  }

  /** The window the comment at src/equalizer.py:174-175 describes: the taper
      values inside [low, high] and 0 outside it, whatever the taper width. */
  function BandLimitedWindow(f: real, low: real, high: real, tw: real): (w: real)
    ensures 0.0 <= w <= 1.0
    ensures f < low || f > high ==> w == 0.0
  {
    if f < low || f > high then 0.0 else TaperWindow(f, low, high, tw)
  }

  /** The corrected window changes nothing when the tapers fit inside the band
      or there are none; then the source's window is already band-limited. */
  lemma BandLimitedWindowAgrees(f: real, low: real, high: real, tw: real)
    requires tw <= 0.0 || tw <= high - low
    ensures BandLimitedWindow(f, low, high, tw) == TaperWindow(f, low, high, tw)
  {
    TaperWindowShape(f, low, high, tw);
  }

  /** The corrected window over all bins. */
  function BandLimitedWindowOf(freqs: seq<real>, low: real, high: real, tw: real): (w: seq<real>)
    ensures |w| == |freqs|
    ensures forall k :: 0 <= k < |w| ==> 0.0 <= w[k] <= 1.0
    ensures forall k :: 0 <= k < |w| && (freqs[k] < low || freqs[k] > high) ==> w[k] == 0.0
  {
    seq(|freqs|, k requires 0 <= k < |freqs| => BandLimitedWindow(freqs[k], low, high, tw))
  }

  /** The Gaussian branch with the corrected window: zero at every bin outside
      [low, high]. */
  function BandLimitedGaussianResponse(np: NumPy, freqs: seq<real>, center: real, e: Effective): (r: seq<real>)
    requires Sound(np) && e.width != 0.0
    ensures |r| == |freqs|
    ensures forall k :: 0 <= k < |r| ==> 0.0 <= r[k] <= 1.0
    ensures forall k :: 0 <= k < |r| && (freqs[k] < e.low || freqs[k] > e.high) ==> r[k] == 0.0
  {
    var bell := Bell(np, freqs, center, Equalizer.Sigma(np, e.width));
    var window := BandLimitedWindowOf(freqs, e.low, e.high, 0.1 * e.width);
    ProductsInUnit(bell, window);
    Product(bell, window)
  }

  /** Where the source's tapers fit, the corrected response is the source's. */
  lemma {:induction false} BandLimitedResponseAgrees(np: NumPy, freqs: seq<real>, center: real, e: Effective)
    requires Sound(np) && e.width != 0.0
    requires 0.1 * e.width <= 0.0 || 0.1 * e.width <= e.high - e.low
    ensures BandLimitedGaussianResponse(np, freqs, center, e) == GaussianResponse(np, freqs, center, e)
  {
    var tw := 0.1 * e.width;
    var corrected, window := BandLimitedWindowOf(freqs, e.low, e.high, tw), WindowOf(freqs, e.low, e.high, tw);
    forall k | 0 <= k < |freqs| ensures corrected[k] == window[k] {
      BandLimitedWindowAgrees(freqs[k], e.low, e.high, tw);
    }
    assert corrected == window;
  }

  /** At a bin on the centre frequency, clear of both tapers, the response is 1. */
  lemma {:induction false} GaussianPeak(np: NumPy, n: nat, sampleRate: real, center: real, bandwidth: real,
                     lowCutoff: Option<real>, highCutoff: Option<real>, k: nat)
    requires FilterArguments(np, n, sampleRate, center, bandwidth, lowCutoff, highCutoff, "gaussian") && k < n
    requires FrequencyMagnitudes(n, sampleRate)[k] == center
    requires var e := EffectiveCutoffs(sampleRate, center, bandwidth, lowCutoff, highCutoff);
      e.width > 0.0 && e.low + 0.1 * e.width <= center <= e.high - 0.1 * e.width
    ensures FrequencyFilter(np, n, sampleRate, center, bandwidth, lowCutoff, highCutoff, "gaussian").value[k] == 1.0
  {
    var e := EffectiveCutoffs(sampleRate, center, bandwidth, lowCutoff, highCutoff);
    var freqs := FrequencyMagnitudes(n, sampleRate);
    TaperWindowShape(center, e.low, e.high, 0.1 * e.width);
    GaussianResponseByWindow(np, freqs, center, e, k);
    GaussianBranch(np, n, sampleRate, center, bandwidth, lowCutoff, highCutoff);
  }

  /** The sinc branch of `create_frequency_filter`, step by step. */
  method CreateSincResponse(np: NumPy, n: nat, sampleRate: real, e: Effective) returns (r: Result<seq<real>>)
    requires Sound(np) && n >= 1 && sampleRate != 0.0
    ensures r == SincResponse(np, n, sampleRate, e)
  {
    var length := SincKernelLength(sampleRate, e.width, n);
    var h := CreateBandpassImpulseResponse(np, length, sampleRate, e.low, e.high);
    h := Windowed(np, h);
    var placed := PlaceZeroPhase(h, n);
    if placed.Err? {
      return Err(placed.error);
    }
    var spectrum := np.fft(ToComplex(placed.value));
    r := Ok(seq(n, k requires 0 <= k < n => Modulus(np, spectrum[k])));
  }

  /** The Gaussian branch: the bell times the window the four masked writes build. */
  method CreateGaussianResponse(np: NumPy, freqs: seq<real>, center: real, e: Effective) returns (r: seq<real>)
    requires Sound(np) && e.width != 0.0
    ensures r == GaussianResponse(np, freqs, center, e)
  {
    var sigma := Equalizer.Sigma(np, e.width);
    var bell := Bell(np, freqs, center, sigma);
    var window := GaussianWindow(freqs, e.low, e.high, e.width * 0.1);
    assert e.width * 0.1 == 0.1 * e.width;
    r := Product(bell, window);
  }

  /** `create_frequency_filter`. */
  method CreateFrequencyFilter(np: NumPy, n: nat, sampleRate: real, center: real, bandwidth: real,
                               lowCutoff: Option<real>, highCutoff: Option<real>, shape: string)
    returns (r: Result<seq<real>>)
    requires FilterArguments(np, n, sampleRate, center, bandwidth, lowCutoff, highCutoff, shape)
    ensures r == FrequencyFilter(np, n, sampleRate, center, bandwidth, lowCutoff, highCutoff, shape)
  {
    var freqs := FrequencyMagnitudes(n, sampleRate);
    var e := EffectiveCutoffs(sampleRate, center, bandwidth, lowCutoff, highCutoff);
    if shape == "sinc" {
      r := CreateSincResponse(np, n, sampleRate, e);
    } else if shape == "gaussian" {
      var g := CreateGaussianResponse(np, freqs, center, e);
      r := Ok(g);
    } else {
      r := Err(UnknownFilterShape);
    }
  }

  /** `apply_bandpass_filter`: the input's spectrum times the filter, back to the
      time domain, real part; a filter error passes through. */
  function ApplyBandpassFilter(np: NumPy, audio: seq<real>, sampleRate: real, center: real, bandwidth: real,
                               lowCutoff: Option<real>, highCutoff: Option<real>, shape: string): (r: Result<seq<real>>)
    requires FilterArguments(np, |audio|, sampleRate, center, bandwidth, lowCutoff, highCutoff, shape)
    ensures r.Ok? <==> FrequencyFilter(np, |audio|, sampleRate, center, bandwidth, lowCutoff, highCutoff, shape).Ok?
    ensures r.Ok? ==> |r.value| == |audio|
    ensures r.Err? ==> r.error == FrequencyFilter(np, |audio|, sampleRate, center, bandwidth, lowCutoff, highCutoff, shape).error
  {
    var filter := FrequencyFilter(np, |audio|, sampleRate, center, bandwidth, lowCutoff, highCutoff, shape);
    if filter.Err? then Err(filter.error)
    else Ok(FilterSpectrum(np, audio, filter.value))
  }
}
