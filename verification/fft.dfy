/** The one-dimensional Fourier transform engine of src/fft.py: padding and
    truncation to the requested size, the dispatch between the Cooley-Tukey
    recursion, the pad-to-a-power-of-two path and the direct DFT, the inverse by
    conjugation, and the bin-frequency layout. The complex exponential
    exp(-2 pi i t) is the parameter `unit`; the twiddle factor
    exp(-2 pi i k / n) is `unit(k / n)`. */
module Fft {
  import opened ComplexNumbers
  import opened Outcomes
  import opened Signal

  /** The input after the source's padding step: zeros appended when it is
      shorter than n, its first n entries when it is longer. */
  function PadOrTruncate(x: seq<Complex>, n: nat): (r: seq<Complex>)
    ensures |r| == n
    ensures forall i :: 0 <= i < n && i < |x| ==> r[i] == x[i]
    ensures forall i :: |x| <= i < n ==> r[i] == Zero
  {
    if |x| < n then x + seq(n - |x|, _ => Zero)
    else if |x| > n then x[..n]
    else x
  }

  /** The transform size: `n` when given, the input length otherwise. */
  function TransformSize(x: seq<Complex>, n: Option<nat>): nat {
    if n.Some? then n.value else |x|
  }

  // ---------------------------------------------------------------------------
  // Powers of two

  predicate IsPowerOfTwo(n: nat) {
    n == 1 || (n >= 2 && n % 2 == 0 && IsPowerOfTwo(n / 2))
  }

  /** Bitwise AND of two naturals, bit by bit from the least significant. */
  function BitAnd(a: nat, b: nat): nat {
    if a == 0 || b == 0 then 0
    else 2 * BitAnd(a / 2, b / 2) + (if a % 2 == 1 && b % 2 == 1 then 1 else 0)
  }

  /** The source's test `n & (n - 1)` on Python integers; for n = 0 the
      operand n - 1 = -1 has every bit set, so the result is 0. */
  function PowerOfTwoTest(n: nat): nat {
    if n == 0 then 0 else BitAnd(n, n - 1)
  }

  lemma {:induction false} BitAndSelf(a: nat)
    ensures BitAnd(a, a) == a
  {
    if a != 0 {
      BitAndSelf(a / 2);
    }
  }

  /** For every positive n, `n & (n - 1) == 0` holds exactly when n is a power of two. */
  lemma {:induction false} PowerOfTwoTestCorrect(n: nat)
    requires n >= 1
    ensures PowerOfTwoTest(n) == 0 <==> IsPowerOfTwo(n)
  {
    if n == 1 {
    } else if n % 2 == 0 {
      PowerOfTwoTestCorrect(n / 2);
      assert (n - 1) / 2 == n / 2 - 1;
      assert BitAnd(n, n - 1) == 2 * BitAnd(n / 2, n / 2 - 1);
    } else {
      BitAndSelf(n / 2);
      assert (n - 1) / 2 == n / 2;
      assert BitAnd(n, n - 1) == 2 * (n / 2);
    }
  }

  /** Doubling from p until n is reached, as the source's `while` loop does. */
  function DoubleUntil(p: nat, n: nat): (q: nat)
    requires IsPowerOfTwo(p) && (p == 1 || p / 2 < n)
    ensures IsPowerOfTwo(q) && q >= n && q >= p
    ensures q == 1 || q / 2 < n
    decreases n - p
  {
    if p >= n then p else DoubleUntil(2 * p, n)
  }

  /** `next_power_of_2` after the loop: the smallest power of two that is at least n. */
  function NextPowerOfTwo(n: nat): (p: nat)
    ensures IsPowerOfTwo(p) && p >= n
    ensures p == 1 || p / 2 < n
  {
    DoubleUntil(1, n)
  }

  lemma {:induction false} PowerOfTwoPositive(a: nat)
    requires IsPowerOfTwo(a)
    ensures a >= 1
  {
    if a != 1 {
      PowerOfTwoPositive(a / 2);
    }
  }

  /** Between two distinct powers of two there is at least a factor of two. */
  lemma {:induction false} PowersOfTwoSpread(a: nat, b: nat)
    requires IsPowerOfTwo(a) && IsPowerOfTwo(b) && a < b
    ensures 2 * a <= b
  {
    if a == 1 {
      PowerOfTwoPositive(b / 2);
    } else {
      PowersOfTwoSpread(a / 2, b / 2);
    }
  }

  /** No power of two at least n lies below NextPowerOfTwo(n). */
  lemma {:induction false} NextPowerOfTwoIsLeast(n: nat, m: nat)
    requires IsPowerOfTwo(m) && m >= n
    ensures NextPowerOfTwo(n) <= m
  {
    var p := NextPowerOfTwo(n);
    if p > m {
      PowersOfTwoSpread(m, p);
    }
  }

  /** The source's loop `next_power_of_2 = 1; while next_power_of_2 < n: next_power_of_2 <<= 1`. */
  method NextPowerOfTwoLoop(n: nat) returns (p: nat)
    ensures p == NextPowerOfTwo(n)
    ensures IsPowerOfTwo(p) && p >= n
    ensures forall m: nat :: IsPowerOfTwo(m) && m >= n ==> p <= m
  {
    p := 1;
    while p < n
      invariant IsPowerOfTwo(p) && (p == 1 || p / 2 < n)
      invariant DoubleUntil(p, n) == DoubleUntil(1, n)
      decreases n - p
    {
      p := p * 2;
    }
    forall m: nat | IsPowerOfTwo(m) && m >= n ensures p <= m {
      NextPowerOfTwoIsLeast(n, m);
    }
  }

  // ---------------------------------------------------------------------------
  // Even/odd split, twiddle factors and the butterfly

  /** `x[::2]`. */
  function Evens(x: seq<Complex>): (r: seq<Complex>)
    ensures |r| == (|x| + 1) / 2
    ensures forall i :: 0 <= i < |r| ==> r[i] == x[2 * i]
  {
    seq((|x| + 1) / 2, i requires 0 <= i < (|x| + 1) / 2 => x[2 * i])
  }

  /** `x[1::2]`. */
  function Odds(x: seq<Complex>): (r: seq<Complex>)
    ensures |r| == |x| / 2
    ensures forall i :: 0 <= i < |r| ==> r[i] == x[2 * i + 1]
  {
    seq(|x| / 2, i requires 0 <= i < |x| / 2 => x[2 * i + 1])
  }

  /** exp(-2 pi i k / n). */
  function Twiddle(unit: real -> Complex, k: int, n: nat): Complex
    requires n > 0
  {
    unit(k as real / n as real)
  }

  /** Combining the transforms of the even- and odd-indexed halves:
      `t = twiddle * odd; result[:n//2] = even + t; result[n//2:] = even - t`. */
  function Butterfly(unit: real -> Complex, even: seq<Complex>, odd: seq<Complex>): (r: seq<Complex>)
    requires |even| == |odd|
    ensures |r| == 2 * |even|
    ensures forall k :: 0 <= k < |even| ==> r[k] == Add(even[k], Mul(Twiddle(unit, k, 2 * |even|), odd[k]))
    ensures forall k, j :: 0 <= k < |even| && j == k + |even| ==>
      r[j] == Sub(even[k], Mul(Twiddle(unit, k, 2 * |even|), odd[k]))
  {
    var half := |even|;
    var t := seq(half, k requires 0 <= k < half => Mul(Twiddle(unit, k, 2 * half), odd[k]));
    seq(half, k requires 0 <= k < half => Add(even[k], t[k])) +
    seq(half, k requires 0 <= k < half => Sub(even[k], t[k]))
  }

  // ---------------------------------------------------------------------------
  // The direct DFT

  /** The sum of the first `len` terms x[j] * exp(-2 pi i k j / n), n = |x|. */
  function DftPartialSum(unit: real -> Complex, x: seq<Complex>, k: int, len: nat): Complex
    requires len <= |x|
  {
    if len == 0 then Zero
    else Add(DftPartialSum(unit, x, k, len - 1), Mul(x[len - 1], Twiddle(unit, k * (len - 1), |x|)))
  }

  /** X[k] = sum over j of x[j] * exp(-2 pi i k j / n). */
  function DftBin(unit: real -> Complex, x: seq<Complex>, k: int): Complex {
    DftPartialSum(unit, x, k, |x|)
  }

  function Dft(unit: real -> Complex, x: seq<Complex>): (r: seq<Complex>)
    ensures |r| == |x|
    ensures forall k :: 0 <= k < |x| ==> r[k] == DftBin(unit, x, k)
  {
    seq(|x|, k requires 0 <= k < |x| => DftBin(unit, x, k))
  }

  /** `_dft_direct`: fills `result[i]` bin by bin. */
  method DftDirect(unit: real -> Complex, x: seq<Complex>) returns (r: seq<Complex>)
    ensures |r| == |x|
    ensures forall k :: 0 <= k < |x| ==> r[k] == DftBin(unit, x, k)
  {
    var result := new Complex[|x|](_ => Zero);
    for i := 0 to |x|
      invariant forall k :: 0 <= k < i ==> result[k] == DftBin(unit, x, k)
    {
      result[i] := DftBin(unit, x, i);
    }
    r := result[..];
  }

  // ---------------------------------------------------------------------------
  // The recursion

  /** `_fft_1d_recursive`. Its size test sends every length that is not a power
      of two to Radix2Iterative, whose padded call comes back here with a power
      of two, so the recursion never re-enters that branch: the first component
      of the measure drops from 2 to 1 to 0. */
  function FftRecursive(unit: real -> Complex, x: seq<Complex>): (r: seq<Complex>)
    requires |x| >= 1
    ensures |r| == |x|
    ensures |x| == 1 ==> r == x
    decreases if IsPowerOfTwo(|x|) then 0 else 2, |x|
  {
    var n := |x|;
    PowerOfTwoTestCorrect(n);
    if n == 1 then x
    else if PowerOfTwoTest(n) != 0 then Radix2Iterative(unit, x)
    else
      var even := FftRecursive(unit, Evens(x));
      var odd := FftRecursive(unit, Odds(x));
      Butterfly(unit, even, odd)
  }

  /** `_fft_radix2_iterative`: the direct DFT up to 8 points, otherwise the first
      n bins of the transform of the input zero-padded to the next power of two. */
  function Radix2Iterative(unit: real -> Complex, x: seq<Complex>): (r: seq<Complex>)
    ensures |r| == |x|
    decreases 1, |x|
  {
    var n := |x|;
    if n <= 8 then Dft(unit, x)
    else
      var p := NextPowerOfTwo(n);
      if p > n then FftRecursive(unit, PadOrTruncate(x, p))[..n]
      else FftRecursive(unit, x)
  }

  /** `fft(x, n)` on a one-dimensional input without normalisation. */
  function Transform(unit: real -> Complex, x: seq<Complex>, n: Option<nat>): (r: seq<Complex>)
    requires TransformSize(x, n) >= 1
    ensures |r| == TransformSize(x, n)
  {
    FftRecursive(unit, PadOrTruncate(x, TransformSize(x, n)))
  }

  /** `ifft(x, n)`: conjugate, pad or truncate, transform, conjugate, divide by n. */
  function InverseTransform(unit: real -> Complex, x: seq<Complex>, n: Option<nat>): (r: seq<Complex>)
    requires TransformSize(x, n) >= 1
    ensures |r| == TransformSize(x, n)
  {
    var size := TransformSize(x, n);
    var xConj := PadOrTruncate(ConjAll(x), size);
    ScaleAll(1.0 / size as real, ConjAll(FftRecursive(unit, xConj)))
  }

  // ---------------------------------------------------------------------------
  // Bin frequencies

  /** Entry k of `fftfreq(n, d)`: k / (n d) for the first (n - 1) // 2 + 1 bins,
      (k - n) / (n d) for the rest. */
  function BinFrequency(n: nat, d: real, k: nat): real
    requires n >= 1 && d != 0.0
  {
    var val := 1.0 / (n as real * d);
    (if k < (n - 1) / 2 + 1 then k as real else (k - n) as real) * val
  }

  /** The signed bin number that BinFrequency scales. */
  function BinIndex(n: nat, k: nat): int {
    if k < (n - 1) / 2 + 1 then k else k - n
  }

  /** `fftfreq(n, d)`: integer ramps written into the two slices of one array,
      then the whole array scaled by 1 / (n d). */
  method FftFreq(n: nat, d: real) returns (f: seq<real>)
    requires n >= 1 && d != 0.0
    ensures |f| == n
    ensures forall k :: 0 <= k < n ==> f[k] == BinFrequency(n, d, k)
  {
    var val := 1.0 / (n as real * d);
    var results := new real[n];
    var positive := (n - 1) / 2 + 1;
    for i := 0 to positive
      invariant forall k :: 0 <= k < i ==> results[k] == BinIndex(n, k) as real
    {
      results[i] := i as real;
    }
    assert positive + n / 2 == n;
    for j := 0 to n / 2
      invariant forall k :: 0 <= k < positive + j ==> results[k] == BinIndex(n, k) as real
    {
      results[positive + j] := (-(n / 2) + j) as real;
    }
    var ramps := results[..];
    f := seq(n, k requires 0 <= k < n => ramps[k] * val);
    ScaledRamps(n, d, ramps, f);
  }

  lemma {:induction false} ScaledRamps(n: nat, d: real, ramps: seq<real>, f: seq<real>)
    requires n >= 1 && d != 0.0 && |ramps| == n && |f| == n
    requires forall k :: 0 <= k < n ==> ramps[k] == BinIndex(n, k) as real
    requires forall k :: 0 <= k < n ==> f[k] == ramps[k] * (1.0 / (n as real * d))
    ensures forall k :: 0 <= k < n ==> f[k] == BinFrequency(n, d, k)
  {
  }

  lemma {:induction false} BinIndexRange(n: nat, k: nat)
    requires k < n
    ensures -(n / 2) <= BinIndex(n, k) <= (n - 1) / 2
    ensures BinIndex(n, k) >= 0 <==> k < (n - 1) / 2 + 1
  {
  }

  lemma AbsProduct(a: real, v: real)
    ensures Abs(a * v) == Abs(a) * Abs(v)
  {
  }

  /** Bin 0 is DC. */
  lemma BinFrequencyAtZero(n: nat, d: real)
    requires n >= 1 && d != 0.0
    ensures BinFrequency(n, d, 0) == 0.0
  {
  }

  /** Bins k and n - k are the same frequency with opposite signs, so any
      response that depends only on |f| is mirror-symmetric. */
  lemma {:induction false} BinFrequencyMirror(n: nat, d: real, k: nat)
    requires n >= 1 && d != 0.0 && 1 <= k < n
    ensures Abs(BinFrequency(n, d, k)) == Abs(BinFrequency(n, d, n - k))
  {
    var val := 1.0 / (n as real * d);
    var i, j := BinIndex(n, k), BinIndex(n, n - k);
    assert i == -j || i == j;
    assert BinFrequency(n, d, k) == i as real * val;
    assert BinFrequency(n, d, n - k) == j as real * val;
    AbsProduct(i as real, val);
    AbsProduct(j as real, val);
    assert Abs(i as real) == Abs(j as real);
  }

  /** No bin lies above the Nyquist frequency 1 / (2 d). */
  lemma {:induction false} BinFrequencyBound(n: nat, d: real, k: nat)
    requires n >= 1 && d > 0.0 && k < n
    ensures Abs(BinFrequency(n, d, k)) <= 1.0 / (2.0 * d)
  {
    var val := 1.0 / (n as real * d);
    var i := BinIndex(n, k);
    BinIndexRange(n, k);
    assert BinFrequency(n, d, k) == i as real * val;
    AbsProduct(i as real, val);
    assert val > 0.0;
    assert Abs(i as real) <= n as real / 2.0;
    HalfOfBins(n as real, d, Abs(i as real));
  }

  lemma HalfOfBins(n: real, d: real, a: real)
    requires n >= 1.0 && d > 0.0 && 0.0 <= a <= n / 2.0
    ensures a * (1.0 / (n * d)) <= 1.0 / (2.0 * d)
  {
    var v := 1.0 / (n * d);
    assert v * n == 1.0 / d;
    assert a * v <= (n / 2.0) * v;
    assert (n / 2.0) * v == (1.0 / d) / 2.0;
  }

  /** `np.abs(np.fft.fftfreq(n, 1.0 / sample_rate))`: the frequency in hertz of
      every bin, sign dropped. */
  function FrequencyMagnitudes(n: nat, sampleRate: real): (f: seq<real>)
    requires n >= 1 && sampleRate != 0.0
    ensures |f| == n
    ensures forall k :: 0 <= k < n ==> f[k] == Abs(BinFrequency(n, 1.0 / sampleRate, k)) && f[k] >= 0.0
    ensures f[0] == 0.0
    ensures CircularlySymmetric(f)
    ensures sampleRate > 0.0 ==> forall k :: 0 <= k < n ==> f[k] <= sampleRate / 2.0
  {
    var d := 1.0 / sampleRate;
    var f := seq(n, k requires 0 <= k < n => Abs(BinFrequency(n, d, k)));
    BinFrequencyAtZero(n, d);
    MagnitudesMirrorAndBound(n, sampleRate, f);
    f
  }

  lemma {:induction false} MagnitudesMirrorAndBound(n: nat, sampleRate: real, f: seq<real>)
    requires n >= 1 && sampleRate != 0.0 && |f| == n
    requires forall k :: 0 <= k < n ==> f[k] == Abs(BinFrequency(n, 1.0 / sampleRate, k))
    ensures CircularlySymmetric(f)
    ensures sampleRate > 0.0 ==> forall k :: 0 <= k < n ==> f[k] <= sampleRate / 2.0
  {
    var d := 1.0 / sampleRate;
    forall i, j | 0 < i < n && i + j == n ensures f[i] == f[j] {
      BinFrequencyMirror(n, d, i);
    }
    if sampleRate > 0.0 {
      forall k | 0 <= k < n ensures f[k] <= sampleRate / 2.0 {
        BinFrequencyBound(n, d, k);
        NyquistInHertz(sampleRate);
      }
    }
  }

  lemma NyquistInHertz(sampleRate: real)
    requires sampleRate > 0.0
    ensures 1.0 / (2.0 * (1.0 / sampleRate)) == sampleRate / 2.0
  {
  }
}
