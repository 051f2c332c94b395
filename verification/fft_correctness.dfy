/** The claim of src/fft.py's module docstring: the Cooley-Tukey recursion
    computes the discrete Fourier transform. Proved for power-of-two sizes from
    three laws of the complex exponential unit(t) = exp(-2 pi i t). For other
    sizes above 8 the source truncates a longer transform, which is not the DFT
    of the input, so nothing is claimed there. */
module FftCorrectness {
  import opened ComplexNumbers
  import opened Fft
  import opened Outcomes

  /** unit(s + t); a separate symbol so that the addition law below is used only
      where a proof asks for it. */
  function UnitSum(unit: real -> Complex, s: real, t: real): Complex {
    unit(s + t)
  }

  /** exp(-2 pi i (s + t)) = exp(-2 pi i s) exp(-2 pi i t), exp(-2 pi i) = 1,
      exp(-pi i) = -1, and the conjugate of exp(-2 pi i t) is exp(2 pi i t). */
  ghost predicate UnitCircle(unit: real -> Complex) {
    && (forall s, t {:trigger UnitSum(unit, s, t)} :: UnitSum(unit, s, t) == Mul(unit(s), unit(t)))
    && unit(1.0) == One
    && unit(0.5) == Neg(One)
    && (forall t {:trigger Conj(unit(t))} :: Conj(unit(t)) == unit(-t))
  }

  lemma UnitAtZero(unit: real -> Complex)
    requires UnitCircle(unit)
    ensures unit(0.0) == One
  {
    assert UnitSum(unit, 1.0, 0.0) == Mul(unit(1.0), unit(0.0));
    MulOne(unit(0.0));
  }

  /** A whole number of turns changes nothing. */
  lemma {:induction false} UnitPeriodic(unit: real -> Complex, s: real, j: nat)
    requires UnitCircle(unit)
    ensures unit(s + j as real) == unit(s)
  {
    if j > 0 {
      UnitPeriodic(unit, s, j - 1);
      assert UnitSum(unit, s + (j - 1) as real, 1.0) == Mul(unit(s + (j - 1) as real), unit(1.0));
      MulOne(unit(s));
    }
  }

  /** Half a turn negates. */
  lemma UnitHalfTurn(unit: real -> Complex, s: real)
    requires UnitCircle(unit)
    ensures unit(s + 0.5) == Neg(unit(s))
  {
    assert UnitSum(unit, s, 0.5) == Mul(unit(s), unit(0.5));
    MulNegOne(unit(s));
  }

  lemma {:induction false} ShiftByPeriod(k: int, j: nat, m: nat)
    requires m > 0
    ensures ((k + m) * j) as real / m as real == (k * j) as real / m as real + j as real
  {
    assert (k + m) * j == k * j + m * j;
    assert (m * j) as real == m as real * j as real;
  }

  lemma {:induction false} EvenTermRatio(k: int, t: nat, m: nat)
    requires m > 0
    ensures (k * (2 * t)) as real / (2 * m) as real == (k * t) as real / m as real
  {
    assert k * (2 * t) == 2 * (k * t);
  }

  lemma {:induction false} OddTermRatio(k: int, t: nat, m: nat)
    requires m > 0
    ensures (k * (2 * t + 1)) as real / (2 * m) as real == (k * t) as real / m as real + k as real / (2 * m) as real
  {
    assert k * (2 * t + 1) == 2 * (k * t) + k;
  }

  lemma {:induction false} HalfTurnRatio(k: int, m: nat)
    requires m > 0
    ensures (k + m) as real / (2 * m) as real == k as real / (2 * m) as real + 0.5
  {
    var d := (2 * m) as real;
    assert d == 2.0 * m as real;
    DivSum(k as real, m as real, d);
    HalfOfDouble(m as real);
  }

  lemma DivSum(q: real, r: real, d: real)
    requires d != 0.0
    ensures (q + r) / d == q / d + r / d
  {
  }

  lemma HalfOfDouble(m: real)
    requires m > 0.0
    ensures m / (2.0 * m) == 0.5
  {
  }

  /** The DFT of an m-point sequence is periodic in the bin index with period m. */
  lemma {:induction false} DftPeriodic(unit: real -> Complex, x: seq<Complex>, k: int, len: nat)
    requires UnitCircle(unit) && |x| >= 1 && len <= |x|
    ensures DftPartialSum(unit, x, k + |x|, len) == DftPartialSum(unit, x, k, len)
  {
    if len > 0 {
      var m, j := |x|, len - 1;
      DftPeriodic(unit, x, k, j);
      ShiftByPeriod(k, j, m);
      UnitPeriodic(unit, (k * j) as real / m as real, j);
      assert Twiddle(unit, (k + m) * j, m) == Twiddle(unit, k * j, m);
    }
  }

  lemma {:induction false} EvenTwiddle(unit: real -> Complex, x: seq<Complex>, k: int, s: nat)
    requires |x| >= 2 && |x| % 2 == 0
    ensures Twiddle(unit, k * (2 * s), |x|) == Twiddle(unit, k * s, |x| / 2)
  {
    EvenTermRatio(k, s, |x| / 2);
  }

  lemma {:induction false} OddTwiddle(unit: real -> Complex, x: seq<Complex>, k: int, s: nat)
    requires UnitCircle(unit) && |x| >= 2 && |x| % 2 == 0
    ensures Twiddle(unit, k * (2 * s + 1), |x|) == Mul(Twiddle(unit, k * s, |x| / 2), Twiddle(unit, k, |x|))
  {
    var m := |x| / 2;
    OddTermRatio(k, s, m);
    assert UnitSum(unit, (k * s) as real / m as real, k as real / (2 * m) as real) ==
      Mul(unit((k * s) as real / m as real), unit(k as real / (2 * m) as real));
  }

  /** One more term of the sum, with the twiddle's exponent written k * len. */
  lemma {:induction false} PartialSumStep(unit: real -> Complex, x: seq<Complex>, k: int, len: nat)
    requires len < |x|
    ensures DftPartialSum(unit, x, k, len + 1) ==
      Add(DftPartialSum(unit, x, k, len), Mul(x[len], Twiddle(unit, k * len, |x|)))
  {
  }

  /** The first 2t terms of an n-point DFT sum split into t terms of the
      (n/2)-point sums over the even- and odd-indexed samples. */
  ghost predicate SplitHolds(unit: real -> Complex, x: seq<Complex>, k: int, t: nat)
    requires |x| >= 2 && |x| % 2 == 0 && t <= |x| / 2
  {
    DftPartialSum(unit, x, k, 2 * t) ==
      Add(DftPartialSum(unit, Evens(x), k, t), Mul(Twiddle(unit, k, |x|), DftPartialSum(unit, Odds(x), k, t)))
  }

  lemma {:induction false} DftSplit(unit: real -> Complex, x: seq<Complex>, k: int, t: nat)
    requires UnitCircle(unit)
    requires |x| >= 2 && |x| % 2 == 0 && t <= |x| / 2
    ensures SplitHolds(unit, x, k, t)
  {
    if t == 0 {
      DftSplitBase(unit, x, k);
    } else {
      DftSplit(unit, x, k, t - 1);
      DftSplitStep(unit, x, k, t);
    }
  }

  /** No terms on either side. */
  lemma DftSplitBase(unit: real -> Complex, x: seq<Complex>, k: int)
    requires |x| >= 2 && |x| % 2 == 0
    ensures SplitHolds(unit, x, k, 0)
  {
    assert Mul(Twiddle(unit, k, |x|), Zero) == Zero;
    AddZero(Zero);
  }

  /** The split for 2 (t - 1) terms gives the split for 2t terms. */
  lemma {:induction false} DftSplitStep(unit: real -> Complex, x: seq<Complex>, k: int, t: nat)
    requires UnitCircle(unit)
    requires |x| >= 2 && |x| % 2 == 0 && 1 <= t <= |x| / 2
    requires SplitHolds(unit, x, k, t - 1)
    ensures SplitHolds(unit, x, k, t)
  {
    FullSumTwoTerms(unit, x, k, t);
    HalfSumsOneTerm(unit, x, k, t);
    SplitStep(DftPartialSum(unit, x, k, 2 * (t - 1)), DftPartialSum(unit, x, k, 2 * t),
              DftPartialSum(unit, Evens(x), k, t - 1), DftPartialSum(unit, Odds(x), k, t - 1),
              Twiddle(unit, k, |x|), x[2 * (t - 1)], x[2 * (t - 1) + 1], Twiddle(unit, k * (t - 1), |x| / 2),
              DftPartialSum(unit, Evens(x), k, t), DftPartialSum(unit, Odds(x), k, t));
  }

  /** Terms 2s and 2s + 1 of the full sum, s = t - 1, with their twiddles in
      half-size terms. */
  lemma FullSumTwoTerms(unit: real -> Complex, x: seq<Complex>, k: int, t: nat)
    requires UnitCircle(unit)
    requires |x| >= 2 && |x| % 2 == 0 && 1 <= t <= |x| / 2
    ensures var u := Twiddle(unit, k * (t - 1), |x| / 2);
      DftPartialSum(unit, x, k, 2 * t) ==
      Add(Add(DftPartialSum(unit, x, k, 2 * (t - 1)), Mul(x[2 * (t - 1)], u)),
          Mul(x[2 * (t - 1) + 1], Mul(u, Twiddle(unit, k, |x|))))
  {
    var s := t - 1;
    EvenTwiddle(unit, x, k, s);
    OddTwiddle(unit, x, k, s);
    PartialSumStep(unit, x, k, 2 * s);
    PartialSumStep(unit, x, k, 2 * s + 1);
    assert 2 * s + 1 + 1 == 2 * t;
  }

  /** Term t - 1 of the sums over the even- and odd-indexed samples. */
  lemma HalfSumsOneTerm(unit: real -> Complex, x: seq<Complex>, k: int, t: nat)
    requires |x| >= 2 && |x| % 2 == 0 && 1 <= t <= |x| / 2
    ensures var u := Twiddle(unit, k * (t - 1), |x| / 2);
      DftPartialSum(unit, Evens(x), k, t) == Add(DftPartialSum(unit, Evens(x), k, t - 1), Mul(x[2 * (t - 1)], u)) &&
      DftPartialSum(unit, Odds(x), k, t) == Add(DftPartialSum(unit, Odds(x), k, t - 1), Mul(x[2 * (t - 1) + 1], u))
  {
    assert |Evens(x)| == |x| / 2 && |Odds(x)| == |x| / 2;
    PartialSumStep(unit, Evens(x), k, t - 1);
    PartialSumStep(unit, Odds(x), k, t - 1);
  }

  /** Two more terms a u and b (u w) of the full sum are one more term of each half. */
  lemma SplitStep(before: Complex, after: Complex, e: Complex, o: Complex, w: Complex,
                  a: Complex, b: Complex, u: Complex, evens: Complex, odds: Complex)
    requires before == Add(e, Mul(w, o))
    requires after == Add(Add(before, Mul(a, u)), Mul(b, Mul(u, w)))
    requires evens == Add(e, Mul(a, u)) && odds == Add(o, Mul(b, u))
    ensures after == Add(evens, Mul(w, odds))
  {
    Regroup(e, o, a, b, u, w);
  }

  /** Bin k < n/2 of an n-point DFT from the half-size DFTs of the two halves. */
  lemma {:induction false} LowerBin(unit: real -> Complex, x: seq<Complex>, k: int)
    requires UnitCircle(unit) && |x| >= 2 && |x| % 2 == 0
    ensures DftBin(unit, x, k) ==
      Add(DftBin(unit, Evens(x), k), Mul(Twiddle(unit, k, |x|), DftBin(unit, Odds(x), k)))
  {
    var m := |x| / 2;
    assert 2 * m == |x|;
    assert |Evens(x)| == m && |Odds(x)| == m;
    DftSplit(unit, x, k, m);
  }

  /** Half a period further on, the twiddle factor is negated. */
  lemma TwiddleHalfTurn(unit: real -> Complex, j: int, m: nat, n: nat)
    requires UnitCircle(unit) && m > 0 && n == 2 * m
    ensures Twiddle(unit, j + m, n) == Neg(Twiddle(unit, j, n))
  {
    HalfTurnRatio(j, m);
    UnitHalfTurn(unit, j as real / (2 * m) as real);
  }

  /** The DFT is periodic in the bin index, with period its length. */
  lemma BinPeriodic(unit: real -> Complex, y: seq<Complex>, j: int, m: nat)
    requires UnitCircle(unit) && |y| == m && m >= 1
    ensures DftBin(unit, y, j + m) == DftBin(unit, y, j)
  {
    DftPeriodic(unit, y, j, m);
  }

  /** Bin j + n/2 reuses the half-size bins j with the twiddle negated. */
  lemma {:induction false} UpperBin(unit: real -> Complex, x: seq<Complex>, j: int)
    requires UnitCircle(unit) && |x| >= 2 && |x| % 2 == 0
    ensures DftBin(unit, x, j + |x| / 2) ==
      Sub(DftBin(unit, Evens(x), j), Mul(Twiddle(unit, j, |x|), DftBin(unit, Odds(x), j)))
  {
    var m := |x| / 2;
    var ev, od := Evens(x), Odds(x);
    assert 2 * m == |x|;
    assert |ev| == m && |od| == m;
    LowerBin(unit, x, j + m);
    BinPeriodic(unit, ev, j, m);
    BinPeriodic(unit, od, j, m);
    TwiddleHalfTurn(unit, j, m, |x|);
    AddNegMul(DftBin(unit, ev, j), Twiddle(unit, j, |x|), DftBin(unit, od, j));
  }

  /** A single sample is its own transform. */
  lemma SingleSampleDft(unit: real -> Complex, x: seq<Complex>)
    requires UnitCircle(unit) && |x| == 1
    ensures Dft(unit, x) == x
  {
    UnitAtZero(unit);
    assert Twiddle(unit, 0 * 0, 1) == One;
    MulOne(x[0]);
    AddZero(x[0]);
    assert DftPartialSum(unit, x, 0, 1) == Add(Zero, Mul(x[0], Twiddle(unit, 0 * 0, 1)));
    assert Dft(unit, x)[0] == x[0];
  }

  /** The butterfly of the half-size DFTs is the full-size DFT. */
  lemma {:induction false} ButterflyOfHalves(unit: real -> Complex, x: seq<Complex>)
    requires UnitCircle(unit) && |x| >= 2 && |x| % 2 == 0
    ensures Butterfly(unit, Dft(unit, Evens(x)), Dft(unit, Odds(x))) == Dft(unit, x)
  {
    var n, m := |x|, |x| / 2;
    var ev, od := Evens(x), Odds(x);
    assert |ev| == m && |od| == m && 2 * m == n;
    var r := Butterfly(unit, Dft(unit, ev), Dft(unit, od));
    forall k | 0 <= k < n ensures r[k] == Dft(unit, x)[k] {
      if k < m {
        LowerBin(unit, x, k);
      } else {
        UpperBin(unit, x, k - m);
        assert r[k] == Sub(Dft(unit, ev)[k - m], Mul(Twiddle(unit, k - m, n), Dft(unit, od)[k - m]));
      }
    }
  }

  /** For a power-of-two size, `_fft_1d_recursive` equals `_dft_direct`. */
  lemma {:induction false} FftMatchesDft(unit: real -> Complex, x: seq<Complex>)
    requires UnitCircle(unit) && |x| >= 1 && IsPowerOfTwo(|x|)
    ensures FftRecursive(unit, x) == Dft(unit, x)
    decreases |x|
  {
    var n := |x|;
    if n == 1 {
      SingleSampleDft(unit, x);
    } else {
      var m := n / 2;
      PowerOfTwoTestCorrect(n);
      assert |Evens(x)| == m && |Odds(x)| == m;
      PowerOfTwoPositive(m);
      FftMatchesDft(unit, Evens(x));
      FftMatchesDft(unit, Odds(x));
      ButterflyOfHalves(unit, x);
    }
  }

  /** Every size the source transforms exactly: a power of two, or at most 8
      points, where `_fft_radix2_iterative` calls `_dft_direct`. */
  lemma {:induction false} RecursionIsDft(unit: real -> Complex, x: seq<Complex>)
    requires UnitCircle(unit) && |x| >= 1 && (IsPowerOfTwo(|x|) || |x| <= 8)
    ensures FftRecursive(unit, x) == Dft(unit, x)
  {
    if IsPowerOfTwo(|x|) {
      FftMatchesDft(unit, x);
    } else {
      PowerOfTwoTestCorrect(|x|);
      assert FftRecursive(unit, x) == Radix2Iterative(unit, x);
    }
  }

  /** `fft(x, n)` is the DFT of the padded or truncated input for those sizes. */
  lemma {:induction false} TransformIsDft(unit: real -> Complex, x: seq<Complex>, n: Option<nat>)
    requires UnitCircle(unit) && TransformSize(x, n) >= 1
    requires IsPowerOfTwo(TransformSize(x, n)) || TransformSize(x, n) <= 8
    ensures Transform(unit, x, n) == Dft(unit, PadOrTruncate(x, TransformSize(x, n)))
  {
    RecursionIsDft(unit, PadOrTruncate(x, TransformSize(x, n)));
  }

  /** `ifft(x, n)` is conj(DFT(conj(x))) / n for those sizes. */
  lemma {:induction false} InverseTransformIsDft(unit: real -> Complex, x: seq<Complex>, n: Option<nat>)
    requires UnitCircle(unit) && TransformSize(x, n) >= 1
    requires IsPowerOfTwo(TransformSize(x, n)) || TransformSize(x, n) <= 8
    ensures var size := TransformSize(x, n);
      InverseTransform(unit, x, n) == ScaleAll(1.0 / size as real, ConjAll(Dft(unit, PadOrTruncate(ConjAll(x), size))))
  {
    RecursionIsDft(unit, PadOrTruncate(ConjAll(x), TransformSize(x, n)));
  }
}
