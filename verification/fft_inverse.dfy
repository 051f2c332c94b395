/** The round trip of src/fft.py's transform pair: `ifft(fft(x, n), n)` gives
    back x padded or truncated to n, at every power-of-two size n. Both
    directions are DFTs (FftCorrectness), so the inverse of bin j is a double
    sum over the bins k and the samples l; exchanging the two sums leaves, for
    each sample l, the sum of the n-th roots of unity raised to the power l - j,
    which is n when l == j and 0 otherwise. */
module FftInverse {
  import opened ComplexNumbers
  import opened Outcomes
  import opened Fft
  import opened FftCorrectness

  // ---------------------------------------------------------------------------
  // Integer division by a positive divisor

  lemma MulBetween(n: int, t: int)
    requires n > 0 && -n < n * t < n
    ensures t == 0
  {
    if t >= 1 {
      assert n * t == n * (t - 1) + n;
      MulNonNegInt(n, t - 1);
    } else if t <= -1 {
      assert n * t == -(n * (-t - 1)) - n;
      MulNonNegInt(n, -t - 1);
    }
  }

  lemma MulNonNegInt(a: int, b: int)
    requires a >= 0 && b >= 0
    ensures a * b >= 0
  {
  }

  /** Quotient and remainder are unique. */
  lemma {:induction false} DivMod(d: int, n: int, k: int, r: int)
    requires n > 0 && 0 <= r < n && d == n * k + r
    ensures d % n == r && d / n == k
  {
    var q, s := d / n, d % n;
    assert d == n * q + s;
    assert n * (k - q) == s - r;
    MulBetween(n, k - q);
  }

  /** A multiple of 2m is a multiple of m. */
  lemma {:induction false} MultipleOfHalf(d: int, m: int)
    requires m > 0 && d % (2 * m) == 0
    ensures d % m == 0
  {
    var q := d / (2 * m);
    assert d == (2 * m) * q + d % (2 * m);
    assert d == m * (2 * q);
    DivMod(d, m, 2 * q, 0);
  }

  lemma Distribute(m: int, r: int, b: int)
    ensures m * (2 * r + b) == (2 * m) * r + m * b
  {
  }

  /** For d = m q, d is a multiple of 2m exactly when q is even. */
  lemma {:induction false} MultipleOfDouble(d: int, m: int, q: int)
    requires m > 0 && d == m * q
    ensures d % (2 * m) == 0 <==> q % 2 == 0
  {
    var r, b := q / 2, q % 2;
    assert q == 2 * r + b;
    Distribute(m, r, b);
    if b == 0 {
      DivMod(d, 2 * m, r, 0);
    } else {
      DivMod(d, 2 * m, r, m);
    }
  }

  /** l - j is a multiple of n only when l == j, for samples l, j of an n-point block. */
  lemma {:induction false} DifferenceMultiple(l: nat, j: nat, n: nat)
    requires l < n && j < n
    ensures (l - j) % n == 0 <==> l == j
  {
    if l >= j {
      DivMod(l - j, n, 0, l - j);
    } else {
      DivMod(l - j, n, -1, l - j + n);
    }
  }

  // ---------------------------------------------------------------------------
  // The complex exponential at whole and half turns

  lemma UnitAtInteger(unit: real -> Complex, r: int)
    requires UnitCircle(unit)
    ensures unit(r as real) == One
  {
    UnitAtZero(unit);
    if r >= 0 {
      UnitPeriodic(unit, 0.0, r);
    } else {
      UnitPeriodic(unit, r as real, -r);
    }
  }

  lemma UnitAtHalfInteger(unit: real -> Complex, r: int)
    requires UnitCircle(unit)
    ensures unit(r as real + 0.5) == Neg(One)
  {
    UnitAtInteger(unit, r);
    UnitHalfTurn(unit, r as real);
  }

  lemma HalfRatio(d: int, m: nat, q: int)
    requires m > 0 && d == m * q
    ensures d as real / (2 * m) as real == q as real / 2.0
  {
    assert d as real == m as real * q as real;
    assert (2 * m) as real == 2.0 * m as real;
  }

  /** The twiddle of bin d over 2m points, when m divides d: +1 or -1 by the
      parity of d / m. */
  lemma {:induction false} TwiddleOfMultiple(unit: real -> Complex, d: int, m: nat)
    requires UnitCircle(unit) && m > 0 && d % m == 0
    ensures d % (2 * m) == 0 ==> Twiddle(unit, d, 2 * m) == One
    ensures d % (2 * m) != 0 ==> Twiddle(unit, d, 2 * m) == Neg(One)
  {
    var q := d / m;
    assert d == m * q + d % m;
    MultipleOfDouble(d, m, q);
    HalfRatio(d, m, q);
    var r := q / 2;
    assert q == 2 * r + q % 2;
    if q % 2 == 0 {
      assert q as real / 2.0 == r as real;
      UnitAtInteger(unit, r);
    } else {
      assert q as real / 2.0 == r as real + 0.5;
      UnitAtHalfInteger(unit, r);
    }
  }

  // ---------------------------------------------------------------------------
  // Orthogonality of the roots of unity

  /** n samples of value 1. */
  ghost predicate AllOnes(s: seq<Complex>) {
    forall i :: 0 <= i < |s| ==> s[i] == One
  }

  /** The sum of the n-th roots of unity raised to the power d (bin d of the DFT
      of n ones) is n when n divides d and 0 otherwise. Each halving step is
      LowerBin: the sum over 2m points is (1 + w) times the sum over m points,
      with w = +1 or -1 when m divides d. */
  lemma {:induction false} Orthogonality(unit: real -> Complex, ones: seq<Complex>, d: int)
    requires UnitCircle(unit) && IsPowerOfTwo(|ones|) && AllOnes(ones)
    ensures DftBin(unit, ones, d) == RootSum(|ones|, d)
    decreases |ones|
  {
    var n := |ones|;
    if n == 1 {
      SingleOne(unit, ones, d);
      ModOne(d);
    } else {
      HalvesOfOnes(ones);
      Orthogonality(unit, Evens(ones), d);
      LowerBin(unit, ones, d);
      assert n == 2 * (n / 2);
      DoublingStep(unit, n / 2, d, DftBin(unit, Evens(ones), d));
    }
  }

  /** n when n divides d, 0 otherwise. */
  function RootSum(n: nat, d: int): Complex
    requires n > 0
  {
    if d % n == 0 then Complex(n as real, 0.0) else Zero
  }

  /** From m points to 2m points: s + w s with w the twiddle of bin d over 2m points. */
  lemma {:induction false} DoublingStep(unit: real -> Complex, m: nat, d: int, s: Complex)
    requires UnitCircle(unit) && m > 0
    requires s == RootSum(m, d)
    ensures Add(s, Mul(Twiddle(unit, d, 2 * m), s)) == RootSum(2 * m, d)
  {
    var divM, divN := d % m == 0, d % (2 * m) == 0;
    if divM {
      TwiddleOfMultiple(unit, d, m);
    } else if divN {
      MultipleOfHalf(d, m);
    }
    HalvingStep(s, Twiddle(unit, d, 2 * m), m as real, divM, divN);
    assert (2 * m) as real == 2.0 * m as real;
  }

  lemma SingleOne(unit: real -> Complex, ones: seq<Complex>, d: int)
    requires UnitCircle(unit) && |ones| == 1 && AllOnes(ones)
    ensures DftBin(unit, ones, d) == One
  {
    UnitAtZero(unit);
    assert ones[0] == One;
    SingleTerm(unit, ones, d);
    TermAtZero(unit, d);
  }

  lemma SingleTerm(unit: real -> Complex, ones: seq<Complex>, d: int)
    requires |ones| == 1 && ones[0] == One
    ensures DftPartialSum(unit, ones, d, 1) == Add(Zero, Mul(One, Twiddle(unit, d * 0, 1)))
  {
  }

  lemma TermAtZero(unit: real -> Complex, d: int)
    requires unit(0.0) == One
    ensures Add(Zero, Mul(One, Twiddle(unit, d * 0, 1))) == One
  {
    assert d * 0 == 0;
    assert Twiddle(unit, d * 0, 1) == One;
  }

  lemma ModOne(d: int)
    ensures d % 1 == 0
  {
    DivMod(d, 1, d, 0);
  }

  /** Both halves of 2m ones are m ones. */
  lemma HalvesOfOnes(ones: seq<Complex>)
    requires |ones| >= 2 && |ones| % 2 == 0 && AllOnes(ones)
    ensures |Evens(ones)| == |ones| / 2 && Odds(ones) == Evens(ones) && AllOnes(Evens(ones))
  {
    assert |Evens(ones)| == |Odds(ones)|;
    assert forall i :: 0 <= i < |Evens(ones)| ==> Evens(ones)[i] == One == Odds(ones)[i];
  }

  /** s + w s, for the half-size sum s and the twiddle w of bin d over 2m
      points: divM and divN say whether m and 2m divide d. */
  lemma HalvingStep(s: Complex, w: Complex, m: real, divM: bool, divN: bool)
    requires s == if divM then Complex(m, 0.0) else Zero
    requires divM && divN ==> w == One
    requires divM && !divN ==> w == Neg(One)
    requires divN ==> divM
    ensures Add(s, Mul(w, s)) == if divN then Complex(2.0 * m, 0.0) else Zero
  {
  }

  // ---------------------------------------------------------------------------
  // Double sums over a matrix F(k, l)

  /** F(k, 0) + ... + F(k, len - 1). */
  function RowSum(F: (nat, nat) -> Complex, k: nat, len: nat): Complex {
    if len == 0 then Zero else Add(RowSum(F, k, len - 1), F(k, len - 1))
  }

  /** F(0, l) + ... + F(len - 1, l). */
  function ColumnSum(F: (nat, nat) -> Complex, l: nat, len: nat): Complex {
    if len == 0 then Zero else Add(ColumnSum(F, l, len - 1), F(len - 1, l))
  }

  /** The sum of the first `rows` row sums, each over `cols` entries. */
  function SumOfRows(F: (nat, nat) -> Complex, rows: nat, cols: nat): Complex {
    if rows == 0 then Zero else Add(SumOfRows(F, rows - 1, cols), RowSum(F, rows - 1, cols))
  }

  /** The sum of the first `cols` column sums, each over `rows` entries. */
  function SumOfColumns(F: (nat, nat) -> Complex, rows: nat, cols: nat): Complex {
    if cols == 0 then Zero else Add(SumOfColumns(F, rows, cols - 1), ColumnSum(F, cols - 1, rows))
  }

  lemma {:induction false} NoRows(F: (nat, nat) -> Complex, cols: nat)
    ensures SumOfColumns(F, 0, cols) == Zero
  {
    if cols > 0 {
      NoRows(F, cols - 1);
    }
  }

  /** One more row adds its row sum to the sum of the columns. */
  lemma {:induction false} ColumnsOneMoreRow(F: (nat, nat) -> Complex, rows: nat, cols: nat)
    ensures SumOfColumns(F, rows + 1, cols) == Add(SumOfColumns(F, rows, cols), RowSum(F, rows, cols))
  {
    if cols > 0 {
      ColumnsOneMoreRow(F, rows, cols - 1);
    }
  }

  /** The order of summation does not matter. */
  lemma {:induction false} SumsCommute(F: (nat, nat) -> Complex, rows: nat, cols: nat)
    ensures SumOfRows(F, rows, cols) == SumOfColumns(F, rows, cols)
  {
    if rows == 0 {
      NoRows(F, cols);
    } else {
      SumsCommute(F, rows - 1, cols);
      ColumnsOneMoreRow(F, rows - 1, cols);
    }
  }

  /** Columns that are all zero but column j. */
  lemma {:induction false} SingleColumn(F: (nat, nat) -> Complex, rows: nat, cols: nat, j: nat, v: Complex)
    requires forall l :: 0 <= l < cols ==> ColumnSum(F, l, rows) == if l == j then v else Zero
    ensures SumOfColumns(F, rows, cols) == if j < cols then v else Zero
  {
    if cols > 0 {
      SingleColumn(F, rows, cols - 1, j, v);
    }
  }

  // ---------------------------------------------------------------------------
  // The inverse of one bin

  /** Conjugating the DFT of the conjugated spectrum conjugates only the twiddles. */
  lemma {:induction false} ConjugatedSum(unit: real -> Complex, X: seq<Complex>, j: nat, len: nat,
                                         F: (nat, nat) -> Complex)
    requires |X| >= 1 && len <= |X|
    requires forall k :: 0 <= k < len ==> RowSum(F, k, |X|) == Mul(X[k], Conj(Twiddle(unit, j * k, |X|)))
    ensures Conj(DftPartialSum(unit, ConjAll(X), j, len)) == SumOfRows(F, len, |X|)
  {
    if len > 0 {
      var k := len - 1;
      var Z := ConjAll(X);
      ConjugatedSum(unit, X, j, k, F);
      var w := Twiddle(unit, j * k, |X|);
      assert Z[k] == Conj(X[k]);
      PartialSumStep(unit, Z, j, k);
      ConjOfTerm(DftPartialSum(unit, Z, j, k), X[k], w);
    }
  }

  lemma ConjOfTerm(p: Complex, a: Complex, w: Complex)
    ensures Conj(Add(p, Mul(Conj(a), w))) == Add(Conj(p), Mul(a, Conj(w)))
  {
  }

  lemma MulAddRight(p: Complex, b: Complex, c: Complex)
    ensures Mul(Add(p, b), c) == Add(Mul(p, c), Mul(b, c))
  {
  }

  lemma MulAddLeft(a: Complex, p: Complex, b: Complex)
    ensures Mul(a, Add(p, b)) == Add(Mul(a, p), Mul(a, b))
  {
  }

  /** Bin k of the DFT of y times a constant c, as a sum over the samples. */
  lemma {:induction false} ScaledRow(unit: real -> Complex, y: seq<Complex>, k: nat, c: Complex, len: nat,
                                     F: (nat, nat) -> Complex)
    requires len <= |y|
    requires forall l :: 0 <= l < len ==> F(k, l) == Mul(Mul(y[l], Twiddle(unit, k * l, |y|)), c)
    ensures RowSum(F, k, len) == Mul(DftPartialSum(unit, y, k, len), c)
  {
    if len > 0 {
      var l := len - 1;
      ScaledRow(unit, y, k, c, l, F);
      MulAddRight(DftPartialSum(unit, y, k, l), Mul(y[l], Twiddle(unit, k * l, |y|)), c);
    }
  }

  /** A column whose entries are a times the twiddles of bin d is a times the
      sum of the roots of unity to the power d. */
  lemma {:induction false} ScaledColumn(unit: real -> Complex, ones: seq<Complex>, l: nat, d: int, a: Complex,
                                        len: nat, F: (nat, nat) -> Complex)
    requires len <= |ones| && AllOnes(ones)
    requires forall k :: 0 <= k < len ==> F(k, l) == Mul(a, Twiddle(unit, d * k, |ones|))
    ensures ColumnSum(F, l, len) == Mul(a, DftPartialSum(unit, ones, d, len))
  {
    if len > 0 {
      var k := len - 1;
      ScaledColumn(unit, ones, l, d, a, k, F);
      var w := Twiddle(unit, d * k, |ones|);
      MulOne(w);
      assert DftPartialSum(unit, ones, d, len) == Add(DftPartialSum(unit, ones, d, k), w);
      MulAddLeft(a, DftPartialSum(unit, ones, d, k), w);
    }
  }

  lemma TwiddleRatio(k: nat, l: nat, j: nat, n: nat)
    requires n > 0
    ensures (k * l) as real / n as real + -((j * k) as real / n as real) == ((l - j) * k) as real / n as real
  {
    assert (l - j) * k == k * l - j * k;
  }

  /** The twiddle of sample l in bin k, times the conjugated twiddle of sample k
      in bin j, is the twiddle of bin l - j at sample k. */
  lemma EntryTwiddle(unit: real -> Complex, k: nat, l: nat, j: nat, n: nat)
    requires UnitCircle(unit) && n > 0
    ensures Mul(Twiddle(unit, k * l, n), Conj(Twiddle(unit, j * k, n))) == Twiddle(unit, (l - j) * k, n)
  {
    var s, t := (k * l) as real / n as real, (j * k) as real / n as real;
    assert Conj(unit(t)) == unit(-t);
    assert UnitSum(unit, s, -t) == Mul(unit(s), unit(-t));
    TwiddleRatio(k, l, j, n);
  }

  lemma MulAssoc(a: Complex, b: Complex, c: Complex)
    ensures Mul(Mul(a, b), c) == Mul(a, Mul(b, c))
  {
  }

  lemma ScaleBack(a: Complex, n: real)
    requires n != 0.0
    ensures Scale(1.0 / n, Mul(a, Complex(n, 0.0))) == a
  {
    assert (1.0 / n) * n == 1.0;
    assert (1.0 / n) * (a.re * n - a.im * 0.0) == a.re * ((1.0 / n) * n);
    assert (1.0 / n) * (a.re * 0.0 + a.im * n) == a.im * ((1.0 / n) * n);
  }

  /** F(k, l): sample l's term of bin k of the DFT of y, times the conjugated
      twiddle that bin k carries in sample j of the inverse. */
  ghost predicate InverseMatrix(unit: real -> Complex, y: seq<Complex>, j: nat, F: (nat, nat) -> Complex)
    requires |y| >= 1
  {
    forall k: nat, l: nat {:trigger F(k, l)} :: l < |y| ==>
      F(k, l) == Mul(Mul(y[l], Twiddle(unit, k * l, |y|)), Conj(Twiddle(unit, j * k, |y|)))
  }

  /** Sample j of the inverse, before scaling, is the sum of the rows of F. */
  lemma {:induction false} InverseAsRows(unit: real -> Complex, y: seq<Complex>, j: nat, F: (nat, nat) -> Complex)
    requires |y| >= 1 && InverseMatrix(unit, y, j, F)
    ensures Conj(DftBin(unit, ConjAll(Dft(unit, y)), j)) == SumOfRows(F, |y|, |y|)
  {
    var n := |y|;
    var X := Dft(unit, y);
    forall k | 0 <= k < n ensures RowSum(F, k, n) == Mul(X[k], Conj(Twiddle(unit, j * k, n))) {
      ScaledRow(unit, y, k, Conj(Twiddle(unit, j * k, n)), n, F);
    }
    ConjugatedSum(unit, X, j, n, F);
  }

  /** Column l of F sums to n y[j] when l == j and to 0 otherwise. */
  lemma {:induction false} ColumnOfInverse(unit: real -> Complex, y: seq<Complex>, j: nat, l: nat,
                                           F: (nat, nat) -> Complex)
    requires UnitCircle(unit) && IsPowerOfTwo(|y|) && j < |y| && l < |y|
    requires InverseMatrix(unit, y, j, F)
    ensures ColumnSum(F, l, |y|) == if l == j then Mul(y[j], Complex(|y| as real, 0.0)) else Zero
  {
    var n := |y|;
    var ones := seq(n, _ => One);
    forall k: nat | k < n ensures F(k, l) == Mul(y[l], Twiddle(unit, (l - j) * k, n)) {
      EntryTwiddle(unit, k, l, j, n);
      MulAssoc(y[l], Twiddle(unit, k * l, n), Conj(Twiddle(unit, j * k, n)));
    }
    ScaledColumn(unit, ones, l, l - j, y[l], n, F);
    Orthogonality(unit, ones, l - j);
    DifferenceMultiple(l, j, n);
    ColumnValue(y[l], ColumnSum(F, l, n), DftBin(unit, ones, l - j), n as real, l == j);
  }

  lemma ColumnValue(a: Complex, c: Complex, r: Complex, n: real, diagonal: bool)
    requires c == Mul(a, r)
    requires r == if diagonal then Complex(n, 0.0) else Zero
    ensures c == if diagonal then Mul(a, Complex(n, 0.0)) else Zero
  {
  }

  /** Sample j of the inverse DFT of the DFT of y is y[j]. */
  lemma {:induction false} InverseOfBin(unit: real -> Complex, y: seq<Complex>, j: nat)
    requires UnitCircle(unit) && IsPowerOfTwo(|y|) && j < |y|
    ensures Scale(1.0 / |y| as real, Conj(DftBin(unit, ConjAll(Dft(unit, y)), j))) == y[j]
  {
    var n := |y|;
    var F: (nat, nat) -> Complex := (k: nat, l: nat) =>
      if l < n then Mul(Mul(y[l], Twiddle(unit, k * l, n)), Conj(Twiddle(unit, j * k, n))) else Zero;
    assert InverseMatrix(unit, y, j, F);
    InverseAsRows(unit, y, j, F);
    SumsCommute(F, n, n);
    var v := Mul(y[j], Complex(n as real, 0.0));
    forall l | 0 <= l < n ensures ColumnSum(F, l, n) == if l == j then v else Zero {
      ColumnOfInverse(unit, y, j, l, F);
    }
    SingleColumn(F, n, n, j, v);
    ScaleBack(y[j], n as real);
  }

  /** The conjugated, scaled DFT undoes the DFT at every power-of-two size. */
  lemma {:induction false} DftRoundTrip(unit: real -> Complex, y: seq<Complex>)
    requires UnitCircle(unit) && IsPowerOfTwo(|y|)
    ensures ScaleAll(1.0 / |y| as real, ConjAll(Dft(unit, ConjAll(Dft(unit, y))))) == y
  {
    var r := ScaleAll(1.0 / |y| as real, ConjAll(Dft(unit, ConjAll(Dft(unit, y)))));
    forall j | 0 <= j < |y| ensures r[j] == y[j] {
      InverseOfBin(unit, y, j);
    }
  }

  /** `ifft(fft(x, n), n)` is x zero-padded or truncated to n, for every
      power-of-two transform size (given as n, or the length of x). */
  lemma {:induction false} RoundTrip(unit: real -> Complex, x: seq<Complex>, n: Option<nat>)
    requires UnitCircle(unit) && IsPowerOfTwo(TransformSize(x, n))
    ensures var size := TransformSize(x, n);
      size >= 1 && TransformSize(Transform(unit, x, n), n) == size &&
      InverseTransform(unit, Transform(unit, x, n), n) == PadOrTruncate(x, size)
  {
    var size := TransformSize(x, n);
    PowerOfTwoPositive(size);
    var y := PadOrTruncate(x, size);
    var spectrum := Transform(unit, x, n);
    TransformIsDft(unit, x, n);
    assert TransformSize(spectrum, n) == size;
    InverseTransformIsDft(unit, spectrum, n);
    assert PadOrTruncate(ConjAll(spectrum), size) == ConjAll(spectrum);
    DftRoundTrip(unit, y);
  }
}
