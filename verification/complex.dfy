/** Complex samples (numpy's complex128) over exact reals. */
module ComplexNumbers {

  datatype Complex = Complex(re: real, im: real)

  const Zero: Complex := Complex(0.0, 0.0)
  const One: Complex := Complex(1.0, 0.0)

  function FromReal(r: real): Complex { Complex(r, 0.0) }

  function Add(a: Complex, b: Complex): Complex { Complex(a.re + b.re, a.im + b.im) }

  function Sub(a: Complex, b: Complex): Complex { Complex(a.re - b.re, a.im - b.im) }

  function Neg(a: Complex): Complex { Complex(-a.re, -a.im) }

  function Mul(a: Complex, b: Complex): Complex {
    Complex(a.re * b.re - a.im * b.im, a.re * b.im + a.im * b.re)
  }

  function Conj(a: Complex): Complex { Complex(a.re, -a.im) }

  /** Multiplication by a real scalar. */
  function Scale(r: real, a: Complex): Complex { Complex(r * a.re, r * a.im) }

  /** A real signal as a complex one (`x.astype(np.complex128)`). */
  function ToComplex(x: seq<real>): (z: seq<Complex>)
    ensures |z| == |x|
  {
    seq(|x|, i requires 0 <= i < |x| => FromReal(x[i]))
  }

  /** `np.real(z)`. */
  function RealParts(z: seq<Complex>): (x: seq<real>)
    ensures |x| == |z|
  {
    seq(|z|, i requires 0 <= i < |z| => z[i].re)
  }

  /** `np.conj(z)`. */
  function ConjAll(z: seq<Complex>): (c: seq<Complex>)
    ensures |c| == |z|
  {
    seq(|z|, i requires 0 <= i < |z| => Conj(z[i]))
  }

  /** `r * z` for a real r, entry by entry. */
  function ScaleAll(r: real, z: seq<Complex>): (c: seq<Complex>)
    ensures |c| == |z|
  {
    seq(|z|, i requires 0 <= i < |z| => Scale(r, z[i]))
  }

  /** `a + b`, entry by entry. */
  function AddAll(a: seq<Complex>, b: seq<Complex>): (c: seq<Complex>)
    requires |a| == |b|
    ensures |c| == |a|
  {
    seq(|a|, i requires 0 <= i < |a| => Add(a[i], b[i]))
  }

  /** A spectrum multiplied bin by bin by a real frequency response (`X * H`). */
  function MulByResponse(z: seq<Complex>, h: seq<real>): (c: seq<Complex>)
    requires |z| == |h|
    ensures |c| == |z|
  {
    seq(|z|, i requires 0 <= i < |z| => Scale(h[i], z[i]))
  }

  // Ring identities used by the transform proofs.

  lemma MulOne(a: Complex)
    ensures Mul(a, One) == a && Mul(One, a) == a
  {
  }

  lemma AddZero(a: Complex)
    ensures Add(Zero, a) == a && Add(a, Zero) == a
  {
  }

  /** (e + w o) + a u + b (u w) == (e + a u) + w (o + b u). */
  lemma Regroup(e: Complex, o: Complex, a: Complex, b: Complex, u: Complex, w: Complex)
    ensures Add(Add(Add(e, Mul(w, o)), Mul(a, u)), Mul(b, Mul(u, w))) ==
            Add(Add(e, Mul(a, u)), Mul(w, Add(o, Mul(b, u))))
  {
  }

  lemma AddNegMul(e: Complex, w: Complex, o: Complex)
    ensures Add(e, Mul(Neg(w), o)) == Sub(e, Mul(w, o))
  {
  }

  lemma MulNegOne(a: Complex)
    ensures Mul(a, Neg(One)) == Neg(a)
  {
  }

  lemma ScaleOne(a: Complex)
    ensures Scale(1.0, a) == a
  {
  }
}
