/** The numpy routines and transcendental functions the core calls, as
    parameters: the model never computes them, it only uses the laws below. */
module NumPyModel {
  import opened ComplexNumbers

  datatype NumPy = NumPy(
    exp: real -> real,                   // np.exp
    sinc: real -> real,                  // np.sinc, sin(pi x) / (pi x)
    pow10: real -> real,                 // 10 ** x
    sqrt: real -> real,                  // np.sqrt
    ln: real -> real,                    // np.log
    log10: real -> real,                 // np.log10
    pi: real,                            // np.pi
    hamming: (nat, nat) -> real,         // np.hamming(length)[index], as hamming(index, length)
    fft: seq<Complex> -> seq<Complex>,   // np.fft.fft
    ifft: seq<Complex> -> seq<Complex>)  // np.fft.ifft

  /** The laws of these routines that the model's properties rely on; every one
      holds of the true functions. */
  ghost predicate Sound(np: NumPy) {
    && np.exp(0.0) == 1.0
    && (forall x :: x <= 0.0 ==> 0.0 < np.exp(x) <= 1.0)
    && (forall x, y :: x == -y ==> np.sinc(x) == np.sinc(y))
    && np.pow10(0.0) == 1.0
    && (forall x :: np.pow10(x) > 0.0)
    && (forall x, y :: x < y ==> np.pow10(x) < np.pow10(y))
    && (forall x :: x >= 0.0 ==> np.sqrt(x) >= 0.0)
    && (forall x :: x > 0.0 ==> np.sqrt(x) > 0.0)
    && np.ln(2.0) > 0.0
    && np.pi > 0.0
    && (forall i: nat, j: nat, len: nat {:trigger np.hamming(i, len), np.hamming(j, len)} ::
          i + j + 1 == len ==> np.hamming(i, len) == np.hamming(j, len))
    && (forall z :: |np.fft(z)| == |z|)
    && (forall z :: |np.ifft(z)| == |z|)
    && (forall z :: np.ifft(np.fft(z)) == z)
    && (forall a, b {:trigger np.ifft(AddAll(a, b))} :: |a| == |b| ==> np.ifft(AddAll(a, b)) == AddAll(np.ifft(a), np.ifft(b)))
    && (forall r, a {:trigger np.ifft(ScaleAll(r, a))} :: np.ifft(ScaleAll(r, a)) == ScaleAll(r, np.ifft(a)))
  }

  /** `np.abs` of a complex value. */
  function Modulus(np: NumPy, z: Complex): (m: real)
    requires Sound(np)
    ensures m >= 0.0
  {
    np.sqrt(z.re * z.re + z.im * z.im)
  }

  /** The full width at half maximum of a unit Gaussian, `2 * np.sqrt(2 * np.log(2))`. */
  function FwhmFactor(np: NumPy): (c: real)
    requires Sound(np)
    ensures c > 0.0
  {
    2.0 * np.sqrt(2.0 * np.ln(2.0))
  }

  /** `np.exp(-0.5 * ((f - center) / sigma) ** 2)`: the Gaussian bell. */
  function Gaussian(np: NumPy, f: real, center: real, sigma: real): (g: real)
    requires Sound(np) && sigma != 0.0
    ensures 0.0 < g <= 1.0
    ensures f == center ==> g == 1.0
  {
    var z := (f - center) / sigma;
    np.exp(-0.5 * (z * z))
  }

  /** `10 ** (gain_db / 20)`: a gain in decibels as a linear amplitude factor. */
  function DbToLinear(np: NumPy, gainDb: real): (a: real)
    requires Sound(np)
    ensures a > 0.0
    ensures gainDb == 0.0 <==> a == 1.0
    ensures gainDb > 0.0 <==> a > 1.0
    ensures gainDb < 0.0 <==> a < 1.0
  {
    np.pow10(gainDb / 20.0)
  }

  /** `np.real(np.fft.ifft(np.fft.fft(x) * h))`: x filtered by the real
      frequency response h, bin by bin. */
  function FilterSpectrum(np: NumPy, x: seq<real>, h: seq<real>): (y: seq<real>)
    requires Sound(np) && |h| == |x|
    ensures |y| == |x|
  {
    var spectrum := np.fft(ToComplex(x));
    RealParts(np.ifft(MulByResponse(spectrum, h)))
  }

  /** A response of all ones passes the signal through unchanged. */
  lemma {:induction false} FilterWithUnitResponse(np: NumPy, x: seq<real>)
    requires Sound(np)
    ensures FilterSpectrum(np, x, seq(|x|, _ => 1.0)) == x
  {
    var ones := seq(|x|, _ => 1.0);
    var spectrum := np.fft(ToComplex(x));
    assert MulByResponse(spectrum, ones) == spectrum by {
      forall k | 0 <= k < |spectrum| ensures MulByResponse(spectrum, ones)[k] == spectrum[k] {
        ScaleOne(spectrum[k]);
      }
    }
    assert RealParts(ToComplex(x)) == x;
  }
}
