/** Per-block peak normalisation, shared by every path that guards against
    clipping: `max_val = np.max(np.abs(output)); if max_val > 1.0: output = output / max_val`. */
module Signal {

  /** The sequence reads the same backwards: s[i] == s[|s| - 1 - i]. */
  predicate Palindrome(s: seq<real>) {
    forall i, j :: 0 <= i < |s| && i + j == |s| - 1 ==> s[i] == s[j]
  }

  /** s[k] == s[n - k] for 0 < k < n: bin k and bin n - k of an n-point
      spectrum stand for frequencies of the same magnitude. */
  predicate CircularlySymmetric(s: seq<real>) {
    forall i, j :: 0 < i < |s| && i + j == |s| ==> s[i] == s[j]
  }

  function Abs(x: real): real { if x < 0.0 then -x else x }

  /** `np.max(np.abs(y))`; numpy raises on an empty array, hence the precondition. */
  function MaxAbs(y: seq<real>): (m: real)
    requires |y| > 0
    ensures forall i :: 0 <= i < |y| ==> Abs(y[i]) <= m
    ensures exists i :: 0 <= i < |y| && Abs(y[i]) == m
  {
    if |y| == 1 then Abs(y[0])
    else
      var rest := MaxAbs(y[1..]);
      assert forall i :: 1 <= i < |y| ==> y[i] == y[1..][i - 1];
      if Abs(y[0]) >= rest then Abs(y[0]) else rest
  }

  /** The block divided by its peak when the peak exceeds 1.0, otherwise the block itself. */
  function PeakNormalize(y: seq<real>): (r: seq<real>)
    requires |y| > 0
    ensures |r| == |y|
    ensures forall i :: 0 <= i < |r| ==> Abs(r[i]) <= 1.0
    ensures MaxAbs(y) <= 1.0 ==> r == y
    ensures MaxAbs(y) > 1.0 ==> MaxAbs(r) == 1.0
    ensures MaxAbs(y) > 1.0 ==> forall i :: 0 <= i < |r| ==> r[i] == y[i] / MaxAbs(y)
  {
    var peak := MaxAbs(y);
    if peak > 1.0 then
      DividedBounds(y, peak);
      DividedPeak(y, peak);
      Divided(y, peak)
    else
      y
  }

  function Divided(y: seq<real>, peak: real): (r: seq<real>)
    requires peak != 0.0
    ensures |r| == |y|
  {
    seq(|y|, i requires 0 <= i < |y| => y[i] / peak)
  }

  lemma {:induction false} DividedBounds(y: seq<real>, peak: real)
    requires peak > 1.0
    requires forall i :: 0 <= i < |y| ==> Abs(y[i]) <= peak
    ensures forall i :: 0 <= i < |y| ==> Abs(Divided(y, peak)[i]) <= 1.0 && Divided(y, peak)[i] * peak == y[i]
  {
    var r := Divided(y, peak);
    forall i | 0 <= i < |y| ensures Abs(r[i]) <= 1.0 && r[i] * peak == y[i] {
      var x := y[i];
      assert r[i] == x / peak;
      ScaledAbs(x, peak);
    }
  }

  lemma {:induction false} DividedPeak(y: seq<real>, peak: real)
    requires peak > 1.0
    requires forall i :: 0 <= i < |y| ==> Abs(y[i]) <= peak
    requires exists i :: 0 <= i < |y| && Abs(y[i]) == peak
    ensures MaxAbs(Divided(y, peak)) == 1.0
  {
    var r := Divided(y, peak);
    DividedBounds(y, peak);
    var j :| 0 <= j < |y| && Abs(y[j]) == peak;
    var x := y[j];
    assert r[j] == x / peak;
    ScaledAbs(x, peak);
    MaxAbsIsLeastBound(r, 1.0);
  }

  lemma ScaledAbs(x: real, peak: real)
    requires peak > 1.0 && Abs(x) <= peak
    ensures (x / peak) * peak == x
    ensures Abs(x / peak) <= 1.0
    ensures Abs(x) == peak ==> Abs(x / peak) == 1.0
  {
  }

  lemma {:induction false} MaxAbsIsLeastBound(y: seq<real>, b: real)
    requires |y| > 0
    requires forall i :: 0 <= i < |y| ==> Abs(y[i]) <= b
    requires exists i :: 0 <= i < |y| && Abs(y[i]) == b
    ensures MaxAbs(y) == b
  {
  }
}
