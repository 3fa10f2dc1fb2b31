/** Sample-sequence operations shared by the detector and the training
    scripts: fixing a clip to an exact length, scaling, mean power and peak
    normalisation. Samples are modelled as reals; float32 rounding is not. */
module Signal {
  import opened Base

  type Samples = seq<real>

  function Zeros(n: nat): (z: Samples)
    ensures |z| == n
    ensures forall i :: 0 <= i < n ==> z[i] == 0.0
  {
    seq(n, _ => 0.0)
  }

  /** Pad with zeros on the right up to `n` samples, or keep the first `n`
      samples: `np.pad(x, (0, n - len(x)))` when short, `x[:n]` otherwise. */
  function FixLength(x: Samples, n: nat): (r: Samples)
    ensures |r| == n
    ensures forall i :: 0 <= i < n ==> r[i] == (if i < |x| then x[i] else 0.0)
  {
    if |x| < n then x + Zeros(n - |x|) else x[..n]
  }

  /** A short clip survives as a prefix and is followed only by zeros. */
  lemma FixLengthPadsShort(x: Samples, n: nat)
    requires |x| < n
    ensures FixLength(x, n)[..|x|] == x
    ensures forall i :: |x| <= i < n ==> FixLength(x, n)[i] == 0.0
  {
    var r := FixLength(x, n);
    assert forall i :: 0 <= i < |x| ==> r[..|x|][i] == x[i];
  }

  /** A long clip is cut to its first `n` samples. */
  lemma FixLengthTruncatesLong(x: Samples, n: nat)
    requires n <= |x|
    ensures FixLength(x, n) == x[..n]
  {
    var r := FixLength(x, n);
    assert forall i :: 0 <= i < n ==> r[i] == x[..n][i];
  }

  /** Fixing the length a second time changes nothing. */
  lemma FixLengthIdempotent(x: Samples, n: nat)
    ensures FixLength(FixLength(x, n), n) == FixLength(x, n)
  {
    var r := FixLength(x, n);
    var rr := FixLength(r, n);
    assert forall i :: 0 <= i < n ==> rr[i] == r[i];
  }

  /** `x * g` on a numpy array. */
  function Scale(x: Samples, g: real): (r: Samples)
    ensures |r| == |x|
    ensures forall i :: 0 <= i < |x| ==> r[i] == x[i] * g
  {
    seq(|x|, i requires 0 <= i < |x| => x[i] * g)
  }

  /** `x / d` on a numpy array. */
  function Divide(x: Samples, d: real): (r: Samples)
    requires d != 0.0
    ensures |r| == |x|
    ensures forall i :: 0 <= i < |x| ==> r[i] == x[i] / d
  {
    seq(|x|, i requires 0 <= i < |x| => x[i] / d)
  }

  /** `x + y` on two numpy arrays of one shape. */
  function Add(x: Samples, y: Samples): (r: Samples)
    requires |x| == |y|
    ensures |r| == |x|
    ensures forall i :: 0 <= i < |x| ==> r[i] == x[i] + y[i]
  {
    seq(|x|, i requires 0 <= i < |x| => x[i] + y[i])
  }

  predicate Silent(x: Samples)
  {
    forall i :: 0 <= i < |x| ==> x[i] == 0.0
  }

  /** Real product, kept behind a function so that the solver reasons about
      squares through the two sign lemmas below. */
  function Mul(a: real, b: real): real
  {
    a * b
  }

  lemma MulPositive(a: real, b: real)
    requires (a > 0.0 && b > 0.0) || (a < 0.0 && b < 0.0)
    ensures Mul(a, b) > 0.0
  {
  }

  /** `a ** 2` on one sample. */
  function Square(a: real): (s: real)
  {
    Mul(a, a)
  }

  lemma SquareSign(a: real)
    ensures a == 0.0 ==> Square(a) == 0.0
    ensures a != 0.0 ==> Square(a) > 0.0
  {
    if a != 0.0 {
      MulPositive(a, a);
    }
  }

  /** Sum of squared samples; zero exactly on a silent clip. */
  function SumSquares(x: Samples): (s: real)
    ensures 0.0 <= s
    ensures s == 0.0 <==> Silent(x)
  {
    if |x| == 0 then 0.0
    else
      var rest := SumSquares(x[1..]);
      SquareSign(x[0]);
      assert Silent(x) <==> x[0] == 0.0 && Silent(x[1..]) by {
        if x[0] == 0.0 && Silent(x[1..]) {
          forall i | 0 <= i < |x| ensures x[i] == 0.0 {
            if i > 0 { assert x[i] == x[1..][i - 1]; }
          }
        }
      }
      Square(x[0]) + rest
  }

  /** `np.mean(x ** 2)`: the mean power of a non-empty clip. */
  function MeanSquare(x: Samples): (p: real)
    requires |x| > 0
    ensures 0.0 <= p
    ensures p == 0.0 <==> Silent(x)
  {
    SumSquares(x) / |x| as real
  }

  /** `np.max(np.abs(x))` of a non-empty clip. */
  function Peak(x: Samples): (p: real)
    requires |x| > 0
    ensures forall i :: 0 <= i < |x| ==> Abs(x[i]) <= p
    ensures exists i :: 0 <= i < |x| && Abs(x[i]) == p
  {
    if |x| == 1 then Abs(x[0])
    else
      var rest := Peak(x[1..]);
      assert forall i :: 1 <= i < |x| ==> x[i] == x[1..][i - 1];
      Max(Abs(x[0]), rest)
  }

  /** A bound attained by some sample is the peak. */
  lemma PeakUnique(x: Samples, v: real)
    requires |x| > 0
    requires forall i :: 0 <= i < |x| ==> Abs(x[i]) <= v
    requires exists i :: 0 <= i < |x| && Abs(x[i]) == v
    ensures Peak(x) == v
  {
    var j :| 0 <= j < |x| && Abs(x[j]) == v;
    var k :| 0 <= k < |x| && Abs(x[k]) == Peak(x);
    assert Abs(x[k]) <= v;
    assert Abs(x[j]) <= Peak(x);
  }

  /** Dividing by a positive constant divides the peak by it. */
  lemma PeakOfDivide(x: Samples, d: real)
    requires |x| > 0 && d > 0.0
    ensures Peak(Divide(x, d)) == Peak(x) / d
  {
    var y := Divide(x, d);
    var p := Peak(x);
    forall i | 0 <= i < |x|
      ensures Abs(y[i]) == Abs(x[i]) / d
      ensures Abs(y[i]) <= p / d
    {
      AbsDivide(x[i], d);
      DivideMonotone(Abs(x[i]), p, d);
    }
    var k :| 0 <= k < |x| && Abs(x[k]) == p;
    assert Abs(y[k]) == p / d;
    PeakUnique(y, p / d);
  }

  lemma AbsDivide(a: real, d: real)
    requires d > 0.0
    ensures Abs(a / d) == Abs(a) / d
  {
    if a < 0.0 {
      assert a / d < 0.0;
      assert -(a / d) == (-a) / d;
    } else {
      assert a / d >= 0.0;
    }
  }

  lemma DivideMonotone(a: real, b: real, d: real)
    requires d > 0.0 && a <= b
    ensures a / d <= b / d
  {
    assert b / d - a / d == (b - a) / d;
  }

  /** The clipping guard of `mix_audio`: divide by the peak when it exceeds 1. */
  function PeakNormalize(x: Samples): (r: Samples)
    requires |x| > 0
    ensures |r| == |x|
    ensures Peak(x) > 1.0 ==> r == Divide(x, Peak(x))
    ensures Peak(x) <= 1.0 ==> r == x
  {
    var p := Peak(x);
    if p > 1.0 then Divide(x, p) else x
  }

  /** After the guard the peak is at most 1; a clip that was too loud is the
      clip divided by its peak and ends with peak exactly 1, and any other clip
      is left as it was. */
  lemma PeakNormalizeBounds(x: Samples)
    requires |x| > 0
    ensures Peak(PeakNormalize(x)) <= 1.0
    ensures Peak(x) > 1.0 ==> PeakNormalize(x) == Divide(x, Peak(x)) && Peak(PeakNormalize(x)) == 1.0
    ensures Peak(x) <= 1.0 ==> PeakNormalize(x) == x
  {
    var p := Peak(x);
    if p > 1.0 {
      PeakOfDivide(x, p);
      DivideSelf(p);
    }
  }

  lemma DivideSelf(d: real)
    requires d > 0.0
    ensures d / d == 1.0
  {
  }
}
