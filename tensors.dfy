/** Dense real-valued batches.  A batch is the sequence of its samples (the
    slices along the batch axis, dimension 0); a sample is the flattened
    sequence of its elements.  Reals stand in for floating point. */
module Tensors {

  type Sample = seq<real>
  type Batch = seq<Sample>

  function Abs(x: real): (r: real)
    ensures 0.0 <= r && (r == x || r == -x)
  {
    if x < 0.0 then -x else x
  }

  function Max(a: real, b: real): real { if a < b then b else a }

  function Min(a: real, b: real): real { if a < b then a else b }

  /** Real multiplication.  Products in the model are written through this
      function, and the facts the proofs need about them are the lemmas
      below; stated on raw `*` terms the same linear steps overwhelm the
      solver. */
  function Mul(a: real, b: real): real { a * b }

  /** torch.clamp(x, lo, hi), which is min(max(x, lo), hi): a value below the
      interval goes to its lower end, one above to its upper end, and when
      lo > hi every value becomes hi. */
  function Clamp(x: real, lo: real, hi: real): (r: real)
    ensures lo <= x <= hi ==> r == x
    ensures x < lo <= hi ==> r == lo
    ensures lo <= hi < x ==> r == hi
    ensures hi < lo ==> r == hi
  {
    Min(Max(x, lo), hi)
  }

  /** Two batches with the same number of samples, sample by sample of the same length. */
  predicate SameShape(a: Batch, b: Batch) {
    |a| == |b| && forall i :: 0 <= i < |a| ==> |a[i]| == |b[i]|
  }

  predicate SampleInBox(v: Sample) {
    forall j :: 0 <= j < |v| ==> 0.0 <= v[j] <= 1.0
  }

  /** Every element of the batch lies in [0, 1]. */
  predicate InBox(a: Batch) {
    forall i, j :: 0 <= i < |a| && 0 <= j < |a[i]| ==> 0.0 <= a[i][j] <= 1.0
  }

  // Elementwise arithmetic on samples.

  function SubSample(u: Sample, v: Sample): (r: Sample)
    requires |u| == |v|
    ensures |r| == |u|
  {
    seq(|u|, j requires 0 <= j < |u| => u[j] - v[j])
  }

  function AddSample(u: Sample, v: Sample): (r: Sample)
    requires |u| == |v|
    ensures |r| == |u|
  {
    seq(|u|, j requires 0 <= j < |u| => u[j] + v[j])
  }

  function ScaleSample(f: real, v: Sample): (r: Sample)
    ensures |r| == |v|
  {
    seq(|v|, j requires 0 <= j < |v| => Mul(f, v[j]))
  }

  function ClampSample(v: Sample, lo: real, hi: real): (r: Sample)
    ensures |r| == |v|
  {
    seq(|v|, j requires 0 <= j < |v| => Clamp(v[j], lo, hi))
  }

  // Elementwise arithmetic on batches.

  function Sub(a: Batch, b: Batch): (r: Batch)
    requires SameShape(a, b)
    ensures SameShape(r, a)
  {
    seq(|a|, i requires 0 <= i < |a| => SubSample(a[i], b[i]))
  }

  function Add(a: Batch, b: Batch): (r: Batch)
    requires SameShape(a, b)
    ensures SameShape(r, a)
  {
    seq(|a|, i requires 0 <= i < |a| => AddSample(a[i], b[i]))
  }

  function ScaleBatch(f: real, a: Batch): (r: Batch)
    ensures SameShape(r, a)
  {
    seq(|a|, i requires 0 <= i < |a| => ScaleSample(f, a[i]))
  }

  function ClampBatch(a: Batch, lo: real, hi: real): (r: Batch)
    ensures SameShape(r, a)
    ensures lo == 0.0 && hi == 1.0 ==> InBox(r)
  {
    seq(|a|, i requires 0 <= i < |a| => ClampSample(a[i], lo, hi))
  }

  /** A batch of zeros shaped like a (torch.zeros_like, Tensor.zero_). */
  function ZerosLike(a: Batch): (r: Batch)
    ensures SameShape(r, a)
    ensures forall i, j :: 0 <= i < |r| && 0 <= j < |r[i]| ==> r[i][j] == 0.0
  {
    seq(|a|, i requires 0 <= i < |a| => seq(|a[i]|, j => 0.0))
  }

  // Norms of one sample.

  /** The L1 norm: the sum of the absolute values. */
  function SumAbs(v: Sample): (r: real)
    ensures 0.0 <= r
  {
    if |v| == 0 then 0.0 else Abs(v[0]) + SumAbs(v[1..])
  }

  /** The squared L2 norm: the sum of the squares. */
  function SumSq(v: Sample): (r: real)
    ensures 0.0 <= r
  {
    if |v| == 0 then 0.0 else Mul(v[0], v[0]) + SumSq(v[1..])
  }

  /** sqrt(t) is the non-negative square root of t. */
  predicate SqrtAt(sqrt: real -> real, t: real) {
    0.0 <= sqrt(t) && Mul(sqrt(t), sqrt(t)) == t
  }

  /** sqrt is the non-negative square root on every non-negative real. */
  ghost predicate SqrtSound(sqrt: real -> real) {
    forall t :: 0.0 <= t ==> SqrtAt(sqrt, t)
  }

  // Facts of real arithmetic, one product at a time.

  lemma MulNonneg(p: real, q: real)
    requires 0.0 <= p && 0.0 <= q
    ensures 0.0 <= Mul(p, q)
  {
  }

  lemma MulPos(p: real, q: real)
    requires 0.0 < p && 0.0 < q
    ensures 0.0 < Mul(p, q)
  {
  }

  lemma MulOne(x: real)
    ensures Mul(1.0, x) == x
  {
  }

  lemma Distrib(f: real, a: real, b: real)
    ensures Mul(f, a) + Mul(f, b) == Mul(f, a + b)
  {
  }

  lemma SquareOfProduct(f: real, x: real)
    ensures Mul(Mul(f, x), Mul(f, x)) == Mul(Mul(f, f), Mul(x, x))
  {
  }

  lemma AbsScale(f: real, x: real)
    requires 0.0 <= f
    ensures Abs(Mul(f, x)) == Mul(f, Abs(x))
  {
    if x < 0.0 {
      MulNonneg(f, -x);
      assert f * x == -(f * -x);
    } else {
      MulNonneg(f, x);
    }
  }

  /** For non-negative a and b, a <= b exactly when a * a <= b * b. */
  lemma SquareMono(a: real, b: real)
    requires 0.0 <= a && 0.0 <= b
    ensures a <= b <==> Mul(a, a) <= Mul(b, b)
  {
    assert Mul(b, b) - Mul(a, a) == Mul(b - a, b + a);
    if a <= b {
      MulNonneg(b - a, b + a);
    } else {
      MulPos(a - b, a + b);
    }
  }

  lemma AbsSquare(x: real)
    ensures Mul(Abs(x), Abs(x)) == Mul(x, x)
  {
  }

  // Lemmas about the norms.

  lemma ScaleTail(f: real, v: Sample)
    requires |v| > 0
    ensures ScaleSample(f, v)[1..] == ScaleSample(f, v[1..])
  {
  }

  lemma {:induction false} SumAbsScale(f: real, v: Sample)
    requires 0.0 <= f
    ensures SumAbs(ScaleSample(f, v)) == Mul(f, SumAbs(v))
  {
    if |v| > 0 {
      ScaleTail(f, v);
      SumAbsScale(f, v[1..]);
      AbsScale(f, v[0]);
      Distrib(f, Abs(v[0]), SumAbs(v[1..]));
    }
  }

  lemma {:induction false} SumSqScale(f: real, v: Sample)
    ensures SumSq(ScaleSample(f, v)) == Mul(Mul(f, f), SumSq(v))
  {
    if |v| > 0 {
      ScaleTail(f, v);
      SumSqScale(f, v[1..]);
      SquareOfProduct(f, v[0]);
      Distrib(Mul(f, f), Mul(v[0], v[0]), SumSq(v[1..]));
    }
  }

  lemma ScaleOne(v: Sample)
    ensures ScaleSample(1.0, v) == v
  {
  }

  lemma {:induction false} SumAbsMono(u: Sample, v: Sample)
    requires |u| == |v|
    requires forall j :: 0 <= j < |u| ==> Abs(u[j]) <= Abs(v[j])
    ensures SumAbs(u) <= SumAbs(v)
  {
    if |u| > 0 {
      var u', v' := u[1..], v[1..];
      forall j | 0 <= j < |u'| ensures Abs(u'[j]) <= Abs(v'[j]) {
        assert u'[j] == u[j + 1] && v'[j] == v[j + 1];
      }
      SumAbsMono(u', v');
    }
  }

  lemma {:induction false} SumSqMono(u: Sample, v: Sample)
    requires |u| == |v|
    requires forall j :: 0 <= j < |u| ==> Mul(u[j], u[j]) <= Mul(v[j], v[j])
    ensures SumSq(u) <= SumSq(v)
  {
    if |u| > 0 {
      var u', v' := u[1..], v[1..];
      forall j | 0 <= j < |u'| ensures Mul(u'[j], u'[j]) <= Mul(v'[j], v'[j]) {
        assert u'[j] == u[j + 1] && v'[j] == v[j + 1];
      }
      SumSqMono(u', v');
    }
  }

  /** Clamping o + s to [0, 1] moves it no further from an o inside [0, 1]
      than s does. */
  lemma ClampToward(o: real, s: real)
    requires 0.0 <= o <= 1.0
    ensures Abs(Clamp(o + s, 0.0, 1.0) - o) <= Abs(s)
  {
  }

  lemma ClampTowardSquare(o: real, s: real)
    requires 0.0 <= o <= 1.0
    ensures var d := Clamp(o + s, 0.0, 1.0) - o; Abs(d) <= Abs(s) && Mul(d, d) <= Mul(s, s)
  {
    var d := Clamp(o + s, 0.0, 1.0) - o;
    ClampToward(o, s);
    AbsSquare(d);
    AbsSquare(s);
    SquareMono(Abs(d), Abs(s));
  }

  lemma ClampSampleTowardAt(o: Sample, s: Sample, j: int)
    requires |o| == |s| && SampleInBox(o) && 0 <= j < |o|
    ensures var d := SubSample(ClampSample(AddSample(o, s), 0.0, 1.0), o);
      Abs(d[j]) <= Abs(s[j]) && Mul(d[j], d[j]) <= Mul(s[j], s[j])
  {
    var d := SubSample(ClampSample(AddSample(o, s), 0.0, 1.0), o);
    assert d[j] == Clamp(o[j] + s[j], 0.0, 1.0) - o[j];
    ClampTowardSquare(o[j], s[j]);
  }

  /** The sample form of ClampToward, in both norms. */
  lemma ClampSampleToward(o: Sample, s: Sample)
    requires |o| == |s| && SampleInBox(o)
    ensures SumAbs(SubSample(ClampSample(AddSample(o, s), 0.0, 1.0), o)) <= SumAbs(s)
    ensures SumSq(SubSample(ClampSample(AddSample(o, s), 0.0, 1.0), o)) <= SumSq(s)
  {
    var d := SubSample(ClampSample(AddSample(o, s), 0.0, 1.0), o);
    forall j | 0 <= j < |d|
      ensures Abs(d[j]) <= Abs(s[j]) && Mul(d[j], d[j]) <= Mul(s[j], s[j])
    {
      ClampSampleTowardAt(o, s, j);
    }
    SumAbsMono(d, s);
    SumSqMono(d, s);
  }

  /** Adding back the difference to the anchor gives the original sample. */
  lemma AddSubCancel(o: Sample, x: Sample)
    requires |o| == |x|
    ensures AddSample(o, SubSample(x, o)) == x
  {
  }

  /** A sample already inside [0, 1] is left alone by the clamp. */
  lemma ClampSampleInBox(v: Sample)
    requires SampleInBox(v)
    ensures ClampSample(v, 0.0, 1.0) == v
  {
  }

  lemma {:induction false} SumAbsZeros(v: Sample)
    requires forall j :: 0 <= j < |v| ==> v[j] == 0.0
    ensures SumAbs(v) == 0.0
  {
    if |v| > 0 {
      SumAbsZeros(v[1..]);
    }
  }

  lemma {:induction false} SumSqZeros(v: Sample)
    requires forall j :: 0 <= j < |v| ==> v[j] == 0.0
    ensures SumSq(v) == 0.0
  {
    if |v| > 0 {
      SumSqZeros(v[1..]);
    }
  }

  /** The box clamp leaves a batch already inside [0, 1] alone. */
  lemma ClampBatchInBox(a: Batch)
    requires InBox(a)
    ensures ClampBatch(a, 0.0, 1.0) == a
  {
    var r := ClampBatch(a, 0.0, 1.0);
    forall i | 0 <= i < |a|
      ensures r[i] == a[i]
    {
      ClampSampleInBox(a[i]);
    }
  }

  lemma SameShapeTrans(a: Batch, b: Batch, c: Batch)
    requires SameShape(a, b) && SameShape(b, c)
    ensures SameShape(a, c)
  {
  }

  /** Accumulating onto zeros gives the accumulated batch itself. */
  lemma AddZerosLike(a: Batch, b: Batch)
    requires SameShape(a, b)
    ensures Add(ZerosLike(a), b) == b
  {
    var r := Add(ZerosLike(a), b);
    forall i | 0 <= i < |b|
      ensures r[i] == b[i]
    {
      assert forall j :: 0 <= j < |b[i]| ==> r[i][j] == 0.0 + b[i][j];
    }
  }
}
