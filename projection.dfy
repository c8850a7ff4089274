/** The perturbation projectors of optimize.py and the norm selector that
    picks one of them.  Each projector maps an anchor batch `orig`, a
    candidate batch `x` and a budget `eps` to a batch whose elements lie in
    [0, 1]; the norm-ball projectors first pull the difference x - orig back
    into the eps-ball around the anchor, one sample (slice along the batch
    axis) at a time. */
module Projection {
  import opened Tensors

  /** The errors a projector raises. */
  datatype ProjectionError =
    | ShapeMismatch    // x - orig on batches of different shapes
    | NegativeMaxNorm  // Tensor.renorm with a negative maxnorm

  datatype Result<T> = Ok(value: T) | Err(error: ProjectionError)

  /** The constant Tensor.renorm adds to a slice's norm before dividing by it. */
  const RenormGuard: real := 0.0000001

  lemma DivFacts(m: real, d: real)
    requires 0.0 <= m && 0.0 < d
    ensures Mul(m / d, d) == m && 0.0 <= m / d
    ensures m < d ==> m / d < 1.0
  {
    var q := m / d;
    assert q * d == m;
    assert 0.0 <= q;
    assert m < d ==> q < 1.0;
  }

  /** The factor by which Tensor.renorm multiplies a slice whose norm is n:
      maxnorm / (n + RenormGuard) when n exceeds maxnorm, and 1 otherwise.
      It never enlarges the slice, brings its norm within maxnorm, leaves an
      over-budget slice less than RenormGuard short of maxnorm, and is 1
      exactly when the norm is already within maxnorm. */
  function RenormFactor(n: real, maxnorm: real): (f: real)
    requires 0.0 <= maxnorm
    ensures 0.0 <= f <= 1.0
    ensures Mul(f, n) <= maxnorm
    ensures n > maxnorm ==> maxnorm - RenormGuard < Mul(f, n)
    ensures f == 1.0 <==> n <= maxnorm
  {
    if n > maxnorm then
      var f := maxnorm / (n + RenormGuard);
      DivFacts(maxnorm, n + RenormGuard);
      MulNonneg(f, RenormGuard);
      assert Mul(f, n) == Mul(f, n + RenormGuard) - Mul(f, RenormGuard);
      MulPos(1.0 - f, RenormGuard);
      assert Mul(1.0 - f, RenormGuard) == RenormGuard - Mul(f, RenormGuard);
      f
    else
      MulOne(n);
      1.0
  }

  /** Tensor.renorm(p, dim=0, maxnorm), with the p-norm of a sample given
      as `norm`: every sample is multiplied by the RenormFactor of its norm.
      A negative maxnorm is refused. */
  function Renorm(d: Batch, norm: Sample -> real, maxnorm: real): (r: Result<Batch>)
    ensures r.Err? <==> maxnorm < 0.0
    ensures r.Err? ==> r.error == NegativeMaxNorm
    ensures r.Ok? ==> SameShape(r.value, d)
  {
    if maxnorm < 0.0 then Err(NegativeMaxNorm)
    else Ok(seq(|d|, i requires 0 <= i < |d| => ScaleSample(RenormFactor(norm(d[i]), maxnorm), d[i])))
  }

  /** The L2 norm of a sample, through a square-root function: wherever
      sqrt is the square root of a sample's sum of squares, the norm is
      non-negative and squares to that sum. */
  function L2Norm(sqrt: real -> real): (norm: Sample -> real)
    ensures forall v :: SqrtAt(sqrt, SumSq(v)) ==> 0.0 <= norm(v) && Mul(norm(v), norm(v)) == SumSq(v)
  {
    v => sqrt(SumSq(v))
  }

  lemma RenormSampleL1(v: Sample, maxnorm: real)
    requires 0.0 <= maxnorm
    ensures var w := ScaleSample(RenormFactor(SumAbs(v), maxnorm), v);
      SumAbs(w) <= maxnorm && (SumAbs(v) <= maxnorm ==> w == v) &&
      (maxnorm < SumAbs(v) ==> maxnorm - RenormGuard < SumAbs(w))
  {
    var f := RenormFactor(SumAbs(v), maxnorm);
    SumAbsScale(f, v);
    if SumAbs(v) <= maxnorm {
      ScaleOne(v);
    }
  }

  lemma RenormSampleL2(v: Sample, maxnorm: real, sqrt: real -> real)
    requires 0.0 <= maxnorm
    requires SqrtAt(sqrt, SumSq(v))
    ensures var w := ScaleSample(RenormFactor(sqrt(SumSq(v)), maxnorm), v);
      SumSq(w) <= Mul(maxnorm, maxnorm) &&
      (SumSq(v) <= Mul(maxnorm, maxnorm) ==> w == v) &&
      (Mul(maxnorm, maxnorm) < SumSq(v) && RenormGuard <= maxnorm ==>
        Mul(maxnorm - RenormGuard, maxnorm - RenormGuard) < SumSq(w))
  {
    var n := sqrt(SumSq(v));
    var f := RenormFactor(n, maxnorm);
    SumSqScale(f, v);
    SquareOfProduct(f, n);
    MulNonneg(f, n);
    SquareMono(Mul(f, n), maxnorm);
    SquareMono(n, maxnorm);
    if SumSq(v) <= Mul(maxnorm, maxnorm) {
      ScaleOne(v);
    }
    if Mul(maxnorm, maxnorm) < SumSq(v) && RenormGuard <= maxnorm {
      SquareMono(Mul(f, n), maxnorm - RenormGuard);
    }
  }

  /** The contract of renorm with p = 1: every sample ends with L1 norm
      within maxnorm, a sample already within it is left unchanged, and a
      sample beyond it ends less than RenormGuard short of maxnorm. */
  lemma RenormL1Contract(d: Batch, maxnorm: real)
    requires 0.0 <= maxnorm
    ensures Renorm(d, SumAbs, maxnorm).Ok?
    ensures var r := Renorm(d, SumAbs, maxnorm).value;
      forall i :: 0 <= i < |d| ==>
        SumAbs(r[i]) <= maxnorm && (SumAbs(d[i]) <= maxnorm ==> r[i] == d[i]) &&
        (maxnorm < SumAbs(d[i]) ==> maxnorm - RenormGuard < SumAbs(r[i]))
  {
    var r := Renorm(d, SumAbs, maxnorm).value;
    forall i | 0 <= i < |d|
      ensures SumAbs(r[i]) <= maxnorm && (SumAbs(d[i]) <= maxnorm ==> r[i] == d[i])
      ensures maxnorm < SumAbs(d[i]) ==> maxnorm - RenormGuard < SumAbs(r[i])
    {
      RenormSampleL1(d[i], maxnorm);
    }
  }

  /** The contract of renorm with p = 2, stated on squared norms: every
      sample ends with squared L2 norm within maxnorm^2, a sample already
      within it is left unchanged, and a sample beyond it ends with L2 norm
      above maxnorm - RenormGuard.  (When maxnorm < RenormGuard that last
      bound holds of every norm, so it is stated for the other case.) */
  lemma RenormL2Contract(d: Batch, maxnorm: real, sqrt: real -> real)
    requires 0.0 <= maxnorm
    requires forall i :: 0 <= i < |d| ==> SqrtAt(sqrt, SumSq(d[i]))
    ensures Renorm(d, L2Norm(sqrt), maxnorm).Ok?
    ensures var r := Renorm(d, L2Norm(sqrt), maxnorm).value;
      forall i :: 0 <= i < |d| ==>
        SumSq(r[i]) <= Mul(maxnorm, maxnorm) &&
        (SumSq(d[i]) <= Mul(maxnorm, maxnorm) ==> r[i] == d[i]) &&
        (Mul(maxnorm, maxnorm) < SumSq(d[i]) && RenormGuard <= maxnorm ==>
          Mul(maxnorm - RenormGuard, maxnorm - RenormGuard) < SumSq(r[i]))
  {
    var r := Renorm(d, L2Norm(sqrt), maxnorm).value;
    forall i | 0 <= i < |d|
      ensures SumSq(r[i]) <= Mul(maxnorm, maxnorm)
      ensures SumSq(d[i]) <= Mul(maxnorm, maxnorm) ==> r[i] == d[i]
      ensures Mul(maxnorm, maxnorm) < SumSq(d[i]) && RenormGuard <= maxnorm ==>
        Mul(maxnorm - RenormGuard, maxnorm - RenormGuard) < SumSq(r[i])
    {
      RenormSampleL2(d[i], maxnorm, sqrt);
    }
  }

  // The four projectors.

  /** l2_project: renorm the difference to L2 norm eps per sample, add it
      back to the anchor, clamp to [0, 1]. */
  function L2Project(orig: Batch, x: Batch, eps: real, sqrt: real -> real): (r: Result<Batch>)
    ensures !SameShape(x, orig) ==> r == Err(ShapeMismatch)
    ensures SameShape(x, orig) && eps < 0.0 ==> r == Err(NegativeMaxNorm)
    ensures SameShape(x, orig) && 0.0 <= eps ==> r.Ok? && SameShape(r.value, x) && InBox(r.value)
  {
    if !SameShape(x, orig) then Err(ShapeMismatch)
    else
      match Renorm(Sub(x, orig), L2Norm(sqrt), eps)
      case Err(e) => Err(e)
      case Ok(diff) => Ok(ClampBatch(Add(orig, diff), 0.0, 1.0))
  }

  /** linf_project: clamp the difference elementwise to [-eps, eps], add the
      anchor back, clamp to [0, 1]. */
  function LInfProject(orig: Batch, x: Batch, eps: real): (r: Result<Batch>)
    ensures !SameShape(x, orig) ==> r == Err(ShapeMismatch)
    ensures SameShape(x, orig) ==> r.Ok? && SameShape(r.value, x) && InBox(r.value)
  {
    if !SameShape(x, orig) then Err(ShapeMismatch)
    else
      var diff := ClampBatch(Sub(x, orig), -eps, eps);
      Ok(ClampBatch(Add(diff, orig), 0.0, 1.0))
  }

  /** l1_project: as l2_project, with the L1 norm. */
  function L1Project(orig: Batch, x: Batch, eps: real): (r: Result<Batch>)
    ensures !SameShape(x, orig) ==> r == Err(ShapeMismatch)
    ensures SameShape(x, orig) && eps < 0.0 ==> r == Err(NegativeMaxNorm)
    ensures SameShape(x, orig) && 0.0 <= eps ==> r.Ok? && SameShape(r.value, x) && InBox(r.value)
  {
    if !SameShape(x, orig) then Err(ShapeMismatch)
    else
      match Renorm(Sub(x, orig), SumAbs, eps)
      case Err(e) => Err(e)
      case Ok(diff) => Ok(ClampBatch(Add(orig, diff), 0.0, 1.0))
  }

  /** basic_project: ignore the anchor and the budget, clamp x to [0, 1]:
      elements inside stay, those below go to 0 and those above to 1. */
  function BasicProject(orig: Batch, x: Batch, eps: real): (r: Batch)
    ensures SameShape(r, x) && InBox(r)
    ensures forall i, j :: 0 <= i < |x| && 0 <= j < |x[i]| ==>
      (0.0 <= x[i][j] <= 1.0 ==> r[i][j] == x[i][j]) &&
      (x[i][j] < 0.0 ==> r[i][j] == 0.0) &&
      (1.0 < x[i][j] ==> r[i][j] == 1.0)
  {
    ClampBatch(x, 0.0, 1.0)
  }

  // The norm selector.

  /** The projector project_pertb returns. */
  datatype Projector = L2 | L1 | LInf | Basic

  /** project_pertb: "2", "1" and "inf" name the ball projectors; every other
      identifier falls back to the box clamp, so the selection never fails. */
  function ProjectPertb(p: string): (k: Projector)
    ensures k == L2 <==> p == "2"
    ensures k == L1 <==> p == "1"
    ensures k == LInf <==> p == "inf"
    ensures k == Basic <==> p != "2" && p != "1" && p != "inf"
  {
    if p == "2" then L2
    else if p == "1" then L1
    else if p == "inf" then LInf
    else Basic
  }

  /** Calling the selected projector: project_pertb(p)(orig, x, eps). */
  function Apply(k: Projector, orig: Batch, x: Batch, eps: real, sqrt: real -> real): (r: Result<Batch>)
    ensures r.Err? <==>
      (k != Basic && !SameShape(x, orig)) ||
      ((k == L2 || k == L1) && SameShape(x, orig) && eps < 0.0)
    ensures r.Ok? ==> SameShape(r.value, x) && InBox(r.value)
  {
    match k
    case L2 => L2Project(orig, x, eps, sqrt)
    case L1 => L1Project(orig, x, eps)
    case LInf => LInfProject(orig, x, eps)
    case Basic => Ok(BasicProject(orig, x, eps))
  }

  // The budget regions.

  predicate WithinL2(orig: Batch, y: Batch, eps: real) {
    SameShape(y, orig) &&
    forall b :: 0 <= b < |y| ==> SumSq(SubSample(y[b], orig[b])) <= Mul(eps, eps)
  }

  predicate WithinL1(orig: Batch, y: Batch, eps: real) {
    SameShape(y, orig) &&
    forall b :: 0 <= b < |y| ==> SumAbs(SubSample(y[b], orig[b])) <= eps
  }

  predicate WithinLInf(orig: Batch, y: Batch, eps: real) {
    SameShape(y, orig) &&
    forall b, j :: 0 <= b < |y| && 0 <= j < |y[b]| ==> Abs(y[b][j] - orig[b][j]) <= eps
  }

  /** y lies in the budget region of projector k around orig; the box
      projector has no region. */
  predicate Within(k: Projector, orig: Batch, y: Batch, eps: real) {
    match k
    case L2 => WithinL2(orig, y, eps)
    case L1 => WithinL1(orig, y, eps)
    case LInf => WithinLInf(orig, y, eps)
    case Basic => SameShape(y, orig)
  }

  // l1_project (optimize.py:18-21).

  /** Sample b of l1_project's output: the anchor plus the renormed
      difference, clamped. */
  lemma L1Sample(orig: Batch, x: Batch, eps: real, b: int)
    requires SameShape(x, orig) && 0.0 <= eps && 0 <= b < |x|
    ensures var d := SubSample(x[b], orig[b]);
      L1Project(orig, x, eps).value[b] ==
      ClampSample(AddSample(orig[b], ScaleSample(RenormFactor(SumAbs(d), eps), d)), 0.0, 1.0)
  {
    var d := Sub(x, orig);
    var diff := Renorm(d, SumAbs, eps).value;
    assert L1Project(orig, x, eps) == Ok(ClampBatch(Add(orig, diff), 0.0, 1.0));
    assert d[b] == SubSample(x[b], orig[b]);
    assert diff[b] == ScaleSample(RenormFactor(SumAbs(d[b]), eps), d[b]);
    assert Add(orig, diff)[b] == AddSample(orig[b], diff[b]);
    assert ClampBatch(Add(orig, diff), 0.0, 1.0)[b] == ClampSample(Add(orig, diff)[b], 0.0, 1.0);
  }

  /** A sample whose difference from its anchor has L1 norm within eps is
      not rescaled: its output is the box clamp of the sample itself. */
  lemma L1Unscaled(orig: Batch, x: Batch, eps: real, b: int)
    requires SameShape(x, orig) && 0 <= b < |x|
    requires SumAbs(SubSample(x[b], orig[b])) <= eps
    ensures L1Project(orig, x, eps).Ok?
    ensures L1Project(orig, x, eps).value[b] == ClampSample(x[b], 0.0, 1.0)
  {
    var d := SubSample(x[b], orig[b]);
    L1Sample(orig, x, eps, b);
    RenormSampleL1(d, eps);
    AddSubCancel(orig[b], x[b]);
  }

  /** With the anchor in [0, 1], every output sample lies within L1
      distance eps of its anchor sample. */
  lemma L1Ball(orig: Batch, x: Batch, eps: real)
    requires SameShape(x, orig) && InBox(orig) && 0.0 <= eps
    ensures L1Project(orig, x, eps).Ok?
    ensures WithinL1(orig, L1Project(orig, x, eps).value, eps)
  {
    var y := L1Project(orig, x, eps).value;
    forall b | 0 <= b < |y|
      ensures SumAbs(SubSample(y[b], orig[b])) <= eps
    {
      var d := SubSample(x[b], orig[b]);
      var s := ScaleSample(RenormFactor(SumAbs(d), eps), d);
      L1Sample(orig, x, eps, b);
      RenormSampleL1(d, eps);
      ClampSampleToward(orig[b], s);
    }
  }

  /** A candidate already in [0, 1] and within the L1 ball is returned
      unchanged. */
  lemma L1Noop(orig: Batch, x: Batch, eps: real)
    requires InBox(x) && WithinL1(orig, x, eps) && 0.0 <= eps
    ensures L1Project(orig, x, eps) == Ok(x)
  {
    var y := L1Project(orig, x, eps).value;
    forall b | 0 <= b < |x|
      ensures y[b] == x[b]
    {
      L1Unscaled(orig, x, eps, b);
      ClampSampleInBox(x[b]);
    }
    assert y == x;
  }

  /** With the anchor in [0, 1], projecting a second time changes nothing. */
  lemma L1Idempotent(orig: Batch, x: Batch, eps: real)
    requires InBox(orig) && L1Project(orig, x, eps).Ok?
    ensures var y := L1Project(orig, x, eps).value; L1Project(orig, y, eps) == Ok(y)
  {
    var y := L1Project(orig, x, eps).value;
    L1Ball(orig, x, eps);
    L1Noop(orig, y, eps);
  }

  // l2_project (optimize.py:6-9).

  /** sqrt behaves as the square root on the squared norm of each sample's
      difference from its anchor. */
  predicate SqrtOnDiffs(sqrt: real -> real, orig: Batch, x: Batch)
    requires SameShape(x, orig)
  {
    forall b :: 0 <= b < |x| ==> SqrtAt(sqrt, SumSq(SubSample(x[b], orig[b])))
  }

  lemma L2Sample(orig: Batch, x: Batch, eps: real, sqrt: real -> real, b: int)
    requires SameShape(x, orig) && 0.0 <= eps && 0 <= b < |x|
    ensures var d := SubSample(x[b], orig[b]);
      L2Project(orig, x, eps, sqrt).value[b] ==
      ClampSample(AddSample(orig[b], ScaleSample(RenormFactor(sqrt(SumSq(d)), eps), d)), 0.0, 1.0)
  {
    var d := Sub(x, orig);
    var diff := Renorm(d, L2Norm(sqrt), eps).value;
    assert L2Project(orig, x, eps, sqrt) == Ok(ClampBatch(Add(orig, diff), 0.0, 1.0));
    assert d[b] == SubSample(x[b], orig[b]);
    assert diff[b] == ScaleSample(RenormFactor(L2Norm(sqrt)(d[b]), eps), d[b]);
    assert Add(orig, diff)[b] == AddSample(orig[b], diff[b]);
    assert ClampBatch(Add(orig, diff), 0.0, 1.0)[b] == ClampSample(Add(orig, diff)[b], 0.0, 1.0);
  }

  /** A sample whose difference from its anchor has squared L2 norm within
      eps^2 is not rescaled: its output is the box clamp of the sample. */
  lemma L2Unscaled(orig: Batch, x: Batch, eps: real, sqrt: real -> real, b: int)
    requires SameShape(x, orig) && 0.0 <= eps && 0 <= b < |x|
    requires SqrtAt(sqrt, SumSq(SubSample(x[b], orig[b])))
    requires SumSq(SubSample(x[b], orig[b])) <= Mul(eps, eps)
    ensures L2Project(orig, x, eps, sqrt).Ok?
    ensures L2Project(orig, x, eps, sqrt).value[b] == ClampSample(x[b], 0.0, 1.0)
  {
    var d := SubSample(x[b], orig[b]);
    L2Sample(orig, x, eps, sqrt, b);
    RenormSampleL2(d, eps, sqrt);
    AddSubCancel(orig[b], x[b]);
  }

  /** With the anchor in [0, 1], every output sample lies within squared L2
      distance eps^2 of its anchor sample. */
  lemma L2Ball(orig: Batch, x: Batch, eps: real, sqrt: real -> real)
    requires SameShape(x, orig) && InBox(orig) && 0.0 <= eps
    requires SqrtOnDiffs(sqrt, orig, x)
    ensures L2Project(orig, x, eps, sqrt).Ok?
    ensures WithinL2(orig, L2Project(orig, x, eps, sqrt).value, eps)
  {
    var y := L2Project(orig, x, eps, sqrt).value;
    forall b | 0 <= b < |y|
      ensures SumSq(SubSample(y[b], orig[b])) <= Mul(eps, eps)
    {
      var d := SubSample(x[b], orig[b]);
      var s := ScaleSample(RenormFactor(sqrt(SumSq(d)), eps), d);
      L2Sample(orig, x, eps, sqrt, b);
      RenormSampleL2(d, eps, sqrt);
      ClampSampleToward(orig[b], s);
    }
  }

  /** A candidate already in [0, 1] and within the L2 ball is returned
      unchanged. */
  lemma L2Noop(orig: Batch, x: Batch, eps: real, sqrt: real -> real)
    requires InBox(x) && WithinL2(orig, x, eps) && 0.0 <= eps
    requires SqrtOnDiffs(sqrt, orig, x)
    ensures L2Project(orig, x, eps, sqrt) == Ok(x)
  {
    var y := L2Project(orig, x, eps, sqrt).value;
    forall b | 0 <= b < |x|
      ensures y[b] == x[b]
    {
      L2Unscaled(orig, x, eps, sqrt, b);
      ClampSampleInBox(x[b]);
    }
    assert y == x;
  }

  /** With the anchor in [0, 1] and a true square root, projecting a second
      time changes nothing. */
  lemma L2Idempotent(orig: Batch, x: Batch, eps: real, sqrt: real -> real)
    requires InBox(orig) && SqrtSound(sqrt) && L2Project(orig, x, eps, sqrt).Ok?
    ensures var y := L2Project(orig, x, eps, sqrt).value; L2Project(orig, y, eps, sqrt) == Ok(y)
  {
    var y := L2Project(orig, x, eps, sqrt).value;
    L2Ball(orig, x, eps, sqrt);
    L2Noop(orig, y, eps, sqrt);
  }

  // linf_project (optimize.py:12-15).

  /** linf_project on one element. */
  function LInfElement(o: real, x: real, eps: real): real {
    Clamp(Clamp(x - o, -eps, eps) + o, 0.0, 1.0)
  }

  lemma LInfAt(orig: Batch, x: Batch, eps: real, b: int, j: int)
    requires SameShape(x, orig) && 0 <= b < |x| && 0 <= j < |x[b]|
    ensures LInfProject(orig, x, eps).value[b][j] == LInfElement(orig[b][j], x[b][j], eps)
  {
    var diff := ClampBatch(Sub(x, orig), -eps, eps);
    assert LInfProject(orig, x, eps) == Ok(ClampBatch(Add(diff, orig), 0.0, 1.0));
    assert Sub(x, orig)[b][j] == x[b][j] - orig[b][j];
    assert diff[b][j] == Clamp(x[b][j] - orig[b][j], -eps, eps);
    assert Add(diff, orig)[b][j] == diff[b][j] + orig[b][j];
    assert ClampBatch(Add(diff, orig), 0.0, 1.0)[b][j] == Clamp(Add(diff, orig)[b][j], 0.0, 1.0);
  }

  /** The element facts: within eps of an anchor in [0, 1]; a no-op on an
      element in [0, 1] within eps; and idempotent for every anchor and
      every eps (an interval projection followed by another). */
  lemma LInfElementFacts(o: real, x: real, eps: real)
    ensures 0.0 <= o <= 1.0 && 0.0 <= eps ==> Abs(LInfElement(o, x, eps) - o) <= eps
    ensures 0.0 <= x <= 1.0 && Abs(x - o) <= eps ==> LInfElement(o, x, eps) == x
    ensures LInfElement(o, LInfElement(o, x, eps), eps) == LInfElement(o, x, eps)
  {
  }

  /** With the anchor in [0, 1], every output element is within eps of its
      anchor element. */
  lemma LInfBall(orig: Batch, x: Batch, eps: real)
    requires SameShape(x, orig) && InBox(orig) && 0.0 <= eps
    ensures LInfProject(orig, x, eps).Ok?
    ensures WithinLInf(orig, LInfProject(orig, x, eps).value, eps)
  {
    var y := LInfProject(orig, x, eps).value;
    forall b, j | 0 <= b < |y| && 0 <= j < |y[b]|
      ensures Abs(y[b][j] - orig[b][j]) <= eps
    {
      LInfAt(orig, x, eps, b, j);
      LInfElementFacts(orig[b][j], x[b][j], eps);
    }
  }

  /** A candidate in [0, 1] within eps of the anchor elementwise is returned
      unchanged. */
  lemma LInfNoop(orig: Batch, x: Batch, eps: real)
    requires InBox(x) && WithinLInf(orig, x, eps)
    ensures LInfProject(orig, x, eps) == Ok(x)
  {
    var y := LInfProject(orig, x, eps).value;
    forall b | 0 <= b < |x|
      ensures y[b] == x[b]
    {
      forall j | 0 <= j < |x[b]|
        ensures y[b][j] == x[b][j]
      {
        LInfAt(orig, x, eps, b, j);
        LInfElementFacts(orig[b][j], x[b][j], eps);
      }
    }
    assert y == x;
  }

  /** Projecting a second time changes nothing, whatever the anchor and eps. */
  lemma LInfIdempotent(orig: Batch, x: Batch, eps: real)
    requires SameShape(x, orig)
    ensures var y := LInfProject(orig, x, eps).value; LInfProject(orig, y, eps) == Ok(y)
  {
    var y := LInfProject(orig, x, eps).value;
    var z := LInfProject(orig, y, eps).value;
    forall b | 0 <= b < |y|
      ensures z[b] == y[b]
    {
      forall j | 0 <= j < |y[b]|
        ensures z[b][j] == y[b][j]
      {
        LInfAt(orig, x, eps, b, j);
        LInfAt(orig, y, eps, b, j);
        LInfElementFacts(orig[b][j], x[b][j], eps);
      }
    }
    assert z == y;
  }

  // The selected projector (optimize.py:28-36), as applied at optimize.py:61.

  /** Every sample of the anchor lies in every budget region of it. */
  lemma WithinAnchor(k: Projector, orig: Batch, eps: real)
    requires 0.0 <= eps
    ensures Within(k, orig, orig, eps)
  {
    forall b | 0 <= b < |orig|
      ensures SumAbs(SubSample(orig[b], orig[b])) <= eps
      ensures SumSq(SubSample(orig[b], orig[b])) <= Mul(eps, eps)
    {
      SumAbsZeros(SubSample(orig[b], orig[b]));
      SumSqZeros(SubSample(orig[b], orig[b]));
      MulNonneg(eps, eps);
    }
  }

  /** With the anchor in [0, 1] and eps non-negative, the selected
      projector succeeds on a candidate of the anchor's shape and lands in
      its budget region. */
  lemma ApplyWithin(k: Projector, orig: Batch, x: Batch, eps: real, sqrt: real -> real)
    requires SameShape(x, orig) && InBox(orig) && 0.0 <= eps
    requires k == L2 ==> SqrtOnDiffs(sqrt, orig, x)
    ensures Apply(k, orig, x, eps, sqrt).Ok?
    ensures Within(k, orig, Apply(k, orig, x, eps, sqrt).value, eps)
  {
    match k
    case L2 => L2Ball(orig, x, eps, sqrt);
    case L1 => L1Ball(orig, x, eps);
    case LInf => LInfBall(orig, x, eps);
    case Basic =>
  }

  /** A candidate in [0, 1] and in the budget region is a fixed point of
      the selected projector. */
  lemma ApplyNoop(k: Projector, orig: Batch, x: Batch, eps: real, sqrt: real -> real)
    requires InBox(x) && Within(k, orig, x, eps) && 0.0 <= eps
    requires k == L2 ==> SqrtOnDiffs(sqrt, orig, x)
    ensures Apply(k, orig, x, eps, sqrt) == Ok(x)
  {
    match k
    case L2 => L2Noop(orig, x, eps, sqrt);
    case L1 => L1Noop(orig, x, eps);
    case LInf => LInfNoop(orig, x, eps);
    case Basic => ClampBatchInBox(x);
  }

  /** Projecting a projected batch again gives it back: unconditionally
      for the box and L-infinity projectors, and for the norm-ball ones
      when the anchor lies in [0, 1] (and, for L2, sqrt is the square root). */
  lemma ApplyIdempotent(k: Projector, orig: Batch, x: Batch, eps: real, sqrt: real -> real)
    requires Apply(k, orig, x, eps, sqrt).Ok?
    requires (k == L2 || k == L1) ==> InBox(orig)
    requires k == L2 ==> SqrtSound(sqrt)
    ensures var y := Apply(k, orig, x, eps, sqrt).value; Apply(k, orig, y, eps, sqrt) == Ok(y)
  {
    match k
    case L2 => L2Idempotent(orig, x, eps, sqrt);
    case L1 => L1Idempotent(orig, x, eps);
    case LInf => LInfIdempotent(orig, x, eps);
    case Basic => ClampBatchInBox(ClampBatch(x, 0.0, 1.0));
  }

  // Why the norm-ball lemmas ask for an anchor in [0, 1].

  /** With an anchor outside [0, 1] the final clamp can leave the ball: the
      anchor (2) itself, projected with budget 1/2, comes out at 1. */
  lemma L1BallNeedsBoxAnchor()
    ensures var y := L1Project([[2.0]], [[2.0]], 0.5).value;
      !WithinL1([[2.0]], y, 0.5)
  {
    L1Unscaled([[2.0]], [[2.0]], 0.5, 0);
    var y := L1Project([[2.0]], [[2.0]], 0.5).value;
    assert y[0] == [1.0];
    assert SubSample(y[0], [2.0]) == [-1.0];
    assert SumAbs([-1.0]) == 1.0;
  }

  /** With an anchor outside [0, 1] l1_project is not idempotent: for the
      anchor (2, 1/2) and the candidate (2, 9/10) with budget 1/2 the first
      projection only clamps, to (1, 9/10), which is L1 distance 7/5 from
      the anchor, so the second projection shrinks it. */
  lemma L1IdempotentNeedsBoxAnchor()
    ensures var orig, x := [[2.0, 0.5]], [[2.0, 0.9]];
      var y := L1Project(orig, x, 0.5).value;
      L1Project(orig, y, 0.5) != Ok(y)
  {
    var orig, x := [[2.0, 0.5]], [[2.0, 0.9]];
    L1Unscaled(orig, x, 0.5, 0);
    var y := L1Project(orig, x, 0.5).value;
    assert y[0] == [1.0, 0.9];
    var d := SubSample(y[0], orig[0]);
    assert d == [-1.0, 0.4];
    assert d[1..] == [0.4];
    assert SumAbs(d) == 1.4;
    var f := RenormFactor(SumAbs(d), 0.5);
    L1Sample(orig, y, 0.5, 0);
    var z := L1Project(orig, y, 0.5).value;
    assert ScaleSample(f, d)[1] == Mul(f, 0.4);
    assert AddSample(orig[0], ScaleSample(f, d))[1] == 0.5 + Mul(f, 0.4);
    assert z[0][1] == Clamp(0.5 + Mul(f, 0.4), 0.0, 1.0);
    MulNonneg(f, 0.4);
    assert Mul(f, 0.4) < 0.4;
    assert z[0][1] != y[0][1];
  }
}
