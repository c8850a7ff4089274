/** The two optimisation loops of optimize.py, reduced to what they do to
    the input batch: custom_optimization takes an optimiser step and then
    projects onto the budget region around the anchor; natural-gradient
    optimisation takes a fixed-size step along a direction and clamps to
    [0, 1].  The model, the loss, the gradients and the optimiser's
    arithmetic are opaque: what they contribute at iteration i to element
    j of sample b is a Signal value. */
module Optimize {
  import opened Tensors
  import opened Projection

  /** A value per (iteration, sample, element). */
  type Signal = (nat, nat, nat) -> real

  /** The step size of the natural-gradient update. */
  const NaturalLr: real := 0.000001

  /** The batch shaped like `like` whose element j of sample b is f(i, b, j). */
  function Tabulate(like: Batch, f: Signal, i: nat): (r: Batch)
    ensures SameShape(r, like)
    ensures forall b, j :: 0 <= b < |r| && 0 <= j < |r[b]| ==> r[b][j] == f(i, b, j)
  {
    seq(|like|, b requires 0 <= b < |like| =>
      seq(|like[b]|, j requires 0 <= j < |like[b]| => f(i, b, j)))
  }

  /** The data after the optimiser's step i. */
  function AdamStep(x: Batch, update: Signal, i: nat): (r: Batch)
    ensures SameShape(r, x)
  {
    Sub(x, Tabulate(x, update, i))
  }

  /** The data after natural-gradient step i: a step of NaturalLr against
      the direction, then the clamp to [0, 1]. */
  function NaturalStep(x: Batch, direction: Signal, i: nat): (r: Batch)
    ensures SameShape(r, x) && InBox(r)
  {
    ClampBatch(Sub(x, ScaleBatch(NaturalLr, Tabulate(x, direction, i))), 0.0, 1.0)
  }

  /** The optimised input: its data and the gradient accumulated into it. */
  class Variable {
    var data: Batch
    var grad: Batch

    /** Variable(inp_og.clone(), requires_grad=True): the data is a copy of
        the anchor and no gradient has been accumulated. */
    constructor (init: Batch)
      ensures data == init && grad == ZerosLike(init)
    {
      data := init;
      grad := ZerosLike(init);
    }

    /** Zeroing the gradient keeps its shape. */
    method ZeroGrad()
      modifies this`grad
      ensures grad == ZerosLike(old(grad))
    {
      grad := ZerosLike(grad);
    }

    /** backward: the gradient g of this pass is added to the accumulated one. */
    method Backward(g: Batch)
      requires SameShape(g, grad)
      modifies this`grad
      ensures grad == Add(old(grad), g)
    {
      grad := Add(grad, g);
    }
  }

  /** The Adam optimiser over one Variable.  Its update at each step is
      opaque; it depends on the optimiser's step count. */
  class Optimizer {
    const param: Variable
    const update: Signal
    var steps: nat

    constructor (param: Variable, update: Signal)
      ensures this.param == param && this.update == update && steps == 0
    {
      this.param := param;
      this.update := update;
      steps := 0;
    }

    /** optimizer.zero_grad(). */
    method ZeroGrad()
      modifies param`grad
      ensures param.grad == ZerosLike(old(param.grad))
    {
      param.ZeroGrad();
    }

    /** optimizer.step(): the parameter's data moves by the update of this
        step, and the step count advances. */
    method Step()
      modifies param`data, this`steps
      ensures param.data == AdamStep(old(param.data), update, old(steps))
      ensures steps == old(steps) + 1
    {
      param.data := AdamStep(param.data, update, steps);
      steps := steps + 1;
    }
  }

  // custom_optimization (optimize.py:39-62).

  /** The input after n iterations of custom_optimization with projector k:
      each iteration takes the optimiser step and projects onto the budget
      region around the anchor; a projector error ends the run.  Every
      iterate has the anchor's shape, and after at least one iteration it
      lies in [0, 1]. */
  function ProjectedDescent(k: Projector, inpOg: Batch, eps: real, sqrt: real -> real,
                            update: Signal, n: nat): (r: Result<Batch>)
    ensures r.Ok? ==> SameShape(r.value, inpOg) && (0 < n ==> InBox(r.value))
  {
    if n == 0 then Ok(inpOg)
    else
      match ProjectedDescent(k, inpOg, eps, sqrt, update, n - 1)
      case Err(e) => Err(e)
      case Ok(x) => Apply(k, inpOg, AdamStep(x, update, n - 1), eps, sqrt)
  }

  /** The run fails exactly when some iteration happens and the selected
      projector is a norm-ball one with a negative budget, and then with
      renorm's error. */
  lemma {:induction false} DescentError(k: Projector, inpOg: Batch, eps: real, sqrt: real -> real,
                                        update: Signal, n: nat)
    ensures var r := ProjectedDescent(k, inpOg, eps, sqrt, update, n);
      (r.Err? <==> 0 < n && (k == L2 || k == L1) && eps < 0.0) &&
      (r.Err? ==> r.error == NegativeMaxNorm)
  {
    if 0 < n {
      DescentError(k, inpOg, eps, sqrt, update, n - 1);
    }
  }

  /** A projector error ends the run: every later iterate is that error. */
  lemma {:induction false} DescentErrorPersists(k: Projector, inpOg: Batch, eps: real,
                                                sqrt: real -> real, update: Signal, m: nat, n: nat)
    requires m <= n && ProjectedDescent(k, inpOg, eps, sqrt, update, m).Err?
    ensures ProjectedDescent(k, inpOg, eps, sqrt, update, n) ==
            ProjectedDescent(k, inpOg, eps, sqrt, update, m)
  {
    if m < n {
      DescentErrorPersists(k, inpOg, eps, sqrt, update, m, n - 1);
    }
  }

  /** With the anchor in [0, 1], a non-negative budget and (for L2) a true
      square root, every iterate lies in the budget region around the
      anchor. */
  lemma {:induction false} DescentWithin(k: Projector, inpOg: Batch, eps: real, sqrt: real -> real,
                                         update: Signal, n: nat)
    requires InBox(inpOg) && 0.0 <= eps
    requires k == L2 ==> SqrtSound(sqrt)
    ensures ProjectedDescent(k, inpOg, eps, sqrt, update, n).Ok?
    ensures Within(k, inpOg, ProjectedDescent(k, inpOg, eps, sqrt, update, n).value, eps)
  {
    if n == 0 {
      WithinAnchor(k, inpOg, eps);
    } else {
      DescentWithin(k, inpOg, eps, sqrt, update, n - 1);
      var x := ProjectedDescent(k, inpOg, eps, sqrt, update, n - 1).value;
      ApplyWithin(k, inpOg, AdamStep(x, update, n - 1), eps, sqrt);
    }
  }

  /** A zero update leaves the data where it is. */
  lemma AdamStepZero(x: Batch, update: Signal, i: nat)
    requires forall b, j :: update(i, b, j) == 0.0
    ensures AdamStep(x, update, i) == x
  {
    var y := AdamStep(x, update, i);
    forall b | 0 <= b < |x|
      ensures y[b] == x[b]
    {
      assert forall j :: 0 <= j < |y[b]| ==> y[b][j] == x[b][j] - update(i, b, j);
    }
    assert y == x;
  }

  /** An optimiser whose updates are all zero leaves an anchor in [0, 1]
      where it is. */
  lemma {:induction false} DescentStill(k: Projector, inpOg: Batch, eps: real, sqrt: real -> real,
                                        update: Signal, n: nat)
    requires InBox(inpOg) && 0.0 <= eps
    requires k == L2 ==> SqrtSound(sqrt)
    requires forall i, b, j :: update(i, b, j) == 0.0
    ensures ProjectedDescent(k, inpOg, eps, sqrt, update, n) == Ok(inpOg)
  {
    if 0 < n {
      DescentStill(k, inpOg, eps, sqrt, update, n - 1);
      AdamStepZero(inpOg, update, n - 1);
      WithinAnchor(k, inpOg, eps);
      ApplyNoop(k, inpOg, inpOg, eps, sqrt);
    }
  }

  /** One round of custom_optimization's loop: zero_grad, backward of
      this round's gradient, the optimiser step, then the projection.  The
      gradient ends as exactly this round's gradient; the projected batch
      becomes the input's data, and on a projector error the data is the
      unprojected step. */
  method CustomIteration(optimizer: Optimizer, inp: Variable, k: Projector, inpOg: Batch,
                         eps: real, sqrt: real -> real, gradient: Signal)
    returns (projected: Result<Batch>)
    requires optimizer.param == inp && SameShape(inp.grad, inp.data)
    modifies inp, optimizer
    ensures optimizer.steps == old(optimizer.steps) + 1
    ensures projected == Apply(k, inpOg, AdamStep(old(inp.data), optimizer.update, old(optimizer.steps)), eps, sqrt)
    ensures projected.Ok? ==> inp.data == projected.value
    ensures projected.Err? ==> inp.data == AdamStep(old(inp.data), optimizer.update, old(optimizer.steps))
    ensures inp.grad == Tabulate(old(inp.data), gradient, old(optimizer.steps))
    ensures SameShape(inp.grad, inp.data)
  {
    var g := Tabulate(inp.data, gradient, optimizer.steps);
    optimizer.ZeroGrad();
    SameShapeTrans(g, inp.data, inp.grad);
    inp.Backward(g);
    AddZerosLike(g, g);
    optimizer.Step();
    projected := Apply(k, inpOg, inp.data, eps, sqrt);
    if projected.Ok? {
      inp.data := projected.value;
    }
  }

  /** custom_optimization: iters rounds of CustomIteration with the
      projector p selects.  `gradient` is the gradient backward produces
      and `update` the step the optimiser takes; the square root used by
      the L2 projector is `sqrt`.  The result is the ProjectedDescent
      iterate: of the anchor's shape, in [0, 1] once an iteration has run,
      in the budget region around an anchor in [0, 1], and an error
      exactly when p selects a norm ball whose budget is negative. */
  method CustomOptimization(inpOg: Batch, eps: real, p: string, iters: nat,
                            gradient: Signal, update: Signal, sqrt: real -> real)
    returns (r: Result<Batch>)
    ensures r == ProjectedDescent(ProjectPertb(p), inpOg, eps, sqrt, update, iters)
    ensures r.Err? <==> 0 < iters && (p == "2" || p == "1") && eps < 0.0
    ensures r.Err? ==> r.error == NegativeMaxNorm
    ensures r.Ok? ==> SameShape(r.value, inpOg) && (0 < iters ==> InBox(r.value))
    ensures InBox(inpOg) && 0.0 <= eps && (p == "2" ==> SqrtSound(sqrt)) ==>
      r.Ok? && Within(ProjectPertb(p), inpOg, r.value, eps)
  {
    var k := ProjectPertb(p);
    var inp := new Variable(inpOg);
    var optimizer := new Optimizer(inp, update);
    r := CustomLoop(optimizer, inp, k, inpOg, iters, eps, sqrt, gradient);
    DescentError(k, inpOg, eps, sqrt, update, iters);
    if InBox(inpOg) && 0.0 <= eps && (p == "2" ==> SqrtSound(sqrt)) {
      DescentWithin(k, inpOg, eps, sqrt, update, iters);
    }
  }

  /** The loop of custom_optimization on a fresh input holding the anchor
      and a fresh optimiser over it: CustomIteration until iters rounds have
      run or a projector error ends the run.  A successful run leaves the
      result in the input's data after iters optimiser steps. */
  method CustomLoop(optimizer: Optimizer, inp: Variable, k: Projector, inpOg: Batch, iters: nat,
                    eps: real, sqrt: real -> real, gradient: Signal)
    returns (r: Result<Batch>)
    requires optimizer.param == inp && optimizer.steps == 0
    requires inp.data == inpOg && SameShape(inp.grad, inpOg)
    modifies inp, optimizer
    ensures r == ProjectedDescent(k, inpOg, eps, sqrt, optimizer.update, iters)
    ensures r.Ok? ==> inp.data == r.value && optimizer.steps == iters
  {
    r := Ok(inpOg);
    var i := 0;
    while i < iters && r.Ok?
      invariant 0 <= i <= iters
      invariant optimizer.param == inp && optimizer.steps == i
      invariant r == ProjectedDescent(k, inpOg, eps, sqrt, optimizer.update, i)
      invariant r.Ok? ==> r.value == inp.data
      invariant SameShape(inp.grad, inp.data)
    {
      r := CustomIteration(optimizer, inp, k, inpOg, eps, sqrt, gradient);
      i := i + 1;
    }
    if r.Err? {
      DescentErrorPersists(k, inpOg, eps, sqrt, optimizer.update, i, iters);
    }
  }

  // natural_gradient_optimization (optimize.py:105-132).

  /** The input after n natural-gradient iterations: a step of NaturalLr
      against the direction, then the clamp to [0, 1].  Every iterate has
      the anchor's shape, and after at least one iteration it lies in
      [0, 1]. */
  function NaturalDescent(inpOg: Batch, direction: Signal, n: nat): (r: Batch)
    ensures SameShape(r, inpOg)
    ensures 0 < n ==> InBox(r)
  {
    if n == 0 then inpOg
    else
      NaturalStep(NaturalDescent(inpOg, direction, n - 1), direction, n - 1)
  }

  /** One iteration moves an element in [0, 1] by no more than NaturalLr
      times the size of its direction. */
  lemma NaturalStepBound(inpOg: Batch, direction: Signal, n: nat, b: int, j: int)
    requires 0 < n
    requires InBox(NaturalDescent(inpOg, direction, n - 1))
    requires 0 <= b < |inpOg| && 0 <= j < |inpOg[b]|
    ensures var x := NaturalDescent(inpOg, direction, n - 1);
      Abs(NaturalDescent(inpOg, direction, n)[b][j] - x[b][j]) <=
      Mul(NaturalLr, Abs(direction(n - 1, b, j)))
  {
    var x := NaturalDescent(inpOg, direction, n - 1);
    var t := Tabulate(x, direction, n - 1);
    var s := Mul(NaturalLr, t[b][j]);
    assert ScaleBatch(NaturalLr, t)[b][j] == s;
    assert Sub(x, ScaleBatch(NaturalLr, t))[b][j] == x[b][j] + -s;
    ClampToward(x[b][j], -s);
    AbsScale(NaturalLr, t[b][j]);
  }

  /** A zero direction leaves data in [0, 1] where it is. */
  lemma NaturalStepZero(x: Batch, direction: Signal, i: nat)
    requires InBox(x)
    requires forall b, j :: direction(i, b, j) == 0.0
    ensures NaturalStep(x, direction, i) == x
  {
    var y := Sub(x, ScaleBatch(NaturalLr, Tabulate(x, direction, i)));
    forall b | 0 <= b < |x|
      ensures y[b] == x[b]
    {
      assert forall j :: 0 <= j < |y[b]| ==> y[b][j] == x[b][j] - Mul(NaturalLr, 0.0);
    }
    assert y == x;
    ClampBatchInBox(x);
  }

  /** A zero direction leaves an anchor in [0, 1] where it is. */
  lemma {:induction false} NaturalStill(inpOg: Batch, direction: Signal, n: nat)
    requires InBox(inpOg)
    requires forall i, b, j :: direction(i, b, j) == 0.0
    ensures NaturalDescent(inpOg, direction, n) == inpOg
  {
    if 0 < n {
      NaturalStill(inpOg, direction, n - 1);
      NaturalStepZero(inpOg, direction, n - 1);
      assert NaturalDescent(inpOg, direction, n) == NaturalStep(inpOg, direction, n - 1);
    }
  }

  /** One round of natural_gradient_optimization's loop: backward of this
      round's gradient onto the zero gradient, the natural-gradient step
      and clamp, then zeroing the gradient again. */
  method NaturalIteration(inp: Variable, gradient: Signal, direction: Signal, i: nat)
    requires inp.grad == ZerosLike(inp.data)
    modifies inp
    ensures inp.data == NaturalStep(old(inp.data), direction, i)
    ensures inp.grad == ZerosLike(inp.data)
  {
    inp.Backward(Tabulate(inp.data, gradient, i));
    inp.data := NaturalStep(inp.data, direction, i);
    inp.ZeroGrad();
  }

  /** natural_gradient_optimization: iters rounds of NaturalIteration.
      `gradient` is the gradient backward produces and `direction` the
      preconditioned gradient.  The result is the NaturalDescent iterate:
      of the anchor's shape, the anchor itself when no iteration runs, and
      in [0, 1] once one has run. */
  method NaturalGradientOptimization(inpOg: Batch, iters: nat, gradient: Signal, direction: Signal)
    returns (r: Batch)
    ensures r == NaturalDescent(inpOg, direction, iters)
    ensures SameShape(r, inpOg)
    ensures iters == 0 ==> r == inpOg
    ensures 0 < iters || InBox(inpOg) ==> InBox(r)
  {
    var inp := new Variable(inpOg);
    NaturalLoop(inp, inpOg, iters, gradient, direction);
    r := inp.data;
  }

  /** The loop of natural_gradient_optimization on a fresh input holding
      the anchor. */
  method NaturalLoop(inp: Variable, inpOg: Batch, iters: nat, gradient: Signal, direction: Signal)
    requires inp.data == inpOg && inp.grad == ZerosLike(inpOg)
    modifies inp
    ensures inp.data == NaturalDescent(inpOg, direction, iters)
  {
    var i := 0;
    while i < iters
      invariant 0 <= i <= iters
      invariant inp.data == NaturalDescent(inpOg, direction, i)
      invariant inp.grad == ZerosLike(inp.data)
    {
      NaturalIteration(inp, gradient, direction, i);
      i := i + 1;
    }
  }
}
