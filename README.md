# Perturbation projection and the projected search loops of optimize.py

This project is a Dafny model of the projection core of a feature-space
inversion tool. The tool searches for an input near an anchor batch
`inp_og` whose hidden representation matches a target. Two loops do the
search:

- `custom_optimization` takes an Adam step each iteration, then projects
  the input back into a perturbation budget `eps` around the anchor. The
  norm is selected by `project_pertb`.
- `natural_gradient_optimization` takes a fixed-size step along a
  preconditioned direction, then clamps the input to `[0, 1]`.

Batches are `seq<seq<real>>`: the samples along the batch axis, each
flattened. Reals stand in for floating point. There are three modules:

- `Tensors`: batches and their elementwise arithmetic, `torch.clamp`, and
  the L1 norm and squared L2 norm of a sample. It also holds the
  arithmetic lemmas about them. Contracts write every real product as
  `Mul`; a bare product appears only in `Mul` and in two proof steps.
- `Projection`: `Tensor.renorm`, the four projectors, the selector
  `project_pertb`, and what is proved about them.
  - every output lies in `[0, 1]`;
  - with an anchor in `[0, 1]` and `eps >= 0`, every output lies in the
    budget region;
  - a candidate that lies in `[0, 1]` and in the region is a fixed point;
  - the L-infinity projector and the box clamp are idempotent for every
    anchor; the L1 and L2 projectors are idempotent for an anchor in
    `[0, 1]` (L2 also needs a true square root);
  - errors occur on a shape mismatch, and in renorm on a negative budget.
- `Optimize`: the input `Variable` (data and accumulated gradient) and the
  Adam `Optimizer` as classes. It also holds the two loops as methods.
  - Each loop is proved equal to a specification function:
    `ProjectedDescent` for `custom_optimization`, `NaturalDescent` for
    `natural_gradient_optimization`.
  - Lemmas about those functions give the loop invariants: the box, the
    budget region, the error conditions, and the fixed point when the
    update is zero.

The model, the loss and autograd are opaque, and so are Adam's arithmetic
and the natural-gradient preconditioning. Each is a `Signal`: a real for
every iteration, sample and element. `gradient` is what `backward` adds to
the gradient. `update` is what `optimizer.step()` subtracts. `direction`
is the preconditioned gradient that line 125 scales by `1e-6`. Any
trajectory of finite values can be represented this way, so the loop
results hold for every run whose gradients and updates are finite.

The L2 projector needs a square root. It takes one as a parameter,
`sqrt: real -> real`. Most L2 facts assume `sqrt` is the square root only
on the values it is applied to (`SqrtAt`, `SqrtOnDiffs`). Idempotence
(`Projection.L2Idempotent`, `Projection.ApplyIdempotent`) and the
loop-level facts assume it everywhere (`SqrtSound`).

Semantics taken from PyTorch:

- `clamp(x, lo, hi)` is `min(max(x, lo), hi)`. When `lo > hi`, every value
  becomes `hi`. This matters for `linf_project` with a negative `eps`.
- `renorm(p, dim=0, maxnorm)` multiplies each sample by
  `maxnorm / (norm + 1e-7)` when its norm exceeds `maxnorm`, and leaves it
  unchanged otherwise. A negative `maxnorm` raises. The model returns
  `Err(NegativeMaxNorm)`.
- `x - orig` on batches of different shapes raises unless PyTorch can
  broadcast them. The model returns `Err(ShapeMismatch)` for every shape
  difference (see "Left out").

Details of the code's behaviour the model keeps:

- Over-budget samples are scaled to `eps * n / (n + 1e-7)`, slightly inside
  the ball, not exactly to the budget.
- Containment in the ball is guaranteed only when the anchor lies in
  `[0, 1]`, and so is idempotence of the L1 and L2 projectors. With an
  anchor outside the box, the final clamp can move a point out of the
  ball, though for some such anchors the output still lies inside it.
  `Projection.L1BallNeedsBoxAnchor` and
  `Projection.L1IdempotentNeedsBoxAnchor` exhibit such inputs.
  `linf_project`, by contrast, is idempotent for every anchor and every
  `eps`.
- `custom_optimization` stops at the first projector error (the exception
  in the source) rather than always running `iters` iterations. With
  `iters == 0` it returns the anchor unclamped.

## Model

| member | source | states |
|---|---|---|
| `Tensors.Clamp` | optimize.py:14-15 | inside `[lo, hi]` a value is kept; below it goes to `lo`, above it to `hi`; when `lo > hi` everything goes to `hi` |
| `Tensors.ClampBatch` | optimize.py:129 | shape preserved; clamping to `[0, 1]` puts every element in the box |
| `Tensors.ZerosLike` | optimize.py:131 | a batch of the same shape whose elements are all zero |
| `Tensors.SumAbs` | optimize.py:20 | the L1 norm of a sample, which `renorm(p=1)` measures, is non-negative |
| `Tensors.SumAbsScale` | optimize.py:20 | scaling a sample by `f >= 0` scales its L1 norm by `f` |
| `Tensors.SumSqScale` | optimize.py:8 | scaling a sample by `f` scales its squared L2 norm by `f * f` |
| `Tensors.SquareMono` | optimize.py:8 | for non-negative reals, `a <= b` exactly when `a * a <= b * b` (L2 no-op test on squared norms) |
| `Tensors.ClampSampleToward` | optimize.py:9 | with the anchor sample in `[0, 1]`, clamping anchor plus `s` to the box gives a difference whose L1 norm and squared L2 norm are no larger than those of `s` |
| `Tensors.ClampBatchInBox` | optimize.py:25 | the box clamp leaves a batch already in `[0, 1]` unchanged |
| `Projection.RenormFactor` | optimize.py:8 | renorm's factor lies in `[0, 1]`; factor times norm is within `maxnorm`, and for an over-budget norm less than `1e-7` short of it; the factor is 1 exactly when the norm is already within `maxnorm` |
| `Projection.Renorm` | optimize.py:20 | fails exactly when `maxnorm < 0`, with `NegativeMaxNorm`; on success the shape is preserved |
| `Projection.RenormL1Contract` | optimize.py:20 | each sample ends with L1 norm within `maxnorm`; a sample already within it is left unchanged; an over-budget sample ends less than `1e-7` short of `maxnorm` |
| `Projection.RenormL2Contract` | optimize.py:8 | each sample ends with squared L2 norm within `maxnorm^2`; a sample already within it is left unchanged; an over-budget sample ends with squared norm above `(maxnorm - 1e-7)^2` |
| `Projection.L2Norm` | optimize.py:8 | where `sqrt` is the square root of a sample's sum of squares, the norm is non-negative and squares to that sum |
| `Projection.L2Project` | optimize.py:6-9 | shape mismatch gives `ShapeMismatch`; negative `eps` gives `NegativeMaxNorm`; otherwise the result has the candidate's shape and lies in `[0, 1]` |
| `Projection.LInfProject` | optimize.py:12-15 | shape mismatch gives `ShapeMismatch`; otherwise, for every `eps`, the result has the candidate's shape and lies in `[0, 1]` |
| `Projection.L1Project` | optimize.py:18-21 | shape mismatch gives `ShapeMismatch`; negative `eps` gives `NegativeMaxNorm`; otherwise the result has the candidate's shape and lies in `[0, 1]` |
| `Projection.BasicProject` | optimize.py:24-25 | depends on the candidate alone; the result is in `[0, 1]`; elements already in `[0, 1]` are kept, those below go to 0 and those above to 1 |
| `Projection.L1Unscaled` | optimize.py:18-21 | a sample whose difference has L1 norm `<= eps` is not rescaled: its output is `clamp(x, 0, 1)` |
| `Projection.L1Ball` | optimize.py:18-21 | with the anchor in `[0, 1]` and `eps >= 0`, every output sample is within L1 distance `eps` of its anchor sample |
| `Projection.L1Noop` | optimize.py:18-21 | a candidate in `[0, 1]` within the L1 ball is returned unchanged |
| `Projection.L1Idempotent` | optimize.py:18-21 | with the anchor in `[0, 1]`, projecting the output again returns it unchanged |
| `Projection.L1BallNeedsBoxAnchor` | optimize.py:18-21 | an anchor outside `[0, 1]` whose projection lies outside the L1 ball |
| `Projection.L1IdempotentNeedsBoxAnchor` | optimize.py:18-21 | an anchor outside `[0, 1]` for which projecting twice differs from projecting once |
| `Projection.L2Unscaled` | optimize.py:6-9 | a sample whose difference has squared L2 norm `<= eps^2` is not rescaled: its output is `clamp(x, 0, 1)` |
| `Projection.L2Ball` | optimize.py:6-9 | with the anchor in `[0, 1]` and `eps >= 0`, every output sample has squared L2 distance `<= eps^2` from its anchor sample |
| `Projection.L2Noop` | optimize.py:6-9 | a candidate in `[0, 1]` within the L2 ball is returned unchanged |
| `Projection.L2Idempotent` | optimize.py:6-9 | with the anchor in `[0, 1]` and a true square root, projecting the output again returns it unchanged |
| `Projection.LInfElementFacts` | optimize.py:12-15 | per element: within `eps` of an anchor in `[0, 1]`; a no-op inside the box and the band; idempotent for every anchor and `eps` |
| `Projection.LInfBall` | optimize.py:12-15 | with the anchor in `[0, 1]` and `eps >= 0`, every output element is within `eps` of its anchor element |
| `Projection.LInfNoop` | optimize.py:12-15 | a candidate in `[0, 1]` within `eps` elementwise is returned unchanged |
| `Projection.LInfIdempotent` | optimize.py:12-15 | projecting the output again returns it unchanged, for every anchor and `eps` |
| `Projection.ProjectPertb` | optimize.py:28-36 | `"2"` selects L2, `"1"` selects L1, `"inf"` selects L-infinity, and every other identifier selects the box clamp; selection never fails |
| `Projection.Apply` | optimize.py:28-36 | the selected projector fails exactly on a shape mismatch (box clamp excepted) or on a negative budget for L1 and L2; on success the output has the candidate's shape and lies in `[0, 1]` |
| `Projection.WithinAnchor` | optimize.py:40 | the anchor lies in every budget region around itself |
| `Projection.ApplyWithin` | optimize.py:61 | with the anchor in `[0, 1]` and `eps >= 0`, the selected projector succeeds and lands in its budget region |
| `Projection.ApplyNoop` | optimize.py:61 | a candidate in `[0, 1]` and in the budget region is a fixed point of the selected projector |
| `Projection.ApplyIdempotent` | optimize.py:61 | the selected projector is idempotent (L1 and L2 given an anchor in `[0, 1]`) |
| `Optimize.AdamStep` | optimize.py:59 | the optimiser step keeps the input's shape |
| `Optimize.AdamStepZero` | optimize.py:59 | a step whose update is zero everywhere leaves the data unchanged |
| `Optimize.NaturalStepZero` | optimize.py:125-129 | a zero direction leaves data in `[0, 1]` unchanged by the step and clamp |
| `Optimize.NaturalStep` | optimize.py:125-129 | the natural-gradient step and clamp keeps the shape and lands in `[0, 1]` |
| `Optimize.Variable.constructor` | optimize.py:40 | the data starts as the anchor and the gradient as zeros |
| `Optimize.Variable.ZeroGrad` | optimize.py:131 | the gradient becomes zeros of the same shape |
| `Optimize.Variable.Backward` | optimize.py:115 | the new gradient is added to the accumulated one |
| `Optimize.Optimizer.constructor` | optimize.py:41 | the optimiser is bound to the input, its update is fixed and it has taken no step |
| `Optimize.Optimizer.ZeroGrad` | optimize.py:46 | the parameter's gradient becomes zeros |
| `Optimize.Optimizer.Step` | optimize.py:59 | the parameter's data moves by this step's update and the step count advances |
| `Optimize.ProjectedDescent` | optimize.py:45-61 | a successful iterate has the anchor's shape, and after at least one iteration it lies in `[0, 1]` |
| `Optimize.DescentError` | optimize.py:45-62 | the run fails exactly when an iteration runs and an L1/L2 projector has negative `eps`, and then with `NegativeMaxNorm` |
| `Optimize.DescentErrorPersists` | optimize.py:61 | after a projector error, every later iterate is that same error |
| `Optimize.DescentWithin` | optimize.py:45-62 | with the anchor in `[0, 1]`, `eps >= 0` and (for L2) a true square root, every iterate lies in the budget region |
| `Optimize.DescentStill` | optimize.py:45-62 | when every update is zero, the iterates stay at an anchor in `[0, 1]` |
| `Optimize.CustomIteration` | optimize.py:46-61 | one iteration's result is the selected projector applied to the Adam step. On success it becomes the data; on a projector error the data is the unprojected Adam step. The gradient ends as exactly this round's gradient, and the step count advances |
| `Optimize.CustomLoop` | optimize.py:45-61 | the loop, started on the anchor with no step taken, ends at the `ProjectedDescent` iterate for `iters`; on success that iterate is the input's data, after `iters` optimiser steps |
| `Optimize.CustomOptimization` | optimize.py:39-62 | the result is the `ProjectedDescent` iterate. It has the anchor's shape and, once an iteration has run, lies in `[0, 1]`. With an anchor in `[0, 1]` it lies in the budget region. It fails exactly when an iteration runs and `p` selects L1/L2 with negative `eps` |
| `Optimize.NaturalDescent` | optimize.py:107-131 | every iterate has the anchor's shape, and after at least one iteration it lies in `[0, 1]` |
| `Optimize.NaturalStepBound` | optimize.py:125-129 | one iteration moves an element in `[0, 1]` by at most `1e-6` times the size of its direction |
| `Optimize.NaturalStill` | optimize.py:107-131 | a zero direction leaves an anchor in `[0, 1]` unchanged |
| `Optimize.NaturalIteration` | optimize.py:108-131 | one iteration's data is the natural step and clamp of the old data, and the gradient ends as zeros |
| `Optimize.NaturalLoop` | optimize.py:107-131 | the loop, started on the anchor with a zero gradient, ends at the `NaturalDescent` iterate for `iters` |
| `Optimize.NaturalGradientOptimization` | optimize.py:105-132 | the result is the `NaturalDescent` iterate. It has the anchor's shape, equals the anchor when `iters == 0`, and lies in `[0, 1]` once an iteration has run or when the anchor does |

## Left out

- Loss construction (optimize.py:48-53, 108-113): the forward pass, tensor norms and divisions on floats. Their whole effect on the input enters through the opaque `gradient`, `update` and `direction` signals.
- Adam's arithmetic and `lr=0.001` (optimize.py:41, 59): `Optimizer.Step` subtracts an arbitrary update indexed by the step count. The update does not read the gradient, so the model states nothing about descent.
- The natural-gradient preconditioning (optimize.py:117-125) is opaque too: the column centring, covariance, pseudo-inverse and matrix product. Two details of it are not modelled:
  - line 118 subtracts the column sum rather than the mean;
  - line 120 divides by the feature count rather than the batch size.
  - Line 118 also writes through a view of `inp.grad`, and line 123 multiplies that centred gradient by `F`. The opaque `direction` stands for the product of line 123 whatever the centring wrote, so the aliasing is absorbed into it. The gradient is zeroed at line 131 in any case.
- `madry_optimization` (optimize.py:65-88): it hands everything to the external model routine.
- `n_grad` (optimize.py:91-102): it references undefined names and cannot be called.
- Progress reporting (tqdm, `print`, `verbose`; optimize.py:43-44, 54-56, 126-127): output only.
- text/train_model.py is not part of this model. It is a training loop and checkpoint I/O.
- Broadcasting: a candidate of a different shape from the anchor is an error in the model, even where PyTorch would broadcast.
- Floating-point rounding, infinities and NaN: reals are exact. A NaN update would survive `clamp` in PyTorch, so the box and budget results do not cover runs with non-finite values.
- The square root: L2 results assume one (`SqrtAt` / `SqrtSound`), since none is computable on reals.
- `renorm` also refuses tensors of one dimension. The model's batches always have a batch axis and sample elements, so that check cannot fail.
- The gradient starts as `None` in PyTorch. The model starts it as zeros, which is what accumulating onto it amounts to.
- The default arguments `p='2'`, `iters=200` / `iters=100` and `reg_weight`: the model takes `p` and `iters` as given, and `reg_weight` belongs to the loss.
- A `p` that is not a string: the model's `p` is a `string`. In Python a non-string such as the integer `2` fails every comparison at optimize.py:29-34, so `basic_project` is selected without an error. That silent fallback is not modelled for non-string arguments.
- Negative `iters`: `range(iters)` is then empty and Python runs no iteration. The model's `iters` is a `nat`; `iters == 0` gives that same result.
- `Optimize.CustomOptimization`: its error condition covers projector errors only. An exception raised by the forward pass or the loss (optimize.py:48-53) is not modelled, so "fails exactly when" speaks of the projectors.
- `Projection.L2Ball`: stated on squared norms (`SumSq <= eps * eps`), which is equivalent to the L2 norm being within `eps` for non-negative `eps` (`Tensors.SquareMono`).
