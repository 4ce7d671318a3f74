# Prior-box operator: shape inference

This project models the shape-inference step of PaddlePaddle's `prior_box`
operator, which produces the SSD anchor ("prior") boxes of a feature map.
It models `PriorBoxOp::InferShape` and the attribute defaults of
`PriorBoxOpMaker`. Shape inference takes two input shapes, `Input` (the
feature map) and `Image`, plus the attribute record. It runs a fixed
sequence of enforcements, and the first one that fails aborts the
operator. If every check passes, it derives `num_priors` and gives both
outputs, `Boxes` and `Variances`, the shape `[H, W, num_priors, 4]`.

Everything is in `prior_box_op.dfy`, module `PriorBoxOp`:

- `Config` is the attribute record. `DefaultConfig` fills in the declared
  defaults: `flip = true`, `step_h = step_w = 0.0`.
- `Error` has one variant per enforcement, in source order. The three loop
  checks carry the index they report.
- `InferShape` is an imperative method that follows the source step by
  step. It checks presence, rank, height and width, then calls
  `CheckAttributes`, and finally fills a 4-element array, like the source's
  `dim_vec`.
- `CheckAttributes` runs the attribute checks in source order. It calls
  one method per loop of the source: `CheckMinSizes`, `CheckMaxSizes`
  (which also adds the `+1` per index to `num_priors`) and
  `CheckVariances`. Then it runs the two step checks. Each loop aborts at
  the first offending index. The source has all of this inline in one
  function. These helpers take the input shapes as ghost parameters only,
  so that their contracts can name the same check conditions as
  `InferShape`.
- The specification is declarative:
  - `Violates(e, …)` is the condition that error `e` complains about.
  - `PassedBefore(e, …)` says every check ahead of `e` passed.
  - `Before` is source order: check position first, then loop index.
  - `Earliest(e, …)` means `e` is violated and no earlier check is.
  - `Accepted` is the success condition, written as one conjunction.
  - `NumPriors` is the closed-form prior count.

Inputs are plain values rather than calls on an inference context:
- A missing input tensor is `None`.
- The attribute record is a parameter.
- The output shapes form the return value.
- `ExpandAspectRatios` lives in `prior_box_op.h`, which is not part of this
  model. It appears only as the total function parameter `expand`, and only
  the length of its result is used.

Code versus documentation: the attribute docs call a step of 0 "auto
calculation", and 0.0 is the default. But shape inference requires
`step_h > 0` and `step_w > 0` strictly. The model follows the code, so the
default configuration is always rejected (`DefaultStepsRejected`).

## Model

| member | source | states |
|---|---|---|
| PriorBoxOp.InferShape | paddle/operators/prior_box_op.cc:24-86 | Success happens exactly when `Accepted` holds. A returned error's check is violated and every check before it passed. On success, `Boxes` and `Variances` both get `[Input H, Input W, NumPriors(number of expanded ratios, number of min sizes, number of max sizes), 4]`, so N and C play no part. |
| PriorBoxOp.CheckAttributes | paddle/operators/prior_box_op.cc:41-77 | Once the shapes have passed, the attribute checks succeed exactly when min sizes, max sizes, variances and both steps are valid (`step_h > 0`, `step_w > 0`, strictly). An error's check is violated and every earlier check passed. On success the count is `NumPriors` of the expanded-ratio count and the two list lengths. |
| PriorBoxOp.CheckMinSizes | paddle/operators/prior_box_op.cc:47-51 | Fails exactly when `min_sizes` is empty or has an entry <= 0. The reported index is the first such entry: all entries before it are positive. |
| PriorBoxOp.CheckMaxSizes | paddle/operators/prior_box_op.cc:56-66 | An empty `max_sizes` always passes and adds nothing. Otherwise it must have the same length as `min_sizes`, with `max_sizes[i] > min_sizes[i]` for every i. The first failing index is reported. On success the `+1` per index adds exactly the number of min sizes to `num_priors`. |
| PriorBoxOp.CheckVariances | paddle/operators/prior_box_op.cc:68-72 | Fails exactly when there are not exactly 4 variances, or one of them is <= 0. The first such index is reported. |
| PriorBoxOp.AcceptedIffNoViolation | paddle/operators/prior_box_op.cc:25-77 | Soundness and completeness: the conjunction `Accepted` holds if and only if no enforcement's condition is violated. |
| PriorBoxOp.ViolationRejects | paddle/operators/prior_box_op.cc:25-77 | Any single violated check rules out acceptance. |
| PriorBoxOp.EarliestIntro | paddle/operators/prior_box_op.cc:25-77 | A violated check whose predecessors all pass is the earliest violated check in source order, so the error `InferShape` reports is the earliest one. |
| PriorBoxOp.EarliestPrecedes | paddle/operators/prior_box_op.cc:25-77 | When several checks fail, the reported error comes no later than any of them, in this order: presence, image rank, input rank, H, W, min_sizes, max_sizes, variances, step_h, step_w. |
| PriorBoxOp.EarliestUnique | paddle/operators/prior_box_op.cc:25-77 | Only one error can be the earliest violated one, so the specification fixes the reported error. |
| PriorBoxOp.ErrorOrderTotal | paddle/operators/prior_box_op.cc:25-77 | Source order (check position, then loop index) is a strict total order on errors: any two distinct errors are ordered one way, never both ways, and the order is transitive. |
| PriorBoxOp.ImageRankCheckedFirst | paddle/operators/prior_box_op.cc:30-33 | With both inputs present, a rank other than 4 for `Image` is reported before anything else, including a wrong `Input` rank. |
| PriorBoxOp.DefaultConfig | paddle/operators/prior_box_op.cc:119-128 | The declared defaults: `flip` is true and `step_h`, `step_w` are 0.0; the four list attributes have no default and are passed through unchanged. |
| PriorBoxOp.DefaultStepsRejected | paddle/operators/prior_box_op.cc:119-128 | With the default attributes (steps 0.0), no input is accepted. The error is `StepHNotPositive` or an earlier one, and exactly `StepHNotPositive` when every earlier check passes. |
| PriorBoxOp.ImageBatchAndChannelIgnored | paddle/operators/prior_box_op.cc:30-39 | Two images of rank 4 that differ only in N and C pass and fail exactly the same checks. |
| PriorBoxOp.BatchAndChannelIgnored | paddle/operators/prior_box_op.cc:35-39 | Two feature maps of rank 4 that differ only in N and C pass and fail exactly the same checks. |

## Left out

- `ExpandAspectRatios` and the kernel `PriorBoxOpKernel` (box geometry, normalisation, clipping, the variance broadcast) are in `prior_box_op.h`, which is not part of this model. The expansion is an opaque parameter.
- The `offset` and `clip` attributes and their defaults (0.5, true) are only read by the kernel and are never validated here, so `Config` does not carry them.
- Operator documentation, input/output declarations and the operator and kernel registration (prior_box_op.cc:89-118, 129-154) are framework metadata.
- The inference context's accessors (`HasInput`, `GetInputDim`, `Attrs().Get`, `SetOutputDim`) are replaced by parameters and the return value.
- Floating-point attributes are `real`: a NaN variance or step, which fails the source's `> 0` test, has no counterpart.
- PriorBoxOp.InferShape: does not model the machine widths. `num_priors` is a C++ `int` computed from a `size_t` product, and the dims are 64-bit; the model uses unbounded integers.
