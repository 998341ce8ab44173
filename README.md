# Adan optimizer model

A Dafny model of the Adan optimizer in `neosr/optimizers/adan.py`. Adan is an
adaptive Nesterov-momentum optimizer. Per parameter it keeps three moments:
the first moment `exp_avg`, the moment of gradient differences
`exp_avg_diff`, and the second moment `exp_avg_sq`. It also keeps the negated
previous clipped gradient `neg_pre_grad`. The model covers these parts of the
file:

- **Construction and its validation** (module `Hyperparams`, `Optimizer.Adan.Create`).
- **`restart_opt`**: sets every group's step to zero and zeroes the moments of
  each parameter that takes gradients.
- **`step`**:
  - computes an optional global gradient-norm clip factor;
  - advances each group's step counter and derives the bias corrections;
  - creates parameter state lazily, and re-seeds `neg_pre_grad` on step one;
  - skips parameters without a gradient;
  - dispatches each group to one of two kernels.
- **The two kernels** (module `Kernels`): the per-tensor kernel
  `_single_tensor_adan` and the batched kernel `_multi_tensor_adan`.

Each kernel is modelled as a method whose postcondition ties what it returns
to a reference update `AdanUpdate`, defined element by element from Adan's
update equations. Lemmas then state properties of that reference:

- each moment's recurrence;
- the second moment stays non-negative;
- every denominator is at least `eps`;
- the two orders of applying weight decay;
- with moment centralisation on, the centred first moment sums to zero;
- after a restart, the first step leaves the difference moment at zero.

The two kernels do not store the same first moment when moment
centralisation (`mc`) is on.

- The per-tensor kernel rebinds a local name to the centred moment. Its
  stored buffer keeps the uncentred moment.
- The batched kernel centres its stored buffers in place.

`Kernels.StoredUpdate` models both behaviours. `Kernels.CompareKernels`
proves that the two kernels agree when `mc` is off, and that otherwise they
differ exactly by that centring.

Tensors are one-dimensional sequences of exact reals (module `Tensors`). Each
in-place tensor operation becomes a function from the old tensor to the new
one.

The optimizer object is a class (`Optimizer.Adan`) with three fields:

- `groups`: the parameter groups;
- `params`: the parameters, by identifier;
- `state`: the per-parameter state.

Its step is proved equal to a fold over the groups (`Optimizer.StepGroups`).
`Optimizer.StepGroupsEffect` characterises that fold: each parameter with a
gradient in some group is updated once by that group's kernel, and every
other parameter and state entry is left as it was. The class invariant
`Optimizer.Adan.Valid` also keeps every stored second moment `exp_avg_sq`
non-negative through construction, restarts and steps, so every square root
a step takes is of a non-negative number.

The square root is a parameter of the operations that take one, assumed only
non-negative, and positive on positive arguments. The training closure is
replaced by the loss value it would return.

## Model

| member | source | states |
|---|---|---|
| Hyperparams.Defaults | neosr/optimizers/adan.py:31-43 | the constructor's defaults pass validation and switch clipping off |
| Hyperparams.Validate | neosr/optimizers/adan.py:44-55 | construction succeeds exactly when max_grad_norm, lr and eps are non-negative and every beta lies in [0, 1); each error is reported exactly when its check is the first to fail, and the beta errors name the index |
| Hyperparams.ValidateIgnoresWeightDecay | neosr/optimizers/adan.py:44-55 | neither weight_decay nor the flags influence whether construction succeeds |
| Hyperparams.PowInUnitInterval | neosr/optimizers/adan.py:135-137 | a power (at least the first) of a beta in [0, 1) stays in [0, 1) |
| Hyperparams.BiasCorrection | neosr/optimizers/adan.py:135-137 | from step one on, each bias correction `1 - beta ** step` of a beta in [0, 1) lies in (0, 1] |
| Hyperparams.ClipFactor | neosr/optimizers/adan.py:112-116 | the clip factor is 1 when max_grad_norm is not positive; it lies in [0, 1]; it scales the global norm to at most max_grad_norm; it is the quotient when that is below 1 and exactly 1 otherwise |
| Hyperparams.WithDefaults | neosr/optimizers/adan.py:57-67 | each option a group gives is kept, and each option it leaves out takes the constructor's value, key by key (`betas` as one key) |
| Hyperparams.NoOptionsGivesDefaults | neosr/optimizers/adan.py:57-67 | a group that gives no option runs with exactly the constructor's values |
| Hyperparams.FullOptionsIgnoreDefaults | neosr/optimizers/adan.py:57-67 | a group that gives every option does not depend on the constructor's values |
| Optimizer.GroupsOf | neosr/optimizers/adan.py:57-67 | each group keeps its parameters, has no step yet, and has its options completed key by key from the defaults |
| Optimizer.GroupsWithoutOptionsTakeDefaults | neosr/optimizers/adan.py:57-67 | a group built without options of its own runs with the constructor's arguments |
| Optimizer.Adan.Init | neosr/optimizers/adan.py:57-67 | the new optimizer holds the given groups with the defaults filled in, the given parameters and empty state, and satisfies the class invariant |
| Optimizer.Adan.Create | neosr/optimizers/adan.py:44-67 | construction fails exactly when validation fails, with validation's error, and otherwise yields a fresh optimizer with empty state |
| Optimizer.Adan.RestartOpt | neosr/optimizers/adan.py:75-88 | every group's step becomes 0; every parameter that takes gradients gets zero moments and keeps any neg_pre_grad; no other state changes; the class invariant (shapes, non-negative second moments) is kept |
| Optimizer.Restarted | neosr/optimizers/adan.py:84-88 | a restarted state has the parameter's shape, all three moments zero element by element (so the second moment is non-negative), and the neg_pre_grad it had before |
| Optimizer.Adan.RestartGroup | neosr/optimizers/adan.py:78-88 | the same reset restricted to one group's parameters, leaving all other state entries unchanged |
| Optimizer.RestartThenStepKeepsDiffZero | neosr/optimizers/adan.py:75-88 | the step after a restart is step one, and it leaves the difference moment of a restarted parameter at zero |
| Optimizer.IdsGradSqSum | neosr/optimizers/adan.py:105-108 | the summed squared norms of a group's gradients are non-negative |
| Optimizer.GroupsGradSqSum | neosr/optimizers/adan.py:104-108 | the squared global gradient norm is non-negative |
| Optimizer.StepClip | neosr/optimizers/adan.py:99-116 | the clip factor of a step is 1 with clipping off; with clipping on it lies in [0, 1] and scales the global gradient norm to at most max_grad_norm; the eps it uses is the last group's |
| Optimizer.Adan.GlobalClip | neosr/optimizers/adan.py:99-114 | the loop over every gradient computes the clip factor of the squared global norm, against the eps of the last group |
| Optimizer.NextStep | neosr/optimizers/adan.py:130-133 | the step counter is incremented when present and starts at 1 otherwise |
| Optimizer.GroupArgs | neosr/optimizers/adan.py:135-181 | the kernel arguments of a group at step t >= 1 have bias corrections in (0, 1], a positive root of the third correction, beta3 in [0, 1), and every divisor of the kernel non-zero |
| Optimizer.FirstStepBiasCorrections | neosr/optimizers/adan.py:135-137 | on step one the corrections are `1 - beta1`, `1 - beta2` and the root of `1 - beta3` |
| Optimizer.WithGrad | neosr/optimizers/adan.py:139-143 | an identifier is passed to the kernel exactly when it is in the group, names a known parameter and that parameter has a gradient |
| Optimizer.Prepare | neosr/optimizers/adan.py:145-152 | preparing a parameter always leaves it with a neg_pre_grad, keeps the shapes of its state, and keeps its second moment non-negative |
| Optimizer.FreshStateStartsAtZero | neosr/optimizers/adan.py:145-152 | a parameter without state starts with zero moments and neg_pre_grad set to the negated clipped gradient |
| Optimizer.PrepareKeepsExistingState | neosr/optimizers/adan.py:145-152 | existing state keeps its moments; its neg_pre_grad is kept unless it is missing or the step is the first, and then it is re-seeded from the clipped gradient |
| Optimizer.Adan.PrepareState | neosr/optimizers/adan.py:145-157 | only the prepared parameter's state entry changes, and the kernel buffers are read from it |
| Optimizer.Adan.Collect | neosr/optimizers/adan.py:139-157 | the collected identifiers are exactly the group's parameters with a gradient, each once, with their prepared buffers; each of them now has its prepared state stored, and no other state entry changes |
| Optimizer.Adan.CollectOne | neosr/optimizers/adan.py:142-157 | one more parameter joins the collected ones, with its prepared state stored and its buffers read from that state, and no other state entry changes |
| Optimizer.Unzip | neosr/optimizers/adan.py:162-168 | the six per-parameter lists passed to a kernel are parallel and hold, at each index, that parameter's buffers |
| Optimizer.Adan.WriteBack | neosr/optimizers/adan.py:183-186 | the kernel's in-place updates land in the parameters and state entries they alias, and nowhere else |
| Optimizer.Adan.StepGroup | neosr/optimizers/adan.py:118-186 | one group's step counter advances, even when the group has no gradients; each of its parameters with a gradient gets the kernel's result; everything else is unchanged |
| Optimizer.SteppedKeepsSecondMomentNonNegative | neosr/optimizers/adan.py:145-186 | the step of one parameter, prepared and run through either kernel, leaves a non-negative second moment non-negative |
| Optimizer.Adan.StepEachGroup | neosr/optimizers/adan.py:118-186 | every group's counter advances, and parameters and state become the fold of the group steps in order |
| Optimizer.Adan.Step | neosr/optimizers/adan.py:91-188 | the step keeps the class invariant (shapes, non-negative second moments) and returns the loss; with clipping on and an empty first group it fails and changes nothing; otherwise every counter advances and parameters and state are the fold of the group steps under one clip factor shared by all groups |
| Optimizer.StepGroups | neosr/optimizers/adan.py:118-186 | the in-order fold of the group steps, against which `Step` is stated, never adds or drops a parameter |
| Optimizer.GroupStepAt | neosr/optimizers/adan.py:139-186 | one group step updates exactly the group's parameters with a gradient, and leaves every other parameter and state entry as it was |
| Optimizer.GroupStepKeepsShapes | neosr/optimizers/adan.py:139-186 | one group step keeps every state entry shaped like its parameter |
| Optimizer.StepGroupsKeepShapes | neosr/optimizers/adan.py:118-186 | the steps of all groups keep every state entry shaped like its parameter |
| Optimizer.StepGroupsAt | neosr/optimizers/adan.py:118-186 | with each parameter in at most one group, a parameter with a gradient in a group is updated once by that group, and a parameter in no such group is untouched |
| Optimizer.StepGroupsEffect | neosr/optimizers/adan.py:118-186 | the same for all parameters at once, together with key and shape preservation |
| Optimizer.GroupStepIsDetermined | neosr/optimizers/adan.py:139-186 | any parameters and state that satisfy the per-parameter description of a group step are that group step |
| Kernels.Denominators | neosr/optimizers/adan.py:239 | every denominator is positive and at least eps |
| Kernels.ParamStep | neosr/optimizers/adan.py:243-250 | the parameter update keeps the parameter's shape; `ParamStepElements` gives its value |
| Kernels.ParamStepElements | neosr/optimizers/adan.py:243-250 | with no_prox the parameter is decayed by `1 - lr*wd` before both steps; otherwise both steps come first and the result is divided by `1 + lr*wd` |
| Kernels.ParamStepWithoutDecay | neosr/optimizers/adan.py:243-250 | without weight decay the two orders give the same parameter |
| Kernels.DecayOrderIrrelevantWithoutDecay | neosr/optimizers/adan.py:243-250 | without weight decay no_prox does not change the update at all |
| Kernels.Moments | neosr/optimizers/adan.py:219-237 | the new gradient and moments keep every buffer's shape and leave the parameter as it was; the equation lemmas give their values |
| Kernels.AdanUpdate | neosr/optimizers/adan.py:219-252 | the reference update keeps shapes, and its buffers other than the parameter are exactly the moments |
| Kernels.StoredUpdate | neosr/optimizers/adan.py:229-230 | what a kernel stores is the reference update, except that the batched kernel with mc stores the centred first moment |
| Kernels.GradientEquations | neosr/optimizers/adan.py:219 | the gradient is scaled by the clip factor and neg_pre_grad ends as the negated clipped gradient |
| Kernels.FirstMomentEquation | neosr/optimizers/adan.py:225 | `m = beta1*m + (1-beta1)*g` for the clipped gradient g |
| Kernels.DifferenceAt | neosr/optimizers/adan.py:223 | adding the clipped gradient to neg_pre_grad gives the gradient difference |
| Kernels.BlendedAt | neosr/optimizers/adan.py:234 | the blended buffer is `beta2 * (g - g_prev) + g` |
| Kernels.DifferenceMomentEquation | neosr/optimizers/adan.py:232 | `diff = beta2*diff + (1-beta2)*(g - g_prev)` |
| Kernels.SecondMomentEquation | neosr/optimizers/adan.py:234-237 | `n = beta3*n + (1-beta3)*b*b` for the blended buffer b |
| Kernels.SecondMomentStaysNonNegative | neosr/optimizers/adan.py:235-237 | a non-negative second moment stays non-negative |
| Kernels.FirstStepDiffStaysZero | neosr/optimizers/adan.py:223-237 | when neg_pre_grad was re-seeded from the current gradient and the difference moment is zero, it stays zero, and the second moment only takes in the squared clipped gradient |
| Kernels.CentredMomentSumsToZero | neosr/optimizers/adan.py:229-230 | with mc, the first moment used in the update sums to zero |
| Kernels.ScratchHoldsDifference | neosr/optimizers/adan.py:223 | adding the gradient to the negated previous gradient is the difference `g - g_prev` |
| Kernels.ScratchHoldsNegatedGradient | neosr/optimizers/adan.py:252 | zeroing the scratch buffer and subtracting the gradient leaves the negated gradient |
| Kernels.BufferStepsComputeUpdate | neosr/optimizers/adan.py:219-252 | the kernel's sequence of in-place buffer operations computes the reference update |
| Kernels.UpdateParam | neosr/optimizers/adan.py:239-250 | the parameter update applies the step in the order no_prox selects |
| Kernels.SingleTensorStep | neosr/optimizers/adan.py:212-252 | the per-tensor loop body computes the reference update and stores the uncentred first moment |
| Kernels.SingleTensorAdan | neosr/optimizers/adan.py:191-252 | the per-tensor kernel applies that update to every parameter of the lists |
| Kernels.CentreEach | neosr/optimizers/adan.py:290-299 | each first moment is shifted by its own mean |
| Kernels.UpdateParams | neosr/optimizers/adan.py:315-325 | every parameter of the list is updated in the order no_prox selects |
| Kernels.MultiTensorAdan | neosr/optimizers/adan.py:255-327 | the batched kernel applies the reference update to every parameter of the lists, storing the centred first moment when mc is on; empty lists stay empty |
| Kernels.CompareKernels | neosr/optimizers/adan.py:183-186 | the two kernels agree when mc is off, and otherwise differ only in the stored first moment, which the batched kernel centres |
| Tensors.CentredSumsToZero | neosr/optimizers/adan.py:299 | a tensor minus its mean sums to zero |
| Tensors.CentredIdempotent | neosr/optimizers/adan.py:299 | centring an already centred tensor changes nothing |

## Left out

- Floating point: tensors hold exact reals. Rounding, NaN and infinity are not modelled. The one exception is the clip factor over a zero denominator, where IEEE gives +inf and the clamp gives 1.
- Tensors are one-dimensional, because every operation of the core is element-wise or a whole-tensor reduction.
- Devices, `torch.no_grad`/`torch.enable_grad`, and `.item()` are not modelled; they do not change values.
- The closure: `Optimizer.Adan.Step` takes the loss the closure would return, because calling user code is outside the model.
- The square root is a parameter assumed non-negative and positive on positive arguments. It is not the IEEE square root.
- `Kernels.Denominators`: proves every denominator is at least eps for any second moment, because the abstract square root is non-negative on negative arguments too, where `torch.sqrt` gives NaN. The class invariant `Optimizer.Adan.Valid` shows that a step only ever takes the root of a non-negative second moment, so the case does not arise in the optimizer.
- `__setstate__` (restoring a pickled optimizer) is not modelled, because serialisation is outside the model. The base class's `state_dict` is not modelled either, nor is adding a parameter group after construction; the key-by-key defaulting that the base class applies to each group at construction is modelled (`Hyperparams.WithDefaults`).
- `Optimizer.Adan.Create`: requires at least one group (a group itself may be empty), that the groups name only known parameters, and that no parameter is listed twice, whether in one group or in two. It does not model the base-class errors for a violated requirement, because that base class is not part of this model.
- `Optimizer.Adan.Init`: has the same requirements as `Create`, for the same reason.
- `Optimizer.Adan.Step`: requires every group's options to be kernel-safe: betas in [0, 1), eps > 0, and `1 + lr*weight_decay != 0` when no_prox is off. The source checks none of these for options a group brings along, and it accepts eps == 0 from the constructor. Betas outside [0, 1) are excluded for simplicity: the source then runs normally on bias corrections outside (0, 1], except in these cases. A first or second correction of exactly 0 raises ZeroDivisionError where the step sizes are computed: adan.py:240-241 in the per-tensor kernel and adan.py:315-316 in the batched one. A negative third correction raises ValueError from `math.sqrt` at adan.py:174. A third correction of exactly 0 raises nothing: its root is 0 and the tensor divisions at adan.py:239 and adan.py:312 give infinite or NaN values. With eps == 0 or `1 + lr*weight_decay == 0` the source does not raise but produces infinite or NaN tensor values at adan.py:239-250, which exact reals cannot represent.
- `Optimizer.Adan.StepEachGroup`: has the same kernel-safe requirement as `Step`.
- `Optimizer.Adan.StepGroup`: has the same kernel-safe requirement, for its one group.
- Aliasing: the kernels update the tensors held in `state` and the parameters in place. The model returns the new buffers and writes them back into `params` and `state` by identifier. A tensor reached twice in one step is excluded, because no parameter is listed twice, neither within one group nor across groups.
