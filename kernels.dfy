/** The two Adan update kernels and the reference update they are proved
    against.

    The reference (`AdanUpdate`) names every intermediate quantity once: the
    clipped gradient, its difference to the previous clipped gradient and the
    blended gradient fed to the second moment.  The kernels compute the same
    quantities through a single reused buffer, `neg_pre_grad`, which holds in
    turn the negated previous gradient, the gradient difference, the blended
    gradient and the negated current gradient. */
module Kernels {
  import opened Tensors
  import opened Hyperparams

  /** The scalars a parameter group hands to a kernel for one step. */
  datatype KernelArgs = KernelArgs(
    beta1: real,
    beta2: real,
    beta3: real,
    bc1: real,
    bc2: real,
    bc3Sqrt: real,
    lr: real,
    weightDecay: real,
    eps: real,
    noProx: bool,
    mc: bool,
    clip: real)

  /** `lr * weight_decay` */
  function Decay(k: KernelArgs): real
  {
    k.lr * k.weightDecay
  }

  /** Every division a kernel makes has a non-zero divisor. */
  predicate Defined(k: KernelArgs)
  {
    k.bc1 != 0.0 && k.bc2 != 0.0 && k.bc3Sqrt > 0.0 && k.eps > 0.0 &&
    (!k.noProx ==> 1.0 + Decay(k) != 0.0)
  }

  /** `lr / bias_correction1` */
  function StepSize(k: KernelArgs): real
    requires Defined(k)
  {
    k.lr / k.bc1
  }

  /** `lr * beta2 / bias_correction2` */
  function StepSizeDiff(k: KernelArgs): real
    requires Defined(k)
  {
    k.lr * k.beta2 / k.bc2
  }

  /** One parameter with its gradient and its four state buffers. */
  datatype Slot = Slot(
    param: Tensor,
    grad: Tensor,
    expAvg: Tensor,
    expAvgSq: Tensor,
    expAvgDiff: Tensor,
    negPreGrad: Tensor)

  predicate Shaped(s: Slot)
  {
    |s.grad| == |s.param| && |s.expAvg| == |s.param| && |s.expAvgSq| == |s.param| &&
    |s.expAvgDiff| == |s.param| && |s.negPreGrad| == |s.param|
  }

  /** `sqrt(n) / sqrt(bias_correction3) + eps`, element by element: never
      below `eps`, so every division by it is defined. */
  function Denominators(k: KernelArgs, sqrt: real -> real, n: Tensor): (d: Tensor)
    requires Defined(k) && NonNegRoot(sqrt)
    ensures |d| == |n| && Positive(d) && forall i :: 0 <= i < |n| ==> d[i] >= k.eps
  {
    RootsOverPositiveAtLeast(n, sqrt, k.bc3Sqrt, k.eps);
    Shift(DivScalar(Sqrt(n, sqrt), k.bc3Sqrt), k.eps)
  }

  lemma RootsOverPositiveAtLeast(n: Tensor, sqrt: real -> real, c: real, eps: real)
    requires NonNegRoot(sqrt) && c > 0.0
    ensures forall i :: 0 <= i < |n| ==> Shift(DivScalar(Sqrt(n, sqrt), c), eps)[i] >= eps
  {
    forall i | 0 <= i < |n| ensures Shift(DivScalar(Sqrt(n, sqrt), c), eps)[i] >= eps {
      SqrtAt(n, sqrt, i);
      DivScalarAt(Sqrt(n, sqrt), c, i);
      ShiftAt(DivScalar(Sqrt(n, sqrt), c), eps, i);
      var root := sqrt(n[i]);
      RootNonNegative(sqrt, n[i]);
      assert root / c == root * (1.0 / c);
    }
  }

  /** The parameter update with decoupled weight decay.  With `no_prox` the
      parameter is first multiplied by `1 - lr * weight_decay`; otherwise the
      two moment terms are subtracted first and the result is divided by
      `1 + lr * weight_decay`. */
  function ParamStep(k: KernelArgs, p: Tensor, m: Tensor, diff: Tensor, denom: Tensor): (r: Tensor)
    requires Defined(k) && |m| == |p| && |diff| == |p| && |denom| == |p|
    requires Positive(denom)
    ensures |r| == |p|
  {
    if k.noProx then
      AddCDiv(AddCDiv(Scale(p, 1.0 - Decay(k)), m, denom, -StepSize(k)), diff, denom, -StepSizeDiff(k))
    else
      DivScalar(AddCDiv(AddCDiv(p, m, denom, -StepSize(k)), diff, denom, -StepSizeDiff(k)), 1.0 + Decay(k))
  }

  /** The two decay orderings, element by element. */
  lemma ParamStepElements(k: KernelArgs, p: Tensor, m: Tensor, diff: Tensor, denom: Tensor, i: nat)
    requires Defined(k) && |m| == |p| && |diff| == |p| && |denom| == |p|
    requires Positive(denom)
    requires i < |p|
    ensures k.noProx ==>
      ParamStep(k, p, m, diff, denom)[i] ==
        p[i] * (1.0 - Decay(k)) - StepSize(k) * (m[i] / denom[i]) - StepSizeDiff(k) * (diff[i] / denom[i])
    ensures !k.noProx ==>
      ParamStep(k, p, m, diff, denom)[i] ==
        (p[i] - StepSize(k) * (m[i] / denom[i]) - StepSizeDiff(k) * (diff[i] / denom[i])) / (1.0 + Decay(k))
  {
    var start := if k.noProx then Scale(p, 1.0 - Decay(k)) else p;
    var first := AddCDiv(start, m, denom, -StepSize(k));
    var second := AddCDiv(first, diff, denom, -StepSizeDiff(k));
    AddCDivAt(start, m, denom, -StepSize(k), i);
    AddCDivAt(first, diff, denom, -StepSizeDiff(k), i);
    if k.noProx {
      ScaleAt(p, 1.0 - Decay(k), i);
    } else {
      DivScalarAt(second, 1.0 + Decay(k), i);
    }
  }

  /** The clipped gradient. */
  function Clipped(k: KernelArgs, s: Slot): (g: Tensor)
    ensures |g| == |s.grad|
  {
    Scale(s.grad, k.clip)
  }

  /** The difference between the clipped gradient and the previous one, which
      `neg_pre_grad` holds negated. */
  function Difference(k: KernelArgs, s: Slot): (d: Tensor)
    requires Shaped(s)
    ensures |d| == |s.param|
  {
    AddScaled(Clipped(k, s), Scale(s.negPreGrad, -1.0), -1.0)
  }

  /** The gradient fed to the second moment: `g + beta2 * (g - prev)`. */
  function Blended(k: KernelArgs, s: Slot): (b: Tensor)
    requires Shaped(s)
    ensures |b| == |s.param|
  {
    AddScaled(Scale(Difference(k, s), k.beta2), Clipped(k, s), 1.0)
  }

  /** The new gradient and state buffers of the reference update; the
      parameter is left as it was. */
  function Moments(k: KernelArgs, s: Slot): (r: Slot)
    requires Shaped(s)
    ensures Shaped(r) && r.param == s.param
  {
    var g := Clipped(k, s);
    Slot(
      s.param,
      g,
      AddScaled(Scale(s.expAvg, k.beta1), g, 1.0 - k.beta1),
      AddCMul(Scale(s.expAvgSq, k.beta3), Blended(k, s), Blended(k, s), 1.0 - k.beta3),
      AddScaled(Scale(s.expAvgDiff, k.beta2), Difference(k, s), 1.0 - k.beta2),
      Scale(g, -1.0))
  }

  /** The reference Adan update of one parameter, without buffer reuse.  The
      parameter moves along the (optionally centred) first moment and the
      difference moment; the stored first moment is the uncentred one, and
      `StoredUpdate` says which kernel stores which. */
  function AdanUpdate(k: KernelArgs, sqrt: real -> real, s: Slot): (r: Slot)
    requires Defined(k) && NonNegRoot(sqrt) && Shaped(s)
    ensures Shaped(r) && r == Moments(k, s).(param := r.param)
  {
    var r := Moments(k, s);
    var mUsed := if k.mc then Centred(r.expAvg) else r.expAvg;
    r.(param := ParamStep(k, s.param, mUsed, r.expAvgDiff, Denominators(k, sqrt, r.expAvgSq)))
  }

  /** What a kernel leaves in the six buffers: the batched kernel stores the
      centred first moment, the per-tensor kernel the uncentred one. */
  function StoredUpdate(k: KernelArgs, sqrt: real -> real, s: Slot, batched: bool): (r: Slot)
    requires Defined(k) && NonNegRoot(sqrt) && Shaped(s)
    ensures Shaped(r) && |r.param| == |s.param|
    ensures r.expAvg == if batched && k.mc then Centred(AdanUpdate(k, sqrt, s).expAvg) else AdanUpdate(k, sqrt, s).expAvg
    ensures r.(expAvg := AdanUpdate(k, sqrt, s).expAvg) == AdanUpdate(k, sqrt, s)
  {
    var r := AdanUpdate(k, sqrt, s);
    if batched && k.mc then r.(expAvg := Centred(r.expAvg)) else r
  }

  // ---------------------------------------------------------------------
  // What the reference update means, element by element.

  /** The element-wise update equations as the algorithm states them, with
      `g` the clipped gradient and `prev` the previous one (which
      `neg_pre_grad` held negated). */
  lemma GradientEquations(k: KernelArgs, sqrt: real -> real, s: Slot, i: nat)
    requires Defined(k) && NonNegRoot(sqrt) && Shaped(s) && i < |s.param|
    ensures AdanUpdate(k, sqrt, s).grad[i] == s.grad[i] * k.clip
    ensures AdanUpdate(k, sqrt, s).negPreGrad[i] == -(s.grad[i] * k.clip)
  {
    ScaleAt(s.grad, k.clip, i);
    ScaleAt(Clipped(k, s), -1.0, i);
  }

  lemma FirstMomentEquation(k: KernelArgs, sqrt: real -> real, s: Slot, i: nat)
    requires Defined(k) && NonNegRoot(sqrt) && Shaped(s) && i < |s.param|
    ensures AdanUpdate(k, sqrt, s).expAvg[i] == k.beta1 * s.expAvg[i] + (1.0 - k.beta1) * (s.grad[i] * k.clip)
  {
    AddScaledAt(Scale(s.expAvg, k.beta1), Clipped(k, s), 1.0 - k.beta1, i);
    ScaleAt(s.expAvg, k.beta1, i);
    ScaleAt(s.grad, k.clip, i);
  }

  lemma DifferenceAt(k: KernelArgs, s: Slot, i: nat)
    requires Shaped(s) && i < |s.param|
    ensures Difference(k, s)[i] == s.grad[i] * k.clip + s.negPreGrad[i]
  {
    AddScaledAt(Clipped(k, s), Scale(s.negPreGrad, -1.0), -1.0, i);
    ScaleAt(s.grad, k.clip, i);
    ScaleAt(s.negPreGrad, -1.0, i);
  }

  lemma BlendedAt(k: KernelArgs, s: Slot, i: nat)
    requires Shaped(s) && i < |s.param|
    ensures Blended(k, s)[i] == k.beta2 * (s.grad[i] * k.clip + s.negPreGrad[i]) + s.grad[i] * k.clip
  {
    AddScaledAt(Scale(Difference(k, s), k.beta2), Clipped(k, s), 1.0, i);
    ScaleAt(Difference(k, s), k.beta2, i);
    ScaleAt(s.grad, k.clip, i);
    DifferenceAt(k, s, i);
  }

  lemma DifferenceMomentEquation(k: KernelArgs, sqrt: real -> real, s: Slot, i: nat)
    requires Defined(k) && NonNegRoot(sqrt) && Shaped(s) && i < |s.param|
    ensures AdanUpdate(k, sqrt, s).expAvgDiff[i] ==
      k.beta2 * s.expAvgDiff[i] + (1.0 - k.beta2) * (s.grad[i] * k.clip + s.negPreGrad[i])
  {
    AddScaledAt(Scale(s.expAvgDiff, k.beta2), Difference(k, s), 1.0 - k.beta2, i);
    ScaleAt(s.expAvgDiff, k.beta2, i);
    DifferenceAt(k, s, i);
  }

  lemma SecondMomentEquation(k: KernelArgs, sqrt: real -> real, s: Slot, i: nat)
    requires Defined(k) && NonNegRoot(sqrt) && Shaped(s) && i < |s.param|
    ensures AdanUpdate(k, sqrt, s).expAvgSq[i] ==
      k.beta3 * s.expAvgSq[i] + (1.0 - k.beta3) * (Blended(k, s)[i] * Blended(k, s)[i])
  {
    AddCMulAt(Scale(s.expAvgSq, k.beta3), Blended(k, s), Blended(k, s), 1.0 - k.beta3, i);
    ScaleAt(s.expAvgSq, k.beta3, i);
  }

  /** A convex combination of a non-negative value and a square is non-negative. */
  lemma ConvexSquareNonNegative(beta3: real, n: real, b: real)
    requires 0.0 <= beta3 <= 1.0 && n >= 0.0
    ensures beta3 * n + (1.0 - beta3) * (b * b) >= 0.0
  {
    assert b * b >= 0.0;
    assert beta3 * n >= 0.0;
    assert (1.0 - beta3) * (b * b) >= 0.0;
  }

  /** `exp_avg_sq` stays non-negative from one step to the next. */
  lemma SecondMomentStaysNonNegative(k: KernelArgs, sqrt: real -> real, s: Slot)
    requires Defined(k) && NonNegRoot(sqrt) && Shaped(s)
    requires 0.0 <= k.beta3 <= 1.0 && NonNegative(s.expAvgSq)
    ensures NonNegative(AdanUpdate(k, sqrt, s).expAvgSq)
  {
    forall i | 0 <= i < |s.param| ensures AdanUpdate(k, sqrt, s).expAvgSq[i] >= 0.0 {
      SecondMomentEquation(k, sqrt, s, i);
      ConvexSquareNonNegative(k.beta3, s.expAvgSq[i], Blended(k, s)[i]);
    }
  }

  /** On a first step `neg_pre_grad` has been re-seeded to minus the clipped
      gradient: the gradient difference is zero, so a zeroed `exp_avg_diff`
      stays zero and the second moment is fed the clipped gradient itself. */
  lemma FirstStepDiffStaysZero(k: KernelArgs, sqrt: real -> real, s: Slot)
    requires Defined(k) && NonNegRoot(sqrt) && Shaped(s)
    requires s.negPreGrad == Scale(s.grad, -k.clip)
    requires s.expAvgDiff == Zeros(|s.param|)
    ensures AdanUpdate(k, sqrt, s).expAvgDiff == Zeros(|s.param|)
    ensures forall i :: 0 <= i < |s.param| ==>
      AdanUpdate(k, sqrt, s).expAvgSq[i] ==
        k.beta3 * s.expAvgSq[i] + (1.0 - k.beta3) * ((s.grad[i] * k.clip) * (s.grad[i] * k.clip))
  {
    var r := AdanUpdate(k, sqrt, s);
    forall i | 0 <= i < |s.param|
      ensures r.expAvgDiff[i] == Zeros(|s.param|)[i]
      ensures r.expAvgSq[i] ==
        k.beta3 * s.expAvgSq[i] + (1.0 - k.beta3) * ((s.grad[i] * k.clip) * (s.grad[i] * k.clip))
    {
      ScaleAt(s.grad, -k.clip, i);
      ZerosAt(|s.param|, i);
      DifferenceMomentEquation(k, sqrt, s, i);
      SecondMomentEquation(k, sqrt, s, i);
      BlendedAt(k, s, i);
    }
    SameElements(r.expAvgDiff, Zeros(|s.param|));
  }

  /** With moment centralisation the parameter moves along the new first
      moment minus its mean, whose elements sum to zero. */
  lemma CentredMomentSumsToZero(k: KernelArgs, sqrt: real -> real, s: Slot)
    requires Defined(k) && NonNegRoot(sqrt) && Shaped(s) && k.mc
    ensures Sum(Centred(AdanUpdate(k, sqrt, s).expAvg)) == 0.0
  {
    CentredSumsToZero(AdanUpdate(k, sqrt, s).expAvg);
  }

  /** Without weight decay the two orderings of the parameter update agree. */
  lemma ParamStepWithoutDecay(k: KernelArgs, p: Tensor, m: Tensor, diff: Tensor, denom: Tensor)
    requires Defined(k) && |m| == |p| && |diff| == |p| && |denom| == |p|
    requires Positive(denom) && Decay(k) == 0.0
    ensures ParamStep(k.(noProx := true), p, m, diff, denom) == ParamStep(k.(noProx := false), p, m, diff, denom)
  {
    var kp, kn := k.(noProx := true), k.(noProx := false);
    assert StepSize(kp) == StepSize(kn) && StepSizeDiff(kp) == StepSizeDiff(kn);
    assert 1.0 - Decay(kp) == 1.0 && 1.0 + Decay(kn) == 1.0;
    ScaleByOne(p);
    DivScalarByOne(AddCDiv(AddCDiv(p, m, denom, -StepSize(kn)), diff, denom, -StepSizeDiff(kn)));
  }

  /** Without weight decay the two decay orderings give the same parameter. */
  lemma DecayOrderIrrelevantWithoutDecay(k: KernelArgs, sqrt: real -> real, s: Slot)
    requires Defined(k) && NonNegRoot(sqrt) && Shaped(s)
    requires Decay(k) == 0.0
    ensures AdanUpdate(k.(noProx := true), sqrt, s) == AdanUpdate(k.(noProx := false), sqrt, s)
  {
    var kp, kn := k.(noProx := true), k.(noProx := false);
    var r := Moments(k, s);
    assert Moments(kp, s) == r;
    assert Moments(kn, s) == r;
    var mUsed := if k.mc then Centred(r.expAvg) else r.expAvg;
    var denom := Denominators(k, sqrt, r.expAvgSq);
    assert Denominators(kp, sqrt, r.expAvgSq) == denom;
    assert Denominators(kn, sqrt, r.expAvgSq) == denom;
    ParamStepWithoutDecay(k, s.param, mUsed, r.expAvgDiff, denom);
    assert AdanUpdate(kp, sqrt, s) == r.(param := ParamStep(kp, s.param, mUsed, r.expAvgDiff, denom));
    assert AdanUpdate(kn, sqrt, s) == r.(param := ParamStep(kn, s.param, mUsed, r.expAvgDiff, denom));
  }

  // ---------------------------------------------------------------------
  // The buffer algebra of the kernels.

  /** `neg_pre_grad.add_(grad)`: a buffer holding minus the previous gradient
      now holds the gradient difference. */
  lemma ScratchHoldsDifference(negPrev: Tensor, g: Tensor)
    requires |negPrev| == |g|
    ensures AddScaled(negPrev, g, 1.0) == AddScaled(g, Scale(negPrev, -1.0), -1.0)
  {
    var a, b := AddScaled(negPrev, g, 1.0), AddScaled(g, Scale(negPrev, -1.0), -1.0);
    forall i | 0 <= i < |g| ensures a[i] == b[i] {
      AddScaledAt(negPrev, g, 1.0, i);
      AddScaledAt(g, Scale(negPrev, -1.0), -1.0, i);
      ScaleAt(negPrev, -1.0, i);
    }
    SameElements(a, b);
  }

  /** `neg_pre_grad.zero_().add_(grad, alpha=-1)`: the buffer ends up holding
      minus the clipped gradient. */
  lemma ScratchHoldsNegatedGradient(scratch: Tensor, g: Tensor)
    requires |scratch| == |g|
    ensures AddScaled(Zeros(|scratch|), g, -1.0) == Scale(g, -1.0)
  {
    var a, b := AddScaled(Zeros(|scratch|), g, -1.0), Scale(g, -1.0);
    forall i | 0 <= i < |g| ensures a[i] == b[i] {
      AddScaledAt(Zeros(|scratch|), g, -1.0, i);
      ZerosAt(|scratch|, i);
      ScaleAt(g, -1.0, i);
    }
    SameElements(a, b);
  }

  /** The sequence of in-place steps both kernels take on one parameter,
      with `diff` and `blended` the two values the reused buffer holds in
      turn, computes the reference update. */
  lemma BufferStepsComputeUpdate(
    k: KernelArgs, sqrt: real -> real, s: Slot,
    g: Tensor, diff: Tensor, m: Tensor, d: Tensor, blended: Tensor, n: Tensor, p: Tensor, npg: Tensor)
    requires Defined(k) && NonNegRoot(sqrt) && Shaped(s)
    requires g == Scale(s.grad, k.clip)
    requires diff == AddScaled(s.negPreGrad, g, 1.0)
    requires m == AddScaled(Scale(s.expAvg, k.beta1), g, 1.0 - k.beta1)
    requires d == AddScaled(Scale(s.expAvgDiff, k.beta2), diff, 1.0 - k.beta2)
    requires blended == AddScaled(Scale(diff, k.beta2), g, 1.0)
    requires n == AddCMul(Scale(s.expAvgSq, k.beta3), blended, blended, 1.0 - k.beta3)
    requires p == ParamStep(k, s.param, if k.mc then Centred(m) else m, d, Denominators(k, sqrt, n))
    requires npg == AddScaled(Zeros(|blended|), g, -1.0)
    ensures Slot(p, g, m, n, d, npg) == AdanUpdate(k, sqrt, s)
  {
    var want := Moments(k, s);
    assert g == want.grad;
    ScratchHoldsDifference(s.negPreGrad, g);
    assert diff == Difference(k, s);
    assert m == want.expAvg;
    assert d == want.expAvgDiff;
    assert blended == Blended(k, s);
    assert n == want.expAvgSq;
    assert p == AdanUpdate(k, sqrt, s).param;
    ScratchHoldsNegatedGradient(blended, g);
    assert npg == want.negPreGrad;
  }

  // ---------------------------------------------------------------------
  // The kernels.  Each takes the six parallel lists a parameter group builds
  // and gives back the lists as the kernel leaves them.

  predicate Parallel(ps: seq<Tensor>, gs: seq<Tensor>, ms: seq<Tensor>, ns: seq<Tensor>, ds: seq<Tensor>, npgs: seq<Tensor>)
  {
    |gs| == |ps| && |ms| == |ps| && |ns| == |ps| && |ds| == |ps| && |npgs| == |ps| &&
    forall j :: 0 <= j < |ps| ==> Shaped(Slot(ps[j], gs[j], ms[j], ns[j], ds[j], npgs[j]))
  }

  function SlotAt(ps: seq<Tensor>, gs: seq<Tensor>, ms: seq<Tensor>, ns: seq<Tensor>, ds: seq<Tensor>, npgs: seq<Tensor>, j: nat): (s: Slot)
    requires Parallel(ps, gs, ms, ns, ds, npgs) && j < |ps|
    ensures Shaped(s)
  {
    Slot(ps[j], gs[j], ms[j], ns[j], ds[j], npgs[j])
  }

  /** The parameter update of the per-tensor kernel, in place. */
  method UpdateParam(param: Tensor, expAvg: Tensor, expAvgDiff: Tensor, denom: Tensor, k: KernelArgs)
    returns (p: Tensor)
    requires Defined(k) && |expAvg| == |param| && |expAvgDiff| == |param| && |denom| == |param|
    requires Positive(denom)
    ensures p == ParamStep(k, param, expAvg, expAvgDiff, denom)
  {
    var stepSizeDiff := StepSizeDiff(k);
    var stepSize := StepSize(k);
    p := param;
    if k.noProx {
      p := Scale(p, 1.0 - Decay(k));
      p := AddCDiv(p, expAvg, denom, -stepSize);
      p := AddCDiv(p, expAvgDiff, denom, -stepSizeDiff);
    } else {
      p := AddCDiv(p, expAvg, denom, -stepSize);
      p := AddCDiv(p, expAvgDiff, denom, -stepSizeDiff);
      p := DivScalar(p, 1.0 + Decay(k));
    }
  }

  /** The body of the per-tensor kernel's loop: one parameter and its state.
      Under moment centralisation only a local rebinding of `exp_avg` is
      centred, so the stored first moment stays uncentred. */
  method SingleTensorStep(s: Slot, k: KernelArgs, sqrt: real -> real) returns (r: Slot)
    requires Defined(k) && NonNegRoot(sqrt) && Shaped(s)
    ensures r == StoredUpdate(k, sqrt, s, false)
  {
    var param, grad, expAvg, expAvgSq, expAvgDiff, negGradOrDiff :=
      s.param, s.grad, s.expAvg, s.expAvgSq, s.expAvgDiff, s.negPreGrad;

    grad := Scale(grad, k.clip);
    // the buffer held minus the previous gradient; it now holds the difference
    negGradOrDiff := AddScaled(negGradOrDiff, grad, 1.0);
    ghost var difference := negGradOrDiff;
    expAvg := AddScaled(Scale(expAvg, k.beta1), grad, 1.0 - k.beta1);
    var storedExpAvg := expAvg;
    if k.mc {
      expAvg := Centred(expAvg);
    }
    expAvgDiff := AddScaled(Scale(expAvgDiff, k.beta2), negGradOrDiff, 1.0 - k.beta2);
    // the buffer now holds the blended gradient
    negGradOrDiff := AddScaled(Scale(negGradOrDiff, k.beta2), grad, 1.0);
    ghost var blended := negGradOrDiff;
    expAvgSq := AddCMul(Scale(expAvgSq, k.beta3), negGradOrDiff, negGradOrDiff, 1.0 - k.beta3);

    var denom := Shift(DivScalar(Sqrt(expAvgSq, sqrt), k.bc3Sqrt), k.eps);
    assert denom == Denominators(k, sqrt, expAvgSq);
    param := UpdateParam(param, expAvg, expAvgDiff, denom, k);

    // the buffer ends up holding minus the clipped gradient
    negGradOrDiff := AddScaled(Zeros(|negGradOrDiff|), grad, -1.0);
    r := Slot(param, grad, storedExpAvg, expAvgSq, expAvgDiff, negGradOrDiff);
    BufferStepsComputeUpdate(k, sqrt, s, grad, difference, storedExpAvg, expAvgDiff, blended, expAvgSq, param, negGradOrDiff);
  }

  /** `_single_tensor_adan`: one parameter at a time.  Under moment
      centralisation only a local rebinding of `exp_avg` is centred, so the
      stored first moment stays uncentred. */
  method SingleTensorAdan(
    params: seq<Tensor>, grads: seq<Tensor>, expAvgs: seq<Tensor>, expAvgSqs: seq<Tensor>,
    expAvgDiffs: seq<Tensor>, negPreGrads: seq<Tensor>, k: KernelArgs, sqrt: real -> real)
    returns (ps: seq<Tensor>, gs: seq<Tensor>, ms: seq<Tensor>, ns: seq<Tensor>, ds: seq<Tensor>, npgs: seq<Tensor>)
    requires Defined(k) && NonNegRoot(sqrt)
    requires Parallel(params, grads, expAvgs, expAvgSqs, expAvgDiffs, negPreGrads)
    ensures Parallel(ps, gs, ms, ns, ds, npgs) && |ps| == |params|
    ensures forall j :: 0 <= j < |params| ==>
      SlotAt(ps, gs, ms, ns, ds, npgs, j) ==
        StoredUpdate(k, sqrt, SlotAt(params, grads, expAvgs, expAvgSqs, expAvgDiffs, negPreGrads, j), false)
  {
    ps, gs, ms, ns, ds, npgs := params, grads, expAvgs, expAvgSqs, expAvgDiffs, negPreGrads;
    var i := 0;
    while i < |params|
      invariant 0 <= i <= |params|
      invariant |ps| == |gs| == |ms| == |ns| == |ds| == |npgs| == |params|
      invariant forall j :: 0 <= j < i ==>
        Slot(ps[j], gs[j], ms[j], ns[j], ds[j], npgs[j]) ==
          StoredUpdate(k, sqrt, SlotAt(params, grads, expAvgs, expAvgSqs, expAvgDiffs, negPreGrads, j), false)
      invariant forall j :: i <= j < |params| ==>
        ps[j] == params[j] && gs[j] == grads[j] && ms[j] == expAvgs[j] &&
        ns[j] == expAvgSqs[j] && ds[j] == expAvgDiffs[j] && npgs[j] == negPreGrads[j]
    {
      var r := SingleTensorStep(Slot(ps[i], gs[i], ms[i], ns[i], ds[i], npgs[i]), k, sqrt);
      ps, gs, ms, ns, ds, npgs :=
        ps[i := r.param], gs[i := r.grad], ms[i := r.expAvg], ns[i := r.expAvgSq], ds[i := r.expAvgDiff], npgs[i := r.negPreGrad];
      i := i + 1;
    }
  }

  /** Moment centralisation in the batched kernel: the mean of every tensor
      is collected first, then each tensor has its own mean subtracted. */
  method CentreEach(ms: seq<Tensor>) returns (r: seq<Tensor>)
    ensures |r| == |ms| && forall j :: 0 <= j < |ms| ==> r[j] == Centred(ms[j])
  {
    var means: seq<real> := [];
    var i := 0;
    while i < |ms|
      invariant 0 <= i <= |ms|
      invariant |means| == i && forall j :: 0 <= j < i ==> means[j] == Mean(ms[j])
    {
      means := means + [Mean(ms[i])];
      i := i + 1;
    }
    r := ForeachSubtractEach(ms, means);
  }

  /** The parameter update of the batched kernel, applied to every parameter. */
  method UpdateParams(ps: seq<Tensor>, ms: seq<Tensor>, ds: seq<Tensor>, denom: seq<Tensor>, k: KernelArgs)
    returns (r: seq<Tensor>)
    requires Defined(k) && SameShapes(ps, ms) && SameShapes(ps, ds) && SameShapes(ps, denom)
    requires forall j :: 0 <= j < |denom| ==> Positive(denom[j])
    ensures |r| == |ps| && forall j :: 0 <= j < |ps| ==> r[j] == ParamStep(k, ps[j], ms[j], ds[j], denom[j])
  {
    var stepSizeDiff := StepSizeDiff(k);
    var stepSize := StepSize(k);
    r := ps;
    if k.noProx {
      r := ForeachScale(r, 1.0 - Decay(k));
      r := ForeachAddCDiv(r, ms, denom, -stepSize);
      r := ForeachAddCDiv(r, ds, denom, -stepSizeDiff);
    } else {
      r := ForeachAddCDiv(r, ms, denom, -stepSize);
      r := ForeachAddCDiv(r, ds, denom, -stepSizeDiff);
      r := ForeachDivScalar(r, 1.0 + Decay(k));
    }
  }

  /** `_multi_tensor_adan`: every step applied to the whole list at once.
      Under moment centralisation the centred first moment is written back
      into the stored `exp_avg`. */
  method MultiTensorAdan(
    params: seq<Tensor>, grads: seq<Tensor>, expAvgs: seq<Tensor>, expAvgSqs: seq<Tensor>,
    expAvgDiffs: seq<Tensor>, negPreGrads: seq<Tensor>, k: KernelArgs, sqrt: real -> real)
    returns (ps: seq<Tensor>, gs: seq<Tensor>, ms: seq<Tensor>, ns: seq<Tensor>, ds: seq<Tensor>, npgs: seq<Tensor>)
    requires Defined(k) && NonNegRoot(sqrt)
    requires Parallel(params, grads, expAvgs, expAvgSqs, expAvgDiffs, negPreGrads)
    ensures Parallel(ps, gs, ms, ns, ds, npgs) && |ps| == |params|
    ensures forall j :: 0 <= j < |params| ==>
      SlotAt(ps, gs, ms, ns, ds, npgs, j) ==
        StoredUpdate(k, sqrt, SlotAt(params, grads, expAvgs, expAvgSqs, expAvgDiffs, negPreGrads, j), true)
  {
    ps, gs, ms, ns, ds, npgs := params, grads, expAvgs, expAvgSqs, expAvgDiffs, negPreGrads;
    if |params| == 0 {
      return;
    }

    gs := ForeachScale(gs, k.clip);
    npgs := ForeachAddScaled(npgs, gs, 1.0);
    ghost var differences := npgs;
    ms := ForeachScale(ms, k.beta1);
    ms := ForeachAddScaled(ms, gs, 1.0 - k.beta1);
    ghost var firstMoments := ms;

    if k.mc {
      ms := CentreEach(ms);
    }

    ds := ForeachScale(ds, k.beta2);
    ds := ForeachAddScaled(ds, npgs, 1.0 - k.beta2);

    npgs := ForeachScale(npgs, k.beta2);
    npgs := ForeachAddScaled(npgs, gs, 1.0);
    ghost var blended := npgs;
    ns := ForeachScale(ns, k.beta3);
    ns := ForeachAddCMul(ns, npgs, npgs, 1.0 - k.beta3);

    var denom := ForeachSqrt(ns, sqrt);
    denom := ForeachDivScalar(denom, k.bc3Sqrt);
    denom := ForeachShift(denom, k.eps);
    assert forall j :: 0 <= j < |params| ==> denom[j] == Denominators(k, sqrt, ns[j]);

    ps := UpdateParams(ps, ms, ds, denom, k);
    npgs := ForeachZero(npgs);
    npgs := ForeachAddScaled(npgs, gs, -1.0);

    forall j | 0 <= j < |params|
      ensures Slot(ps[j], gs[j], ms[j], ns[j], ds[j], npgs[j]) ==
        StoredUpdate(k, sqrt, SlotAt(params, grads, expAvgs, expAvgSqs, expAvgDiffs, negPreGrads, j), true)
    {
      var s := SlotAt(params, grads, expAvgs, expAvgSqs, expAvgDiffs, negPreGrads, j);
      BufferStepsComputeUpdate(k, sqrt, s, gs[j], differences[j], firstMoments[j], ds[j], blended[j], ns[j], ps[j], npgs[j]);
    }
  }

  /** The two kernels agree on the parameters, the gradients and every state
      buffer, except that under moment centralisation the batched kernel
      stores the centred first moment where the per-tensor kernel stores the
      uncentred one. */
  method CompareKernels(
    params: seq<Tensor>, grads: seq<Tensor>, expAvgs: seq<Tensor>, expAvgSqs: seq<Tensor>,
    expAvgDiffs: seq<Tensor>, negPreGrads: seq<Tensor>, k: KernelArgs, sqrt: real -> real)
    returns (single: seq<Slot>, batched: seq<Slot>)
    requires Defined(k) && NonNegRoot(sqrt)
    requires Parallel(params, grads, expAvgs, expAvgSqs, expAvgDiffs, negPreGrads)
    ensures |single| == |batched| == |params|
    ensures !k.mc ==> single == batched
    ensures forall j :: 0 <= j < |params| ==>
      batched[j] == single[j].(expAvg := if k.mc then Centred(single[j].expAvg) else single[j].expAvg)
  {
    var ps, gs, ms, ns, ds, npgs := SingleTensorAdan(params, grads, expAvgs, expAvgSqs, expAvgDiffs, negPreGrads, k, sqrt);
    single := seq(|ps|, j requires 0 <= j < |ps| => SlotAt(ps, gs, ms, ns, ds, npgs, j));
    ps, gs, ms, ns, ds, npgs := MultiTensorAdan(params, grads, expAvgs, expAvgSqs, expAvgDiffs, negPreGrads, k, sqrt);
    batched := seq(|ps|, j requires 0 <= j < |ps| => SlotAt(ps, gs, ms, ns, ds, npgs, j));
  }
}
