/** Hyperparameters of the Adan optimizer, their validation at construction,
    the per-step bias corrections and the global clip factor. */
module Hyperparams {
  import opened Wrappers

  /** The options of one parameter group (`lr`, `betas`, `eps`, `weight_decay`,
      `max_grad_norm`, `no_prox`, `mc`, `foreach`). */
  datatype Hyper = Hyper(
    lr: real,
    beta1: real,
    beta2: real,
    beta3: real,
    eps: real,
    weightDecay: real,
    maxGradNorm: real,
    noProx: bool,
    mc: bool,
    foreach: bool)

  /** Why construction refused its arguments; `InvalidBeta(i)` names the index
      into `betas`. */
  datatype HyperError = InvalidMaxGradNorm | InvalidLr | InvalidEps | InvalidBeta(index: nat)

  /** The options a parameter group brings along, key by key; a key the
      group leaves out is `None`. */
  datatype Options = Options(
    lr: Option<real>,
    betas: Option<(real, real, real)>,
    eps: Option<real>,
    weightDecay: Option<real>,
    maxGradNorm: Option<real>,
    noProx: Option<bool>,
    mc: Option<bool>,
    foreach: Option<bool>)

  /** No option given: every key takes its default. */
  function NoOptions(): Options
  {
    Options(None, None, None, None, None, None, None, None)
  }

  function OrElse<T>(o: Option<T>, d: T): T
  {
    if o.Some? then o.value else d
  }

  /** A group's options completed by the defaults: each key the group gives
      is kept, and every key it leaves out takes the default's value. */
  function WithDefaults(o: Options, d: Hyper): (h: Hyper)
    ensures o.lr.Some? ==> h.lr == o.lr.value
    ensures o.lr.None? ==> h.lr == d.lr
    ensures o.betas.Some? ==> (h.beta1, h.beta2, h.beta3) == o.betas.value
    ensures o.betas.None? ==> (h.beta1, h.beta2, h.beta3) == (d.beta1, d.beta2, d.beta3)
    ensures o.eps.Some? ==> h.eps == o.eps.value
    ensures o.eps.None? ==> h.eps == d.eps
    ensures o.weightDecay.Some? ==> h.weightDecay == o.weightDecay.value
    ensures o.weightDecay.None? ==> h.weightDecay == d.weightDecay
    ensures o.maxGradNorm.Some? ==> h.maxGradNorm == o.maxGradNorm.value
    ensures o.maxGradNorm.None? ==> h.maxGradNorm == d.maxGradNorm
    ensures o.noProx.Some? ==> h.noProx == o.noProx.value
    ensures o.noProx.None? ==> h.noProx == d.noProx
    ensures o.mc.Some? ==> h.mc == o.mc.value
    ensures o.mc.None? ==> h.mc == d.mc
    ensures o.foreach.Some? ==> h.foreach == o.foreach.value
    ensures o.foreach.None? ==> h.foreach == d.foreach
  {
    var betas := OrElse(o.betas, (d.beta1, d.beta2, d.beta3));
    Hyper(
      OrElse(o.lr, d.lr), betas.0, betas.1, betas.2, OrElse(o.eps, d.eps),
      OrElse(o.weightDecay, d.weightDecay), OrElse(o.maxGradNorm, d.maxGradNorm),
      OrElse(o.noProx, d.noProx), OrElse(o.mc, d.mc), OrElse(o.foreach, d.foreach))
  }

  /** A group that gives no option runs with exactly the defaults. */
  lemma NoOptionsGivesDefaults(d: Hyper)
    ensures WithDefaults(NoOptions(), d) == d
  {
  }

  /** A group that gives every option does not depend on the defaults. */
  lemma FullOptionsIgnoreDefaults(o: Options, d1: Hyper, d2: Hyper)
    requires o.lr.Some? && o.betas.Some? && o.eps.Some? && o.weightDecay.Some? && o.maxGradNorm.Some?
    requires o.noProx.Some? && o.mc.Some? && o.foreach.Some?
    ensures WithDefaults(o, d1) == WithDefaults(o, d2)
  {
  }

  predicate InUnitInterval(b: real)
  {
    0.0 <= b < 1.0
  }

  /** The ranges construction enforces.  `weight_decay` is not among them. */
  predicate InRange(h: Hyper)
  {
    h.maxGradNorm >= 0.0 && h.lr >= 0.0 && h.eps >= 0.0 &&
    InUnitInterval(h.beta1) && InUnitInterval(h.beta2) && InUnitInterval(h.beta3)
  }

  /** The constructor's default arguments. */
  function Defaults(): (h: Hyper)
    ensures InRange(h) && h.maxGradNorm == 0.0
  {
    Hyper(0.0005, 0.98, 0.92, 0.99, 0.00000001, 0.02, 0.0, true, true, true)
  }

  /** The checks of the constructor, in the order it makes them: the first
      failing check decides the error. */
  function Validate(h: Hyper): (r: Result<Hyper, HyperError>)
    ensures r.Ok? <==> InRange(h)
    ensures r.Ok? ==> r.value == h
    ensures r == Err(InvalidMaxGradNorm) <==> h.maxGradNorm < 0.0
    ensures r == Err(InvalidLr) <==> h.maxGradNorm >= 0.0 && h.lr < 0.0
    ensures r == Err(InvalidEps) <==> h.maxGradNorm >= 0.0 && h.lr >= 0.0 && h.eps < 0.0
    ensures r.Err? && r.error.InvalidBeta? ==>
      r.error.index < 3 && h.maxGradNorm >= 0.0 && h.lr >= 0.0 && h.eps >= 0.0
    ensures r == Err(InvalidBeta(0)) <==>
      h.maxGradNorm >= 0.0 && h.lr >= 0.0 && h.eps >= 0.0 && !InUnitInterval(h.beta1)
    ensures r == Err(InvalidBeta(2)) <==>
      h.maxGradNorm >= 0.0 && h.lr >= 0.0 && h.eps >= 0.0 &&
      InUnitInterval(h.beta1) && InUnitInterval(h.beta2) && !InUnitInterval(h.beta3)
  {
    if !(h.maxGradNorm >= 0.0) then Err(InvalidMaxGradNorm)
    else if !(h.lr >= 0.0) then Err(InvalidLr)
    else if !(h.eps >= 0.0) then Err(InvalidEps)
    else if !InUnitInterval(h.beta1) then Err(InvalidBeta(0))
    else if !InUnitInterval(h.beta2) then Err(InvalidBeta(1))
    else if !InUnitInterval(h.beta3) then Err(InvalidBeta(2))
    else Ok(h)
  }

  /** Validation never looks at the weight decay, nor at the flags. */
  lemma ValidateIgnoresWeightDecay(h: Hyper, wd: real, noProx: bool, mc: bool, foreach: bool)
    ensures Validate(h.(weightDecay := wd, noProx := noProx, mc := mc, foreach := foreach)).Ok?
        <==> Validate(h).Ok?
  {
  }

  /** `b ** n` for a natural exponent */
  function Pow(b: real, n: nat): real
  {
    if n == 0 then 1.0 else b * Pow(b, n - 1)
  }

  lemma {:induction false} PowInUnitInterval(b: real, n: nat)
    requires InUnitInterval(b) && n >= 1
    ensures InUnitInterval(Pow(b, n))
  {
    if n > 1 {
      PowInUnitInterval(b, n - 1);
      assert b * Pow(b, n - 1) <= Pow(b, n - 1);
    }
  }

  /** `1 - beta ** step`: from the first step on, a bias correction lies in
      (0, 1], so the kernels may divide by it. */
  function BiasCorrection(beta: real, step: nat): (r: real)
    ensures InUnitInterval(beta) && step >= 1 ==> 0.0 < r <= 1.0
  {
    var r := 1.0 - Pow(beta, step);
    if InUnitInterval(beta) && step >= 1 then PowInUnitInterval(beta, step); r else r
  }

  /** The square root the source takes from `math`/`torch`, left abstract:
      never negative, and positive on positive arguments. */
  ghost predicate NonNegRoot(sqrt: real -> real)
  {
    (forall x :: 0.0 <= sqrt(x)) && (forall x :: 0.0 < x ==> 0.0 < sqrt(x))
  }

  /** Solver aid: one conjunct of `NonNegRoot`, instantiated at `x`. */
  lemma RootNonNegative(sqrt: real -> real, x: real)
    requires NonNegRoot(sqrt)
    ensures sqrt(x) >= 0.0
  {
  }

  /** Solver aid: the other conjunct of `NonNegRoot`, instantiated at `x`. */
  lemma RootPositive(sqrt: real -> real, x: real)
    requires NonNegRoot(sqrt) && x > 0.0
    ensures sqrt(x) > 0.0
  {
  }

  function Min(a: real, b: real): real
  {
    if a <= b then a else b
  }

  /** Multiplying by a positive number keeps the sign. */
  lemma PositiveFactor(x: real, d: real)
    requires d > 0.0
    ensures x * d < 0.0 <==> x < 0.0
  {
    if x < 0.0 {
      assert x * d < 0.0;
    } else {
      assert x * d >= 0.0;
    }
  }

  /** `min(a / d, 1)` for a positive `a`: a factor in (0, 1] when `d` is
      positive, one exactly when `d <= a`, and it scales any `n` in [0, d]
      to at most `a`. */
  lemma ClampedQuotient(a: real, d: real, n: real)
    requires a > 0.0 && d != 0.0
    ensures d > 0.0 ==> 0.0 < Min(a / d, 1.0) <= 1.0
    ensures d > 0.0 && 0.0 <= n <= d ==> Min(a / d, 1.0) * n <= a
    ensures 0.0 < d <= a ==> Min(a / d, 1.0) == 1.0
    ensures a < d ==> Min(a / d, 1.0) == a / d
  {
    if d > 0.0 {
      var q := a / d;
      assert q * d == a;
      assert q > 0.0;
      assert (q - 1.0) * d == a - d;
      PositiveFactor(q - 1.0, d);
      assert d <= a ==> q >= 1.0;
      assert a < d ==> q < 1.0;
      if 0.0 <= n <= d {
        assert Min(q, 1.0) * n <= q * n;
        assert q * n <= q * d;
      }
    }
  }

  /** The global clip factor: `clamp(max_grad_norm / (norm + eps), max=1)`
      when `max_grad_norm > 0`, and 1 otherwise.  A positive value over a zero
      denominator is +inf in IEEE arithmetic, which the clamp turns into 1. */
  function ClipFactor(maxGradNorm: real, globalNorm: real, eps: real): (r: real)
    ensures maxGradNorm <= 0.0 ==> r == 1.0
    ensures maxGradNorm >= 0.0 && globalNorm >= 0.0 && eps >= 0.0 ==> 0.0 <= r <= 1.0
    ensures maxGradNorm > 0.0 && globalNorm >= 0.0 && eps >= 0.0 ==> r * globalNorm <= maxGradNorm
    ensures 0.0 < maxGradNorm < globalNorm + eps ==> r == maxGradNorm / (globalNorm + eps)
    ensures 0.0 < maxGradNorm && 0.0 <= globalNorm + eps <= maxGradNorm ==> r == 1.0
  {
    if maxGradNorm > 0.0 then
      var denom := globalNorm + eps;
      if denom == 0.0 then 1.0 else
        ClampedQuotient(maxGradNorm, denom, globalNorm);
        Min(maxGradNorm / denom, 1.0)
    else
      1.0
  }
}
