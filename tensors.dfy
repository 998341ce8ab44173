/** One-dimensional tensors over exact reals and the element-wise operations
    the Adan kernels apply to them.  Each operation is named after the tensor
    operation it stands for; the in-place variants of the source become a
    reassignment of the variable holding the tensor.

    Each operation is defined by what it computes at every index; the lemma
    named after it with an `At` suffix states that value for one index, so
    that a proof can ask for exactly the elements it needs. */
module Tensors {

  type Tensor = seq<real>

  /** `torch.zeros_like` */
  function Zeros(n: nat): (r: Tensor)
    ensures |r| == n
  {
    seq(n, i => 0.0)
  }

  lemma ZerosAt(n: nat, i: nat)
    requires i < n
    ensures Zeros(n)[i] == 0.0
  {
  }

  /** `a.mul_(c)` */
  function Scale(a: Tensor, c: real): (r: Tensor)
    ensures |r| == |a|
  {
    seq(|a|, i requires 0 <= i < |a| => a[i] * c)
  }

  lemma ScaleAt(a: Tensor, c: real, i: nat)
    requires i < |a|
    ensures Scale(a, c)[i] == a[i] * c
  {
  }

  /** `a.add_(b, alpha=alpha)` */
  function AddScaled(a: Tensor, b: Tensor, alpha: real): (r: Tensor)
    requires |a| == |b|
    ensures |r| == |a|
  {
    seq(|a|, i requires 0 <= i < |a| => a[i] + alpha * b[i])
  }

  lemma AddScaledAt(a: Tensor, b: Tensor, alpha: real, i: nat)
    requires |a| == |b| && i < |a|
    ensures AddScaled(a, b, alpha)[i] == a[i] + alpha * b[i]
  {
  }

  /** `a.add_(c)` and `a - c` for a scalar `c` */
  function Shift(a: Tensor, c: real): (r: Tensor)
    ensures |r| == |a|
  {
    seq(|a|, i requires 0 <= i < |a| => a[i] + c)
  }

  lemma ShiftAt(a: Tensor, c: real, i: nat)
    requires i < |a|
    ensures Shift(a, c)[i] == a[i] + c
  {
  }

  /** `a.div_(c)` */
  function DivScalar(a: Tensor, c: real): (r: Tensor)
    requires c != 0.0
    ensures |r| == |a|
  {
    seq(|a|, i requires 0 <= i < |a| => a[i] / c)
  }

  lemma DivScalarAt(a: Tensor, c: real, i: nat)
    requires c != 0.0 && i < |a|
    ensures DivScalar(a, c)[i] == a[i] / c
  {
  }

  /** `a.addcmul_(b, c, value=v)` */
  function AddCMul(a: Tensor, b: Tensor, c: Tensor, v: real): (r: Tensor)
    requires |a| == |b| == |c|
    ensures |r| == |a|
  {
    seq(|a|, i requires 0 <= i < |a| => a[i] + v * (b[i] * c[i]))
  }

  lemma AddCMulAt(a: Tensor, b: Tensor, c: Tensor, v: real, i: nat)
    requires |a| == |b| == |c| && i < |a|
    ensures AddCMul(a, b, c, v)[i] == a[i] + v * (b[i] * c[i])
  {
  }

  /** Every element is positive: a divisor the kernels may use. */
  predicate Positive(a: Tensor)
  {
    forall i :: 0 <= i < |a| ==> a[i] > 0.0
  }

  /** `a.addcdiv_(b, c, value=v)` */
  function AddCDiv(a: Tensor, b: Tensor, c: Tensor, v: real): (r: Tensor)
    requires |a| == |b| == |c| && Positive(c)
    ensures |r| == |a|
  {
    seq(|a|, i requires 0 <= i < |a| => a[i] + v * (b[i] / c[i]))
  }

  lemma AddCDivAt(a: Tensor, b: Tensor, c: Tensor, v: real, i: nat)
    requires |a| == |b| == |c| && Positive(c) && i < |a|
    ensures AddCDiv(a, b, c, v)[i] == a[i] + v * (b[i] / c[i])
  {
  }

  /** `a.sqrt()`, for a square root given as a parameter */
  function Sqrt(a: Tensor, sqrt: real -> real): (r: Tensor)
    ensures |r| == |a|
  {
    seq(|a|, i requires 0 <= i < |a| => sqrt(a[i]))
  }

  lemma SqrtAt(a: Tensor, sqrt: real -> real, i: nat)
    requires i < |a|
    ensures Sqrt(a, sqrt)[i] == sqrt(a[i])
  {
  }

  /** Two tensors are equal when they are equal at every index. */
  lemma SameElements(a: Tensor, b: Tensor)
    requires |a| == |b| && forall i :: 0 <= i < |a| ==> a[i] == b[i]
    ensures a == b
  {
  }

  /** Multiplying by one changes nothing. */
  lemma ScaleByOne(a: Tensor)
    ensures Scale(a, 1.0) == a
  {
    forall i | 0 <= i < |a| ensures Scale(a, 1.0)[i] == a[i] {
      ScaleAt(a, 1.0, i);
    }
    SameElements(Scale(a, 1.0), a);
  }

  /** Dividing by one changes nothing. */
  lemma DivScalarByOne(a: Tensor)
    ensures DivScalar(a, 1.0) == a
  {
    forall i | 0 <= i < |a| ensures DivScalar(a, 1.0)[i] == a[i] {
      DivScalarAt(a, 1.0, i);
    }
    SameElements(DivScalar(a, 1.0), a);
  }

  /** `a.sum()` */
  function Sum(a: Tensor): real
  {
    if |a| == 0 then 0.0 else a[0] + Sum(a[1..])
  }

  /** `a.pow(2).sum()` */
  function SumOfSquares(a: Tensor): (r: real)
    ensures r >= 0.0
  {
    if |a| == 0 then 0.0 else a[0] * a[0] + SumOfSquares(a[1..])
  }

  /** `torch.mean(a)`.  The mean of an empty tensor is NaN in the source; it is
      only ever subtracted from the elements of that same (empty) tensor, so
      the value chosen here is never observed. */
  function Mean(a: Tensor): real
  {
    if |a| == 0 then 0.0 else Sum(a) / (|a| as real)
  }

  /** `a - torch.mean(a)`: moment centralisation */
  function Centred(a: Tensor): (r: Tensor)
    ensures |r| == |a|
  {
    Shift(a, -Mean(a))
  }

  lemma CentredAt(a: Tensor, i: nat)
    requires i < |a|
    ensures Centred(a)[i] == a[i] - Mean(a)
  {
    ShiftAt(a, -Mean(a), i);
  }

  predicate NonNegative(a: Tensor)
  {
    forall i :: 0 <= i < |a| ==> a[i] >= 0.0
  }

  /** Shifting every element by `c` shifts the sum by `|a| * c`. */
  lemma {:induction false} SumShift(a: Tensor, c: real)
    ensures Sum(Shift(a, c)) == Sum(a) + (|a| as real) * c
  {
    if |a| > 0 {
      assert Shift(a, c)[1..] == Shift(a[1..], c);
      SumShift(a[1..], c);
    }
  }

  /** The elements of a centred tensor sum to zero. */
  lemma CentredSumsToZero(a: Tensor)
    ensures Sum(Centred(a)) == 0.0
  {
    SumShift(a, -Mean(a));
  }

  /** Shifting by zero changes nothing. */
  lemma {:induction false} ShiftByZero(a: Tensor)
    ensures Shift(a, 0.0) == a
  {
    if |a| > 0 {
      ShiftByZero(a[1..]);
      assert a == [a[0]] + a[1..];
    }
  }

  /** Centring an already centred tensor changes nothing. */
  lemma CentredIdempotent(a: Tensor)
    ensures Centred(Centred(a)) == Centred(a)
  {
    CentredSumsToZero(a);
    assert Mean(Centred(a)) == 0.0;
    ShiftByZero(Centred(a));
  }

  // ---------------------------------------------------------------------
  // The `torch._foreach_*` operations: one element-wise operation applied to
  // every tensor of a list.

  predicate SameShapes(a: seq<Tensor>, b: seq<Tensor>)
  {
    |a| == |b| && forall j :: 0 <= j < |a| ==> |a[j]| == |b[j]|
  }

  /** `torch._foreach_mul_(l, c)` */
  function ForeachScale(l: seq<Tensor>, c: real): (r: seq<Tensor>)
    ensures |r| == |l| && forall j :: 0 <= j < |l| ==> r[j] == Scale(l[j], c)
  {
    seq(|l|, j requires 0 <= j < |l| => Scale(l[j], c))
  }

  /** `torch._foreach_add_(l, b, alpha=alpha)` */
  function ForeachAddScaled(l: seq<Tensor>, b: seq<Tensor>, alpha: real): (r: seq<Tensor>)
    requires SameShapes(l, b)
    ensures |r| == |l| && forall j :: 0 <= j < |l| ==> r[j] == AddScaled(l[j], b[j], alpha)
  {
    seq(|l|, j requires 0 <= j < |l| => AddScaled(l[j], b[j], alpha))
  }

  /** `torch._foreach_add_(l, c)` for one scalar `c` */
  function ForeachShift(l: seq<Tensor>, c: real): (r: seq<Tensor>)
    ensures |r| == |l| && forall j :: 0 <= j < |l| ==> r[j] == Shift(l[j], c)
  {
    seq(|l|, j requires 0 <= j < |l| => Shift(l[j], c))
  }

  /** `torch._foreach_add_(l, cs, alpha=-1)`: subtracts one scalar per tensor */
  function ForeachSubtractEach(l: seq<Tensor>, cs: seq<real>): (r: seq<Tensor>)
    requires |cs| == |l|
    ensures |r| == |l| && forall j :: 0 <= j < |l| ==> r[j] == Shift(l[j], -cs[j])
  {
    seq(|l|, j requires 0 <= j < |l| => Shift(l[j], -cs[j]))
  }

  /** `torch._foreach_div_(l, c)` */
  function ForeachDivScalar(l: seq<Tensor>, c: real): (r: seq<Tensor>)
    requires c != 0.0
    ensures |r| == |l| && forall j :: 0 <= j < |l| ==> r[j] == DivScalar(l[j], c)
  {
    seq(|l|, j requires 0 <= j < |l| => DivScalar(l[j], c))
  }

  /** `torch._foreach_addcmul_(l, b, c, value=v)` */
  function ForeachAddCMul(l: seq<Tensor>, b: seq<Tensor>, c: seq<Tensor>, v: real): (r: seq<Tensor>)
    requires SameShapes(l, b) && SameShapes(l, c)
    ensures |r| == |l| && forall j :: 0 <= j < |l| ==> r[j] == AddCMul(l[j], b[j], c[j], v)
  {
    seq(|l|, j requires 0 <= j < |l| => AddCMul(l[j], b[j], c[j], v))
  }

  /** `torch._foreach_addcdiv_(l, b, c, value=v)` */
  function ForeachAddCDiv(l: seq<Tensor>, b: seq<Tensor>, c: seq<Tensor>, v: real): (r: seq<Tensor>)
    requires SameShapes(l, b) && SameShapes(l, c)
    requires forall j :: 0 <= j < |c| ==> Positive(c[j])
    ensures |r| == |l| && forall j :: 0 <= j < |l| ==> r[j] == AddCDiv(l[j], b[j], c[j], v)
  {
    seq(|l|, j requires 0 <= j < |l| => AddCDiv(l[j], b[j], c[j], v))
  }

  /** `torch._foreach_sqrt(l)` */
  function ForeachSqrt(l: seq<Tensor>, sqrt: real -> real): (r: seq<Tensor>)
    ensures |r| == |l| && forall j :: 0 <= j < |l| ==> r[j] == Sqrt(l[j], sqrt)
  {
    seq(|l|, j requires 0 <= j < |l| => Sqrt(l[j], sqrt))
  }

  /** `torch._foreach_zero_(l)` */
  function ForeachZero(l: seq<Tensor>): (r: seq<Tensor>)
    ensures |r| == |l| && forall j :: 0 <= j < |l| ==> r[j] == Zeros(|l[j]|)
  {
    seq(|l|, j requires 0 <= j < |l| => Zeros(|l[j]|))
  }
}
