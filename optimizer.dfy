/** The Adan optimizer object: its parameter groups, the parameters they
    refer to and the state it keeps per parameter, with construction,
    `restart_opt` and `step`.

    Parameters are named by identifiers; the tensors the kernels update in
    place through the lists a step builds are written back into `params`
    and `state` once the kernel has run. */
module Optimizer {
  import opened Wrappers
  import opened Tensors
  import opened Hyperparams
  import opened Kernels

  type ParamId = nat

  /** A parameter: its values, its gradient (absent until a backward pass
      gives it one) and whether it takes gradients. */
  datatype Param = Param(data: Tensor, grad: Option<Tensor>, requiresGrad: bool)

  /** The state of a parameter once a step or a restart has created it: the
      three moments, and the negated previous clipped gradient, which only a
      step creates. */
  datatype ParamState = ParamState(expAvg: Tensor, expAvgSq: Tensor, expAvgDiff: Tensor, negPreGrad: Option<Tensor>)

  /** A parameter group: the parameters it holds, its options, and its step
      counter, absent until the first step or restart. */
  datatype Group = Group(ids: seq<ParamId>, hyper: Hyper, step: Option<nat>)

  /** A group as the constructor receives it: its parameters, and the
      options it gives, key by key. */
  datatype GroupSpec = GroupSpec(ids: seq<ParamId>, options: Options)

  /** `step` reads the first parameter of the first group when clipping is
      on, and fails when there is none. */
  datatype StepError = IndexError

  /** A missing entry of `state` is the empty dictionary. */
  function Lookup(state: map<ParamId, ParamState>, id: ParamId): Option<ParamState>
  {
    if id in state then Some(state[id]) else None
  }

  /** The gradient and every state tensor have the parameter's shape. */
  predicate StateShaped(p: Param, st: Option<ParamState>)
  {
    (p.grad.Some? ==> |p.grad.value| == |p.data|) &&
    (st.Some? ==>
      |st.value.expAvg| == |p.data| && |st.value.expAvgSq| == |p.data| && |st.value.expAvgDiff| == |p.data| &&
      (st.value.negPreGrad.Some? ==> |st.value.negPreGrad.value| == |p.data|))
  }

  /** No parameter appears twice, in one group or in two. */
  predicate DistinctIds(groups: seq<Group>)
  {
    (forall g, a, b :: 0 <= g < |groups| && 0 <= a < b < |groups[g].ids| ==> groups[g].ids[a] != groups[g].ids[b]) &&
    (forall g1, g2, id :: 0 <= g1 < g2 < |groups| && id in groups[g1].ids ==> id !in groups[g2].ids)
  }

  /** The groups are not empty, hold no parameter twice, and refer only to
      known parameters. */
  predicate WellFormed(groups: seq<Group>, params: map<ParamId, Param>)
  {
    |groups| > 0 && DistinctIds(groups) &&
    (forall g, id :: 0 <= g < |groups| && id in groups[g].ids ==> id in params)
  }

  /** Every parameter's gradient and state have its shape. */
  predicate StatesShaped(params: map<ParamId, Param>, state: map<ParamId, ParamState>)
  {
    forall id :: id in params ==> StateShaped(params[id], Lookup(state, id))
  }

  /** A second moment, where there is one, has no negative element. */
  predicate SecondMomentNonNegative(st: Option<ParamState>)
  {
    st.Some? ==> NonNegative(st.value.expAvgSq)
  }

  /** Every second moment in `state` is non-negative, so every square root a
      step takes of it is of a non-negative number. */
  predicate SecondMomentsNonNegative(state: map<ParamId, ParamState>)
  {
    forall id :: id in state ==> NonNegative(state[id].expAvgSq)
  }

  /** The groups the constructor builds: each keeps its parameters, has no
      step yet, and fills every option it leaves out from the defaults. */
  function GroupsOf(defaults: Hyper, specs: seq<GroupSpec>): (groups: seq<Group>)
    ensures |groups| == |specs|
    ensures forall g :: 0 <= g < |specs| ==>
      groups[g].ids == specs[g].ids && groups[g].step.None? &&
      groups[g].hyper == WithDefaults(specs[g].options, defaults)
  {
    seq(|specs|, g requires 0 <= g < |specs| => Group(specs[g].ids, WithDefaults(specs[g].options, defaults), None))
  }

  /** Groups that give no option all run with the constructor's arguments. */
  lemma GroupsWithoutOptionsTakeDefaults(defaults: Hyper, specs: seq<GroupSpec>, g: nat)
    requires g < |specs| && specs[g].options == NoOptions()
    ensures GroupsOf(defaults, specs)[g].hyper == defaults
  {
    NoOptionsGivesDefaults(defaults);
  }

  // ---------------------------------------------------------------------
  // What a step and a restart do to one parameter.

  /** The step counter after a step bumps it; a missing counter counts as
      zero. */
  function NextStep(step: Option<nat>): (t: nat)
    ensures t >= 1
    ensures step.Some? ==> t == step.value + 1
    ensures step.None? ==> t == 1
  {
    if step.Some? then step.value + 1 else 1
  }

  /** The group options under which every division a kernel makes is
      defined.  Construction does not enforce them: options a group brings
      along are never checked, and the defaults may have `eps == 0`. */
  predicate KernelSafe(h: Hyper)
  {
    InUnitInterval(h.beta1) && InUnitInterval(h.beta2) && InUnitInterval(h.beta3) && h.eps > 0.0 &&
    (!h.noProx ==> 1.0 + h.lr * h.weightDecay != 0.0)
  }

  predicate AllKernelSafe(groups: seq<Group>)
  {
    forall g :: 0 <= g < |groups| ==> KernelSafe(groups[g].hyper)
  }

  /** Solver aid: the divisor of the proximal weight decay is not zero, a
      conjunct of `KernelSafe` stated on its own so that the product it
      mentions is in scope where `GroupArgs` needs it. */
  lemma ProxDivisorNonZero(h: Hyper)
    requires KernelSafe(h)
    ensures !h.noProx ==> 1.0 + h.lr * h.weightDecay != 0.0
  {
  }

  /** The scalars a group hands to its kernel on step `t`: the bias
      corrections of that step, and the group's options. */
  function GroupArgs(h: Hyper, t: nat, clip: real, sqrt: real -> real): (k: KernelArgs)
    requires KernelSafe(h) && t >= 1 && NonNegRoot(sqrt)
    ensures Defined(k)
    ensures 0.0 < k.bc1 <= 1.0 && 0.0 < k.bc2 <= 1.0 && k.bc3Sqrt > 0.0
    ensures InUnitInterval(k.beta3)
  {
    var bc3 := BiasCorrection(h.beta3, t);
    RootPositive(sqrt, bc3);
    var k := KernelArgs(
      h.beta1, h.beta2, h.beta3, BiasCorrection(h.beta1, t), BiasCorrection(h.beta2, t), sqrt(bc3),
      h.lr, h.weightDecay, h.eps, h.noProx, h.mc, clip);
    ProxDivisorNonZero(h);
    assert Decay(k) == h.lr * h.weightDecay;
    k
  }

  /** The state a parameter with a gradient enters the kernel with on step
      `t`: zero moments when it has no state yet, and `neg_pre_grad` set to
      minus the clipped gradient when it has none or on step one. */
  function Prepare(p: Param, st: Option<ParamState>, t: nat, clip: real): (r: ParamState)
    requires p.grad.Some?
    ensures r.negPreGrad.Some?
    ensures StateShaped(p, st) ==> StateShaped(p, Some(r))
    ensures SecondMomentNonNegative(st) ==> NonNegative(r.expAvgSq)
  {
    var base := if st.Some? then st.value else ParamState(Zeros(|p.data|), Zeros(|p.data|), Zeros(|p.data|), None);
    if base.negPreGrad.None? || t == 1 then base.(negPreGrad := Some(Scale(p.grad.value, -clip))) else base
  }

  /** A parameter with its gradient and prepared state, as the kernels see
      it. */
  function SlotOf(p: Param, st: ParamState): (s: Slot)
    requires p.grad.Some? && st.negPreGrad.Some?
    ensures StateShaped(p, Some(st)) ==> Shaped(s) && |s.param| == |p.data|
  {
    Slot(p.data, p.grad.value, st.expAvg, st.expAvgSq, st.expAvgDiff, st.negPreGrad.value)
  }

  /** The parameter, its gradient and its state as a step of a group with
      options `h` on step `t` leaves them. */
  function SteppedSlot(h: Hyper, t: nat, clip: real, sqrt: real -> real, p: Param, st: Option<ParamState>): (s: Slot)
    requires KernelSafe(h) && t >= 1 && NonNegRoot(sqrt) && p.grad.Some? && StateShaped(p, st)
    ensures Shaped(s) && |s.param| == |p.data|
  {
    StoredUpdate(GroupArgs(h, t, clip, sqrt), sqrt, SlotOf(p, Prepare(p, st, t, clip)), h.foreach)
  }

  /** The update a step applies to one parameter of a group: `SteppedSlot`
      on the group's next step, wherever that is defined. */
  ghost function Stepped(group: Group, clip: real, sqrt: real -> real, p: Param, st: Option<ParamState>): (s: Slot)
    ensures p.grad.Some? && StateShaped(p, st) ==> Shaped(s) && |s.param| == |p.data|
  {
    if KernelSafe(group.hyper) && NonNegRoot(sqrt) && p.grad.Some? && StateShaped(p, st) then
      SteppedSlot(group.hyper, NextStep(group.step), clip, sqrt, p, st)
    else
      Slot(p.data, p.data, p.data, p.data, p.data, p.data)
  }

  /** A step keeps the second moment of a parameter non-negative. */
  lemma SteppedKeepsSecondMomentNonNegative(group: Group, clip: real, sqrt: real -> real, p: Param, st: Option<ParamState>)
    requires KernelSafe(group.hyper) && NonNegRoot(sqrt) && p.grad.Some? && StateShaped(p, st)
    requires SecondMomentNonNegative(st)
    ensures NonNegative(Stepped(group, clip, sqrt, p, st).expAvgSq)
  {
    var t := NextStep(group.step);
    var k := GroupArgs(group.hyper, t, clip, sqrt);
    var s := SlotOf(p, Prepare(p, st, t, clip));
    SecondMomentStaysNonNegative(k, sqrt, s);
    assert StoredUpdate(k, sqrt, s, group.hyper.foreach).expAvgSq == AdanUpdate(k, sqrt, s).expAvgSq;
  }

  /** The parameter as a step leaves it: new values, and its gradient, which
      the kernels scale in place. */
  function ParamAfter(p: Param, s: Slot): Param
  {
    p.(data := s.param, grad := Some(s.grad))
  }

  function StateAfter(s: Slot): ParamState
  {
    ParamState(s.expAvg, s.expAvgSq, s.expAvgDiff, Some(s.negPreGrad))
  }

  /** The state a restart leaves: three zero moments, and whatever
      `neg_pre_grad` there was. */
  function Restarted(p: Param, st: Option<ParamState>): (r: ParamState)
    ensures StateShaped(p, st) ==> StateShaped(p, Some(r))
    ensures NonNegative(r.expAvgSq)
    ensures |r.expAvg| == |r.expAvgSq| == |r.expAvgDiff| == |p.data|
    ensures forall i :: 0 <= i < |p.data| ==> r.expAvg[i] == 0.0 && r.expAvgSq[i] == 0.0 && r.expAvgDiff[i] == 0.0
    ensures r.negPreGrad == if st.Some? then st.value.negPreGrad else None
  {
    ParamState(Zeros(|p.data|), Zeros(|p.data|), Zeros(|p.data|), if st.Some? then st.value.negPreGrad else None)
  }

  /** A parameter that a step updates: it is in the group and has a gradient. */
  predicate Touched(group: Group, params: map<ParamId, Param>, id: ParamId)
  {
    id in group.ids && id in params && params[id].grad.Some?
  }

  // ---------------------------------------------------------------------
  // A step on values: each group in turn, in order, for any update of one
  // parameter that keeps shapes.

  /** What a group's part of a step does to one parameter it updates. */
  type Update = (Group, Param, Option<ParamState>) -> Slot

  ghost predicate KeepsShapes(upd: Update)
  {
    forall group: Group, p: Param, st: Option<ParamState> :: p.grad.Some? && StateShaped(p, st) ==>
      Shaped(upd(group, p, st)) && |upd(group, p, st).param| == |p.data|
  }

  /** `Stepped` for a given clip factor and square root. */
  ghost function Updater(clip: real, sqrt: real -> real): (upd: Update)
    ensures KeepsShapes(upd)
    ensures forall group: Group, p: Param, st: Option<ParamState> :: upd(group, p, st) == Stepped(group, clip, sqrt, p, st)
  {
    (group: Group, p: Param, st: Option<ParamState>) => Stepped(group, clip, sqrt, p, st)
  }

  /** The parameters after one group's part of a step. */
  ghost function GroupStepParams(group: Group, upd: Update, ps: map<ParamId, Param>, st: map<ParamId, ParamState>)
    : (r: map<ParamId, Param>)
    ensures r.Keys == ps.Keys
  {
    map id | id in ps ::
      if Touched(group, ps, id) then ParamAfter(ps[id], upd(group, ps[id], Lookup(st, id))) else ps[id]
  }

  /** The state after one group's part of a step. */
  ghost function GroupStepState(group: Group, upd: Update, ps: map<ParamId, Param>, st: map<ParamId, ParamState>)
    : map<ParamId, ParamState>
  {
    var stepped := set id | id in group.ids && Touched(group, ps, id);
    map id | id in st.Keys + stepped ::
      if Touched(group, ps, id) then StateAfter(upd(group, ps[id], Lookup(st, id))) else st[id]
  }

  /** The parameters and the state after the first `n` groups' parts of a
      step. */
  ghost function StepGroups(groups: seq<Group>, upd: Update, ps: map<ParamId, Param>, st: map<ParamId, ParamState>, n: nat)
    : (r: (map<ParamId, Param>, map<ParamId, ParamState>))
    requires n <= |groups|
    ensures r.0.Keys == ps.Keys
  {
    if n == 0 then (ps, st)
    else
      var prev := StepGroups(groups, upd, ps, st, n - 1);
      (GroupStepParams(groups[n - 1], upd, prev.0, prev.1), GroupStepState(groups[n - 1], upd, prev.0, prev.1))
  }

  /** One group's part of a step, parameter by parameter. */
  lemma GroupStepAt(group: Group, upd: Update, ps: map<ParamId, Param>, st: map<ParamId, ParamState>, id: ParamId)
    ensures Touched(group, ps, id) ==>
      GroupStepParams(group, upd, ps, st)[id] == ParamAfter(ps[id], upd(group, ps[id], Lookup(st, id))) &&
      Lookup(GroupStepState(group, upd, ps, st), id) == Some(StateAfter(upd(group, ps[id], Lookup(st, id))))
    ensures !Touched(group, ps, id) ==>
      (id in ps ==> GroupStepParams(group, upd, ps, st)[id] == ps[id]) &&
      Lookup(GroupStepState(group, upd, ps, st), id) == Lookup(st, id)
  {
  }

  /** One group's part of a step keeps every state shaped like its
      parameter. */
  lemma GroupStepKeepsShapes(group: Group, upd: Update, ps: map<ParamId, Param>, st: map<ParamId, ParamState>)
    requires StatesShaped(ps, st) && KeepsShapes(upd)
    ensures StatesShaped(GroupStepParams(group, upd, ps, st), GroupStepState(group, upd, ps, st))
  {
    forall id | id in ps
      ensures StateShaped(GroupStepParams(group, upd, ps, st)[id], Lookup(GroupStepState(group, upd, ps, st), id))
    {
      GroupStepAt(group, upd, ps, st, id);
      assert StateShaped(ps[id], Lookup(st, id));
    }
  }

  lemma {:induction false} StepGroupsKeepShapes(groups: seq<Group>, upd: Update,
                                                ps: map<ParamId, Param>, st: map<ParamId, ParamState>, n: nat)
    requires StatesShaped(ps, st) && KeepsShapes(upd) && n <= |groups|
    ensures StatesShaped(StepGroups(groups, upd, ps, st, n).0, StepGroups(groups, upd, ps, st, n).1)
  {
    if n > 0 {
      StepGroupsKeepShapes(groups, upd, ps, st, n - 1);
      var prev := StepGroups(groups, upd, ps, st, n - 1);
      GroupStepKeepsShapes(groups[n - 1], upd, prev.0, prev.1);
    }
  }

  /** The groups' parts of a step, for one parameter: it is updated by the
      group that holds it, from the values it had before the step, when it
      has a gradient, and left alone otherwise. */
  lemma {:induction false} StepGroupsAt(groups: seq<Group>, upd: Update,
                                        ps: map<ParamId, Param>, st: map<ParamId, ParamState>, n: nat, id: ParamId)
    requires DistinctIds(groups) && n <= |groups|
    ensures forall g :: 0 <= g < n && Touched(groups[g], ps, id) ==>
      StepGroups(groups, upd, ps, st, n).0[id] == ParamAfter(ps[id], upd(groups[g], ps[id], Lookup(st, id))) &&
      Lookup(StepGroups(groups, upd, ps, st, n).1, id) == Some(StateAfter(upd(groups[g], ps[id], Lookup(st, id))))
    ensures (forall g :: 0 <= g < n ==> !Touched(groups[g], ps, id)) ==>
      (id in ps ==> StepGroups(groups, upd, ps, st, n).0[id] == ps[id]) &&
      Lookup(StepGroups(groups, upd, ps, st, n).1, id) == Lookup(st, id)
  {
    if n > 0 {
      StepGroupsAt(groups, upd, ps, st, n - 1, id);
      var prev := StepGroups(groups, upd, ps, st, n - 1);
      var group := groups[n - 1];
      GroupStepAt(group, upd, prev.0, prev.1, id);
      if Touched(group, ps, id) {
        // no earlier group holds the parameter
        assert forall e :: 0 <= e < n - 1 ==> !Touched(groups[e], ps, id);
      } else if exists e :: 0 <= e < n - 1 && Touched(groups[e], ps, id) {
        var e :| 0 <= e < n - 1 && Touched(groups[e], ps, id);
        assert id !in group.ids;
      }
    }
  }

  /** What the groups' parts of a step do to each parameter: a parameter of
      a group that has a gradient is updated once, by its own group, from
      the values it had before the step; every other parameter and its state
      are left as they were; shapes are kept. */
  lemma StepGroupsEffect(groups: seq<Group>, upd: Update,
                         ps: map<ParamId, Param>, st: map<ParamId, ParamState>, n: nat)
    requires DistinctIds(groups) && StatesShaped(ps, st) && KeepsShapes(upd) && n <= |groups|
    ensures StepGroups(groups, upd, ps, st, n).0.Keys == ps.Keys
    ensures StatesShaped(StepGroups(groups, upd, ps, st, n).0, StepGroups(groups, upd, ps, st, n).1)
    ensures forall g, id :: 0 <= g < n && Touched(groups[g], ps, id) ==>
      StepGroups(groups, upd, ps, st, n).0[id] == ParamAfter(ps[id], upd(groups[g], ps[id], Lookup(st, id))) &&
      Lookup(StepGroups(groups, upd, ps, st, n).1, id) == Some(StateAfter(upd(groups[g], ps[id], Lookup(st, id))))
    ensures forall id :: (forall g :: 0 <= g < n ==> !Touched(groups[g], ps, id)) ==>
      (id in ps ==> StepGroups(groups, upd, ps, st, n).0[id] == ps[id]) &&
      Lookup(StepGroups(groups, upd, ps, st, n).1, id) == Lookup(st, id)
  {
    StepGroupsKeepShapes(groups, upd, ps, st, n);
    forall id {
      StepGroupsAt(groups, upd, ps, st, n, id);
    }
  }

  /** Per-parameter facts about one group's part of a step determine the
      maps it leaves. */
  lemma GroupStepIsDetermined(group: Group, upd: Update,
                              ps0: map<ParamId, Param>, st0: map<ParamId, ParamState>,
                              ps1: map<ParamId, Param>, st1: map<ParamId, ParamState>)
    requires ps1.Keys == ps0.Keys
    requires forall id :: Touched(group, ps0, id) ==>
      ps1[id] == ParamAfter(ps0[id], upd(group, ps0[id], Lookup(st0, id))) &&
      Lookup(st1, id) == Some(StateAfter(upd(group, ps0[id], Lookup(st0, id))))
    requires forall id :: !Touched(group, ps0, id) ==>
      (id in ps1 ==> ps1[id] == ps0[id]) && Lookup(st1, id) == Lookup(st0, id)
    ensures ps1 == GroupStepParams(group, upd, ps0, st0)
    ensures st1 == GroupStepState(group, upd, ps0, st0)
  {
    var wantS := GroupStepState(group, upd, ps0, st0);
    forall id ensures id in st1 <==> id in wantS {
      assert Lookup(st1, id) == Lookup(wantS, id);
    }
    forall id | id in st1 ensures st1[id] == wantS[id] {
      assert Lookup(st1, id) == Lookup(wantS, id);
    }
  }

  // ---------------------------------------------------------------------
  // Properties of a step.

  /** A parameter seen for the first time starts from zero moments, and its
      `neg_pre_grad` from minus its clipped gradient. */
  lemma FreshStateStartsAtZero(p: Param, t: nat, clip: real)
    requires p.grad.Some?
    ensures Prepare(p, None, t, clip) ==
      ParamState(Zeros(|p.data|), Zeros(|p.data|), Zeros(|p.data|), Some(Scale(p.grad.value, -clip)))
  {
  }

  /** A parameter that has state keeps its moments; its `neg_pre_grad` is
      kept too, except on step one. */
  lemma PrepareKeepsExistingState(p: Param, st: ParamState, t: nat, clip: real)
    requires p.grad.Some?
    ensures Prepare(p, Some(st), t, clip).expAvg == st.expAvg
    ensures Prepare(p, Some(st), t, clip).expAvgSq == st.expAvgSq
    ensures Prepare(p, Some(st), t, clip).expAvgDiff == st.expAvgDiff
    ensures st.negPreGrad.Some? && t != 1 ==> Prepare(p, Some(st), t, clip) == st
    ensures st.negPreGrad.None? || t == 1 ==> Prepare(p, Some(st), t, clip).negPreGrad == Some(Scale(p.grad.value, -clip))
  {
  }

  /** The step after a restart is step one, so `neg_pre_grad` is re-seeded
      from the current gradient: the gradient difference is zero, and the
      difference moment the restart zeroed stays zero. */
  lemma RestartThenStepKeepsDiffZero(h: Hyper, clip: real, sqrt: real -> real, p: Param, st: Option<ParamState>)
    requires KernelSafe(h) && NonNegRoot(sqrt) && p.grad.Some? && StateShaped(p, st)
    ensures NextStep(Some(0)) == 1
    ensures SteppedSlot(h, NextStep(Some(0)), clip, sqrt, p, Some(Restarted(p, st))).expAvgDiff == Zeros(|p.data|)
  {
    var k := GroupArgs(h, 1, clip, sqrt);
    var s := SlotOf(p, Prepare(p, Some(Restarted(p, st)), 1, clip));
    assert s.negPreGrad == Scale(s.grad, -k.clip);
    FirstStepDiffStaysZero(k, sqrt, s);
  }

  /** On step one the bias corrections are `1 - beta`. */
  lemma FirstStepBiasCorrections(h: Hyper, clip: real, sqrt: real -> real)
    requires KernelSafe(h) && NonNegRoot(sqrt)
    ensures GroupArgs(h, 1, clip, sqrt).bc1 == 1.0 - h.beta1
    ensures GroupArgs(h, 1, clip, sqrt).bc2 == 1.0 - h.beta2
    ensures GroupArgs(h, 1, clip, sqrt).bc3Sqrt == sqrt(1.0 - h.beta3)
  {
    assert Pow(h.beta1, 1) == h.beta1 * Pow(h.beta1, 0);
    assert Pow(h.beta2, 1) == h.beta2 * Pow(h.beta2, 0);
    assert Pow(h.beta3, 1) == h.beta3 * Pow(h.beta3, 0);
  }

  // ---------------------------------------------------------------------
  // The global gradient norm.

  /** The squared norms of the gradients of `ids` that exist, summed. */
  function IdsGradSqSum(ids: seq<ParamId>, params: map<ParamId, Param>): (r: real)
    ensures r >= 0.0
  {
    if |ids| == 0 then 0.0
    else
      var last := ids[|ids| - 1];
      IdsGradSqSum(ids[..|ids| - 1], params) +
        (if last in params && params[last].grad.Some? then SumOfSquares(params[last].grad.value) else 0.0)
  }

  /** The squared global gradient norm over every group. */
  function GroupsGradSqSum(groups: seq<Group>, params: map<ParamId, Param>): (r: real)
    ensures r >= 0.0
  {
    if |groups| == 0 then 0.0
    else GroupsGradSqSum(groups[..|groups| - 1], params) + IdsGradSqSum(groups[|groups| - 1].ids, params)
  }

  /** The clip factor a step applies to every gradient: the global clip
      factor, taken against the `eps` of the last group. */
  function StepClip(defaults: Hyper, groups: seq<Group>, params: map<ParamId, Param>, sqrt: real -> real): (r: real)
    requires |groups| > 0
    ensures defaults.maxGradNorm <= 0.0 ==> r == 1.0
    ensures NonNegRoot(sqrt) && defaults.maxGradNorm >= 0.0 && groups[|groups| - 1].hyper.eps >= 0.0 ==> 0.0 <= r <= 1.0
    ensures NonNegRoot(sqrt) && defaults.maxGradNorm > 0.0 && groups[|groups| - 1].hyper.eps >= 0.0 ==>
      r * sqrt(GroupsGradSqSum(groups, params)) <= defaults.maxGradNorm
  {
    ClipFactor(defaults.maxGradNorm, sqrt(GroupsGradSqSum(groups, params)), groups[|groups| - 1].hyper.eps)
  }

  /** The parameters of `ids` that have a gradient, in order. */
  function WithGrad(ids: seq<ParamId>, params: map<ParamId, Param>): (r: seq<ParamId>)
    ensures forall id :: id in r <==> id in ids && id in params && params[id].grad.Some?
    ensures |r| <= |ids|
  {
    if |ids| == 0 then []
    else
      var rest := WithGrad(ids[..|ids| - 1], params);
      var last := ids[|ids| - 1];
      if last in params && params[last].grad.Some? then rest + [last] else rest
  }

  predicate Distinct(ids: seq<ParamId>)
  {
    forall a, b :: 0 <= a < b < |ids| ==> ids[a] != ids[b]
  }

  /** `slots` holds, for each parameter of `ids`, the parameter with its
      gradient and its state `st0` prepared for step `t`. */
  predicate PreparedSlots(ids: seq<ParamId>, slots: seq<Slot>, params: map<ParamId, Param>,
                          st0: map<ParamId, ParamState>, t: nat, clip: real)
  {
    |slots| == |ids| &&
    forall j :: 0 <= j < |ids| ==>
      ids[j] in params && params[ids[j]].grad.Some? &&
      slots[j] == SlotOf(params[ids[j]], Prepare(params[ids[j]], Lookup(st0, ids[j]), t, clip)) &&
      Shaped(slots[j]) && |slots[j].param| == |params[ids[j]].data|
  }

  lemma PreparedSlotsExtend(ids: seq<ParamId>, slots: seq<Slot>, params: map<ParamId, Param>,
                            st0: map<ParamId, ParamState>, t: nat, clip: real, id: ParamId, slot: Slot)
    requires PreparedSlots(ids, slots, params, st0, t, clip)
    requires id in params && params[id].grad.Some?
    requires slot == SlotOf(params[id], Prepare(params[id], Lookup(st0, id), t, clip))
    requires Shaped(slot) && |slot.param| == |params[id].data|
    ensures PreparedSlots(ids + [id], slots + [slot], params, st0, t, clip)
  {
    forall j | 0 <= j < |ids| + 1
      ensures (ids + [id])[j] in params && params[(ids + [id])[j]].grad.Some?
      ensures (slots + [slot])[j] ==
        SlotOf(params[(ids + [id])[j]], Prepare(params[(ids + [id])[j]], Lookup(st0, (ids + [id])[j]), t, clip))
      ensures Shaped((slots + [slot])[j]) && |(slots + [slot])[j].param| == |params[(ids + [id])[j]].data|
    {
      if j == |ids| {
        assert (ids + [id])[j] == id && (slots + [slot])[j] == slot;
      } else {
        assert (ids + [id])[j] == ids[j] && (slots + [slot])[j] == slots[j];
      }
    }
  }

  /** `state` holds the prepared state of each of `ids`, and what `st0` held
      for every other parameter. */
  ghost predicate PreparedStates(ids: seq<ParamId>, state: map<ParamId, ParamState>, params: map<ParamId, Param>,
                           st0: map<ParamId, ParamState>, t: nat, clip: real)
  {
    (forall j :: 0 <= j < |ids| ==>
      ids[j] in params && params[ids[j]].grad.Some? &&
      Lookup(state, ids[j]) == Some(Prepare(params[ids[j]], Lookup(st0, ids[j]), t, clip))) &&
    (forall id :: id !in ids ==> Lookup(state, id) == Lookup(st0, id))
  }

  lemma PreparedStatesExtend(ids: seq<ParamId>, state: map<ParamId, ParamState>, params: map<ParamId, Param>,
                             st0: map<ParamId, ParamState>, t: nat, clip: real, id: ParamId)
    requires PreparedStates(ids, state, params, st0, t, clip)
    requires id !in ids && id in params && params[id].grad.Some?
    ensures PreparedStates(ids + [id], state[id := Prepare(params[id], Lookup(state, id), t, clip)], params, st0, t, clip)
  {
    var state' := state[id := Prepare(params[id], Lookup(state, id), t, clip)];
    forall j | 0 <= j < |ids| + 1
      ensures (ids + [id])[j] in params && params[(ids + [id])[j]].grad.Some?
      ensures Lookup(state', (ids + [id])[j]) == Some(Prepare(params[(ids + [id])[j]], Lookup(st0, (ids + [id])[j]), t, clip))
    {
      if j == |ids| {
        assert (ids + [id])[j] == id;
      } else {
        assert (ids + [id])[j] == ids[j] && ids[j] != id;
      }
    }
  }

  /** The six lists a kernel takes, one entry per slot. */
  method Unzip(slots: seq<Slot>)
    returns (ps: seq<Tensor>, gs: seq<Tensor>, ms: seq<Tensor>, ns: seq<Tensor>, ds: seq<Tensor>, npgs: seq<Tensor>)
    requires forall j :: 0 <= j < |slots| ==> Shaped(slots[j])
    ensures Parallel(ps, gs, ms, ns, ds, npgs) && |ps| == |slots|
    ensures forall j :: 0 <= j < |slots| ==> SlotAt(ps, gs, ms, ns, ds, npgs, j) == slots[j]
  {
    ps := seq(|slots|, j requires 0 <= j < |slots| => slots[j].param);
    gs := seq(|slots|, j requires 0 <= j < |slots| => slots[j].grad);
    ms := seq(|slots|, j requires 0 <= j < |slots| => slots[j].expAvg);
    ns := seq(|slots|, j requires 0 <= j < |slots| => slots[j].expAvgSq);
    ds := seq(|slots|, j requires 0 <= j < |slots| => slots[j].expAvgDiff);
    npgs := seq(|slots|, j requires 0 <= j < |slots| => slots[j].negPreGrad);
  }

  // ---------------------------------------------------------------------
  // The optimizer object.

  class Adan {
    const defaults: Hyper
    var groups: seq<Group>
    var params: map<ParamId, Param>
    var state: map<ParamId, ParamState>

    ghost predicate Valid()
      reads this
    {
      WellFormed(groups, params) && StatesShaped(params, state) && SecondMomentsNonNegative(state)
    }

    /** The base optimizer's bookkeeping: groups built from the defaults, no
        state yet. */
    constructor Init(h: Hyper, specs: seq<GroupSpec>, ps: map<ParamId, Param>)
      requires WellFormed(GroupsOf(h, specs), ps) && StatesShaped(ps, map[])
      ensures Valid() && defaults == h && groups == GroupsOf(h, specs) && params == ps && state == map[]
    {
      defaults := h;
      groups := GroupsOf(h, specs);
      params := ps;
      state := map[];
    }

    /** `adan(...)`: the arguments are checked in order and the first out of
        range is reported; options a group brings along are not checked. */
    static method Create(h: Hyper, specs: seq<GroupSpec>, ps: map<ParamId, Param>)
      returns (r: Result<Adan, HyperError>)
      requires WellFormed(GroupsOf(h, specs), ps) && StatesShaped(ps, map[])
      ensures r.Err? <==> !InRange(h)
      ensures r.Err? ==> Validate(h) == Err(r.error)
      ensures r.Ok? ==> (fresh(r.value) && r.value.Valid() && r.value.defaults == h &&
        r.value.groups == GroupsOf(h, specs) && r.value.params == ps && r.value.state == map[])
    {
      var checked := Validate(h);
      if checked.Err? {
        return Err(checked.error);
      }
      var a := new Adan.Init(h, specs, ps);
      return Ok(a);
    }

    /** `restart_opt`: every step counter goes back to zero, and every
        parameter that takes gradients gets zero moments; `neg_pre_grad` is
        kept. */
    method RestartOpt()
      requires Valid()
      modifies this
      ensures Valid() && params == old(params)
      ensures |groups| == |old(groups)|
      ensures forall g :: 0 <= g < |groups| ==> groups[g] == old(groups[g]).(step := Some(0))
      ensures forall g, id :: 0 <= g < |groups| && id in groups[g].ids && params[id].requiresGrad ==>
        Lookup(state, id) == Some(Restarted(params[id], Lookup(old(state), id)))
      ensures forall id :: !(id in params && params[id].requiresGrad) ==> Lookup(state, id) == Lookup(old(state), id)
      ensures forall id :: (forall g :: 0 <= g < |groups| ==> id !in groups[g].ids) ==>
        Lookup(state, id) == Lookup(old(state), id)
    {
      var i := 0;
      while i < |groups|
        invariant 0 <= i <= |groups| && |groups| == |old(groups)| && params == old(params)
        invariant Valid()
        invariant forall g :: 0 <= g < |groups| ==> groups[g] == if g < i then old(groups[g]).(step := Some(0)) else old(groups[g])
        invariant forall g, id :: 0 <= g < i && id in groups[g].ids && params[id].requiresGrad ==>
          Lookup(state, id) == Some(Restarted(params[id], Lookup(old(state), id)))
        invariant forall id :: !(id in params && params[id].requiresGrad) ==> Lookup(state, id) == Lookup(old(state), id)
        invariant forall id :: (forall g :: 0 <= g < i ==> id !in groups[g].ids) ==>
          Lookup(state, id) == Lookup(old(state), id)
      {
        groups := groups[i := groups[i].(step := Some(0))];
        RestartGroup(i);
        i := i + 1;
      }
    }

    /** The restart of the parameters of group `gi`. */
    method RestartGroup(gi: nat)
      requires Valid() && gi < |groups|
      modifies this`state
      ensures Valid()
      ensures forall id :: id in groups[gi].ids && params[id].requiresGrad ==>
        Lookup(state, id) == Some(Restarted(params[id], Lookup(old(state), id)))
      ensures forall id :: !(id in groups[gi].ids && id in params && params[id].requiresGrad) ==>
        Lookup(state, id) == Lookup(old(state), id)
    {
      var ids := groups[gi].ids;
      var j := 0;
      while j < |ids|
        invariant 0 <= j <= |ids|
        invariant Valid()
        invariant forall id :: id in ids[..j] && params[id].requiresGrad ==>
          Lookup(state, id) == Some(Restarted(params[id], Lookup(old(state), id)))
        invariant forall id :: !(id in ids[..j] && id in params && params[id].requiresGrad) ==>
          Lookup(state, id) == Lookup(old(state), id)
      {
        var id := ids[j];
        assert ids[..j + 1] == ids[..j] + [id];
        if params[id].requiresGrad {
          // the ids of a group are distinct, so this is the first restart of `id`
          assert id !in ids[..j];
          state := state[id := Restarted(params[id], Lookup(state, id))];
        }
        j := j + 1;
      }
      assert ids[..j] == ids;
    }

    /** The global clip factor of a step with clipping on: the square root
        of the summed squared gradients, taken against the `eps` of the last
        group. */
    method GlobalClip(sqrt: real -> real) returns (clip: real)
      requires Valid()
      ensures clip == StepClip(defaults, groups, params, sqrt)
    {
      var total := 0.0;
      var g := 0;
      while g < |groups|
        invariant 0 <= g <= |groups|
        invariant total == GroupsGradSqSum(groups[..g], params)
      {
        var ids := groups[g].ids;
        var j := 0;
        ghost var before := total;
        while j < |ids|
          invariant 0 <= j <= |ids|
          invariant total == before + IdsGradSqSum(ids[..j], params)
        {
          assert ids[..j + 1][..j] == ids[..j];
          var id := ids[j];
          if id in params && params[id].grad.Some? {
            total := total + SumOfSquares(params[id].grad.value);
          }
          j := j + 1;
        }
        assert ids[..j] == ids;
        assert groups[..g + 1][..g] == groups[..g];
        g := g + 1;
      }
      assert groups[..g] == groups;
      clip := ClipFactor(defaults.maxGradNorm, sqrt(total), groups[|groups| - 1].hyper.eps);
    }

    /** The parameters of group `gi` that have a gradient, each with its
        state prepared for step `t` and written into `state`. */
    method Collect(gi: nat, t: nat, clip: real) returns (ids: seq<ParamId>, slots: seq<Slot>)
      requires Valid() && gi < |groups|
      modifies this`state
      ensures Valid()
      ensures ids == WithGrad(groups[gi].ids, params) && Distinct(ids)
      ensures PreparedSlots(ids, slots, params, old(state), t, clip)
      ensures forall j :: 0 <= j < |ids| ==>
        Lookup(state, ids[j]) == Some(Prepare(params[ids[j]], Lookup(old(state), ids[j]), t, clip))
      ensures forall id :: id !in ids ==> Lookup(state, id) == Lookup(old(state), id)
    {
      var all := groups[gi].ids;
      ids, slots := [], [];
      var i := 0;
      while i < |all|
        invariant 0 <= i <= |all|
        invariant Valid()
        invariant ids == WithGrad(all[..i], params) && Distinct(ids)
        invariant PreparedSlots(ids, slots, params, old(state), t, clip)
        invariant PreparedStates(ids, state, params, old(state), t, clip)
      {
        var id := all[i];
        assert all[..i + 1][..i] == all[..i];
        var p := params[id];
        if p.grad.Some? {
          assert id !in ids by {
            assert forall a :: 0 <= a < i ==> all[a] != id;
          }
          ids, slots := CollectOne(ids, slots, id, t, clip, old(state));
        }
        i := i + 1;
      }
      assert all[..i] == all;
    }

    /** Adds parameter `id` to the collected ones, its state prepared and
        stored. */
    method CollectOne(ids: seq<ParamId>, slots: seq<Slot>, id: ParamId, t: nat, clip: real,
                      ghost st0: map<ParamId, ParamState>)
      returns (ids': seq<ParamId>, slots': seq<Slot>)
      requires Valid() && id in params && params[id].grad.Some? && id !in ids && Distinct(ids)
      requires PreparedSlots(ids, slots, params, st0, t, clip)
      requires PreparedStates(ids, state, params, st0, t, clip)
      modifies this`state
      ensures Valid() && ids' == ids + [id] && Distinct(ids')
      ensures PreparedSlots(ids', slots', params, st0, t, clip)
      ensures PreparedStates(ids', state, params, st0, t, clip)
    {
      PreparedStatesExtend(ids, state, params, st0, t, clip, id);
      var slot := PrepareState(id, t, clip);
      PreparedSlotsExtend(ids, slots, params, st0, t, clip, id, slot);
      ids', slots' := ids + [id], slots + [slot];
    }

    /** The state of parameter `id` prepared for step `t` and stored, and
        the parameter as the kernel receives it. */
    method PrepareState(id: ParamId, t: nat, clip: real) returns (slot: Slot)
      requires Valid() && id in params && params[id].grad.Some?
      modifies this`state
      ensures Valid() && state == old(state)[id := Prepare(params[id], Lookup(old(state), id), t, clip)]
      ensures slot == SlotOf(params[id], Prepare(params[id], Lookup(old(state), id), t, clip))
      ensures Shaped(slot) && |slot.param| == |params[id].data|
    {
      var p := params[id];
      var st := Prepare(p, Lookup(state, id), t, clip);
      assert StateShaped(p, Lookup(state, id));
      state := state[id := st];
      slot := SlotOf(p, st);
    }

    /** The kernel's in-place updates, made visible in `params` and `state`. */
    method WriteBack(ids: seq<ParamId>, slots: seq<Slot>)
      requires Valid() && |slots| == |ids| && Distinct(ids)
      requires forall j :: 0 <= j < |ids| ==>
        ids[j] in params && Shaped(slots[j]) && |slots[j].param| == |params[ids[j]].data| &&
        NonNegative(slots[j].expAvgSq)
      modifies this`params, this`state
      ensures Valid() && params.Keys == old(params).Keys
      ensures forall j :: 0 <= j < |ids| ==>
        params[ids[j]] == ParamAfter(old(params)[ids[j]], slots[j]) && Lookup(state, ids[j]) == Some(StateAfter(slots[j]))
      ensures forall id :: id !in ids ==>
        (id in params ==> params[id] == old(params)[id]) && Lookup(state, id) == Lookup(old(state), id)
    {
      var j := 0;
      while j < |ids|
        invariant 0 <= j <= |ids|
        invariant Valid() && params.Keys == old(params).Keys
        invariant forall a :: 0 <= a < j ==>
          params[ids[a]] == ParamAfter(old(params)[ids[a]], slots[a]) && Lookup(state, ids[a]) == Some(StateAfter(slots[a]))
        invariant forall id :: id !in ids[..j] ==>
          (id in params ==> params[id] == old(params)[id]) && Lookup(state, id) == Lookup(old(state), id)
      {
        var id := ids[j];
        assert ids[..j + 1] == ids[..j] + [id];
        params := params[id := ParamAfter(params[id], slots[j])];
        state := state[id := StateAfter(slots[j])];
        j := j + 1;
      }
      assert ids[..j] == ids;
    }

    /** One group's part of `step`: the counter is bumped, the parameters
        with a gradient are collected with their state, and the kernel the
        group's `foreach` option names updates them. */
    method StepGroup(gi: nat, clip: real, sqrt: real -> real)
      requires Valid() && gi < |groups| && KernelSafe(groups[gi].hyper) && NonNegRoot(sqrt)
      modifies this
      ensures Valid() && params.Keys == old(params).Keys
      ensures groups == old(groups)[gi := old(groups[gi]).(step := Some(NextStep(old(groups[gi].step))))]
      ensures forall id :: Touched(old(groups[gi]), old(params), id) ==>
        params[id] == ParamAfter(old(params)[id], Stepped(old(groups[gi]), clip, sqrt, old(params)[id], Lookup(old(state), id))) &&
        Lookup(state, id) == Some(StateAfter(Stepped(old(groups[gi]), clip, sqrt, old(params)[id], Lookup(old(state), id))))
      ensures forall id :: !Touched(old(groups[gi]), old(params), id) ==>
        (id in params ==> params[id] == old(params)[id]) && Lookup(state, id) == Lookup(old(state), id)
    {
      var group := groups[gi];
      var t := NextStep(group.step);
      groups := groups[gi := group.(step := Some(t))];
      assert groups[gi].ids == group.ids;

      var ids, slots := Collect(gi, t, clip);
      if |ids| == 0 {
        return;
      }
      var ps, gs, ms, ns, ds, npgs := Unzip(slots);
      var k := GroupArgs(group.hyper, t, clip, sqrt);
      if group.hyper.foreach {
        ps, gs, ms, ns, ds, npgs := MultiTensorAdan(ps, gs, ms, ns, ds, npgs, k, sqrt);
      } else {
        ps, gs, ms, ns, ds, npgs := SingleTensorAdan(ps, gs, ms, ns, ds, npgs, k, sqrt);
      }
      var outs := seq(|ids|, j requires 0 <= j < |ids| => SlotAt(ps, gs, ms, ns, ds, npgs, j));
      forall j | 0 <= j < |ids|
        ensures outs[j] == Stepped(group, clip, sqrt, old(params)[ids[j]], Lookup(old(state), ids[j]))
        ensures NonNegative(outs[j].expAvgSq)
      {
        assert StateShaped(old(params)[ids[j]], Lookup(old(state), ids[j]));
        SteppedKeepsSecondMomentNonNegative(group, clip, sqrt, old(params)[ids[j]], Lookup(old(state), ids[j]));
      }
      WriteBack(ids, outs);

      forall id | Touched(group, old(params), id)
        ensures params[id] == ParamAfter(old(params)[id], Stepped(group, clip, sqrt, old(params)[id], Lookup(old(state), id)))
        ensures Lookup(state, id) == Some(StateAfter(Stepped(group, clip, sqrt, old(params)[id], Lookup(old(state), id))))
      {
        assert id in ids;
        var j :| 0 <= j < |ids| && ids[j] == id;
      }
    }

    /** The groups' parts of a step, one group after the other, with the
        clip factor `clip`. */
    method StepEachGroup(clip: real, sqrt: real -> real)
      requires Valid() && NonNegRoot(sqrt) && AllKernelSafe(groups)
      modifies this
      ensures Valid() && params.Keys == old(params).Keys && |groups| == |old(groups)|
      ensures forall g :: 0 <= g < |groups| ==>
        groups[g] == old(groups)[g].(step := Some(NextStep(old(groups)[g].step)))
      ensures (params, state) == StepGroups(old(groups), Updater(clip, sqrt), old(params), old(state), |old(groups)|)
    {
      ghost var upd := Updater(clip, sqrt);
      var i := 0;
      while i < |groups|
        invariant 0 <= i <= |groups| && |groups| == |old(groups)|
        invariant Valid() && params.Keys == old(params).Keys
        invariant forall g :: 0 <= g < |groups| ==>
          groups[g] == if g < i then old(groups)[g].(step := Some(NextStep(old(groups)[g].step))) else old(groups)[g]
        invariant (params, state) == StepGroups(old(groups), upd, old(params), old(state), i)
      {
        ghost var group, params1, state1 := groups[i], params, state;
        StepGroup(i, clip, sqrt);
        GroupStepIsDetermined(group, upd, params1, state1, params, state);
        i := i + 1;
      }
    }

    /** `step`: the global clip factor (when `max_grad_norm` is positive),
        then each group in turn.  The closure's evaluation is not modelled:
        its loss is passed in and handed back. */
    method Step(loss: Option<real>, sqrt: real -> real) returns (r: Result<Option<real>, StepError>)
      requires Valid() && NonNegRoot(sqrt) && AllKernelSafe(groups)
      modifies this
      ensures Valid() && params.Keys == old(params).Keys
      ensures r.Err? <==> defaults.maxGradNorm > 0.0 && |old(groups)[0].ids| == 0
      ensures r.Err? ==> groups == old(groups) && params == old(params) && state == old(state)
      ensures r.Ok? ==> r.value == loss && |groups| == |old(groups)|
      ensures r.Ok? ==> forall g :: 0 <= g < |groups| ==>
        groups[g] == old(groups)[g].(step := Some(NextStep(old(groups)[g].step)))
      ensures r.Ok? ==>
        (params, state) ==
          StepGroups(old(groups), Updater(StepClip(defaults, old(groups), old(params), sqrt), sqrt),
                     old(params), old(state), |old(groups)|)
    {
      var clip := 1.0;
      if defaults.maxGradNorm > 0.0 {
        if |groups[0].ids| == 0 {
          return Err(IndexError);
        }
        clip := GlobalClip(sqrt);
      }
      assert clip == StepClip(defaults, groups, params, sqrt);
      StepEachGroup(clip, sqrt);
      return Ok(loss);
    }
  }
}
