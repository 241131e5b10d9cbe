/**
 `toCA`: turning a builder tree into the Core Animation objects it describes,
 the `applyTimingTo` steps of both timing mixins, the type-erased `Initial`,
 `Final` and `Change` wrappers, and what rendering promises.
 */
module Rendering {
  import opened Optional
  import opened Animation
  import opened CoreAnimation

  // ---------------------------------------------------------------------
  // Timing application

  /** `TimingBuilder::applyTimingTo`: the duration only if one was given, then delay and pacing. */
  function ApplyTiming(t: Timing, r: CARecord): (r': CARecord)
    ensures SameObject(r, r')
    ensures t.duration.Some? ==> r'.duration == t.duration
    ensures t.duration.None? ==> r'.duration == r.duration
    ensures r'.beginTime == t.delay
    ensures r'.timingFunction == Some(FunctionToCA(t.pacing))
  {
    var withDuration := match t.duration
      case Some(d) => r.SetDuration(d)
      case None => r;
    withDuration.SetBeginTime(t.delay).SetTimingFunction(FunctionToCA(t.pacing))
  }

  /** `SequenceTiming::applyTimingTo`: delay and pacing; the duration is left alone. */
  function ApplySequenceTiming(s: SequenceTiming, r: CARecord): (r': CARecord)
    ensures SameObject(r, r')
    ensures r'.duration == r.duration
    ensures r'.beginTime == s.delay
    ensures r'.timingFunction == Some(FunctionToCA(s.pacing))
  {
    r.SetBeginTime(s.delay).SetTimingFunction(FunctionToCA(s.pacing))
  }

  // ---------------------------------------------------------------------
  // Fill modes by type

  /** Fill mode a leaf of type `t` sets: backwards, forwards, or none (the default stays). */
  function LeafFill(t: AnimType): FillMode
  {
    match t
    case Initial => Backwards
    case Final => Forwards
    case Change => Removed
  }

  /** Fill mode a group of type `t` sets: backwards for initial groups only. */
  function GroupFill(t: AnimType): FillMode
  {
    if t == Initial then Backwards else Removed
  }

  // ---------------------------------------------------------------------
  // Rendering

  /** `toCA()` of every builder. */
  function Render(a: Anim): (r: CARecord)
    requires WellFormed(a)
    ensures r.BasicAnimation? <==> IsLeaf(a)
    ensures r.beginTime == DelayOf(a)
    ensures r.timingFunction == Some(FunctionToCA(PacingOf(a)))
    ensures HasDuration(a) ==> r.duration == a.timing.duration
    ensures HasDuration(a) ==> DurationOrDefault(r) == a.timing.duration.ValueOr(DefaultDuration)
    ensures r.fillMode == if IsLeaf(a) then LeafFill(TypeOf(a)) else GroupFill(TypeOf(a))
    ensures !IsLeaf(a) ==> |r.animations| == 2 && r.animations[0] == Render(a.a1)
    ensures a.Parallel? ==> r.animations[1] == Render(a.a2)
    ensures a.Sequence? ==>
      && r.animations[1] == Render(a.a2).SetBeginTime(r.animations[1].beginTime)
      && r.animations[1].beginTime == DurationOrDefault(r.animations[0])
      && r.duration == Some(DurationOrDefault(r.animations[0]) + DurationOrDefault(r.animations[1]))
  {
    match a
    case InitialLeaf(from, kp, t) =>
      var b := NewBasic(kp).(fromValue := Some(from));
      ApplyTiming(t, b).SetFillMode(Backwards)
    case FinalLeaf(to, kp, t) =>
      var b := NewBasic(kp).(toValue := Some(to));
      ApplyTiming(t, b).SetFillMode(Forwards)
    case ChangeLeaf(kp, t) =>
      ApplyTiming(t, NewBasic(kp))
    case Parallel(a1, a2, t) =>
      var g := NewGroup().(animations := [Render(a1), Render(a2)]);
      var g' := ApplyTiming(t, g);
      if TypeOf(a) == Initial then g'.SetFillMode(Backwards) else g'
    case Sequence(a1, a2, s) =>
      var r1 := Render(a1);
      var r2 := Render(a2);
      var d1 := a1.timing.duration.ValueOr(DefaultDuration);
      var d2 := a2.timing.duration.ValueOr(DefaultDuration);
      var g := NewGroup().(animations := [r1, r2.SetBeginTime(d1)]);
      var g' := ApplySequenceTiming(s, g).SetDuration(d1 + d2);
      if TypeOf(a) == Initial then g'.SetFillMode(Backwards) else g'
  }

  // ---------------------------------------------------------------------
  // Type erasure

  /** The `Initial`, `Change` and `Final` wrappers: a rendered object tagged with its type. */
  datatype AnyAnimation =
    | InitialAnimation(anim: CARecord)
    | ChangeAnimation(anim: CARecord)
    | FinalAnimation(anim: CARecord)

  function KindOf(e: AnyAnimation): AnimType
  {
    match e
    case InitialAnimation(_) => Initial
    case ChangeAnimation(_) => Change
    case FinalAnimation(_) => Final
  }

  /** `operator Initial()`, `operator Final()`, `operator Change()` and a group's `operator Any()`. */
  function Erase(a: Anim): (e: AnyAnimation)
    requires WellFormed(a)
    ensures KindOf(e) == TypeOf(a)
    ensures e.anim == Render(a)
  {
    match TypeOf(a)
    case Initial => InitialAnimation(Render(a))
    case Change => ChangeAnimation(Render(a))
    case Final => FinalAnimation(Render(a))
  }

  // ---------------------------------------------------------------------
  // Rendering respects the animation type at every depth

  /** Every object under `r` carries the fill mode and values that type `t` demands. */
  predicate Conforms(r: CARecord, t: AnimType)
  {
    match r
    case BasicAnimation(_, from, to, _, _, _, fill) =>
      fill == LeafFill(t) && (from.Some? <==> t == Initial) && (to.Some? <==> t == Final)
    case AnimationGroup(rs, _, _, _, fill) =>
      fill == GroupFill(t) && forall i :: 0 <= i < |rs| ==> Conforms(rs[i], t)
  }

  lemma ConformsIgnoresBeginTime(r: CARecord, t: AnimType, b: real)
    requires Conforms(r, t)
    ensures Conforms(r.SetBeginTime(b), t)
  {
  }

  /** An initial tree renders to backwards-filling objects that set `fromValue` only, and so on. */
  lemma {:induction false} RenderConformsToType(a: Anim)
    requires WellFormed(a)
    ensures Conforms(Render(a), TypeOf(a))
  {
    match a
    case InitialLeaf(_, _, _) =>
    case FinalLeaf(_, _, _) =>
    case ChangeLeaf(_, _) =>
    case Parallel(a1, a2, _) =>
      RenderConformsToType(a1);
      RenderConformsToType(a2);
    case Sequence(a1, a2, _) =>
      RenderConformsToType(a1);
      RenderConformsToType(a2);
      ConformsIgnoresBeginTime(Render(a2), TypeOf(a), a1.timing.duration.ValueOr(DefaultDuration));
  }

  // ---------------------------------------------------------------------
  // Rendering keeps every leaf, in order

  /** The leaves of a builder tree, left to right, as what they animate. */
  function Leaves(a: Anim): seq<Target>
  {
    match a
    case InitialLeaf(from, kp, _) => [Target(kp, Some(from), None)]
    case FinalLeaf(to, kp, _) => [Target(kp, None, Some(to))]
    case ChangeLeaf(kp, _) => [Target(kp, None, None)]
    case Parallel(a1, a2, _) => Leaves(a1) + Leaves(a2)
    case Sequence(a1, a2, _) => Leaves(a1) + Leaves(a2)
  }

  lemma TargetsOfPair(r1: CARecord, r2: CARecord)
    ensures TargetsOfAll([r1, r2]) == Targets(r1) + Targets(r2)
  {
    assert [r1, r2][1..] == [r2];
    assert [r2][1..] == [];
    assert TargetsOfAll([r2]) == Targets(r2);
  }

  lemma TargetsIgnoreBeginTime(r: CARecord, b: real)
    ensures Targets(r.SetBeginTime(b)) == Targets(r)
  {
  }

  /**
   The basic animations of a rendered tree are its leaves in order, each with its
   key path and with `fromValue`/`toValue` exactly as the leaf's type sets them.
   */
  lemma {:induction false} RenderPreservesLeaves(a: Anim)
    requires WellFormed(a)
    ensures Targets(Render(a)) == Leaves(a)
  {
    match a
    case InitialLeaf(_, _, _) =>
    case FinalLeaf(_, _, _) =>
    case ChangeLeaf(_, _) =>
    case Parallel(a1, a2, _) =>
      RenderPreservesLeaves(a1);
      RenderPreservesLeaves(a2);
      TargetsOfPair(Render(a1), Render(a2));
    case Sequence(a1, a2, _) =>
      RenderPreservesLeaves(a1);
      RenderPreservesLeaves(a2);
      var r2 := Render(a2).SetBeginTime(a1.timing.duration.ValueOr(DefaultDuration));
      TargetsIgnoreBeginTime(Render(a2), a1.timing.duration.ValueOr(DefaultDuration));
      TargetsOfPair(Render(a1), r2);
  }

  // ---------------------------------------------------------------------
  // Setters seen through rendering

  /** `withDuration(t)` changes the rendered duration and nothing else. */
  lemma RenderWithDuration(a: Anim, t: real)
    requires WellFormed(a) && HasDuration(a)
    ensures Render(WithDuration(a, t)) == Render(a).SetDuration(t)
  {
  }

  /** `withDelay(t)` changes the rendered begin time and nothing else. */
  lemma RenderWithDelay(a: Anim, t: real)
    requires WellFormed(a)
    ensures Render(WithDelay(a, t)) == Render(a).SetBeginTime(t)
  {
  }

  /** `easeIn(t)` / `easeOut(t)` change the rendered timing function, and the duration only when `t` is given. */
  lemma RenderWithPacing(a: Anim, f: Pacing, t: Optional<real>)
    requires WellFormed(a) && (a.Sequence? ==> t.None?)
    ensures t.None? ==> Render(WithPacing(a, f, t)) == Render(a).SetTimingFunction(FunctionToCA(f))
    ensures t.Some? ==> Render(WithPacing(a, f, t)) == Render(a).SetTimingFunction(FunctionToCA(f)).SetDuration(t.value)
  {
  }

  // ---------------------------------------------------------------------
  // Sequences

  /** The delay set on a sequence's second child never reaches the rendered objects. */
  lemma SecondDelayIgnored(a1: Anim, a2: Anim, s: SequenceTiming, d: real)
    requires WellFormed(Sequence(a1, a2, s))
    ensures WellFormed(Sequence(a1, WithDelay(a2, d), s))
    ensures Render(Sequence(a1, WithDelay(a2, d), s)) == Render(Sequence(a1, a2, s))
  {
    RenderWithDelay(a2, d);
  }

  /**
   A sequence's duration is fixed by its children's durations: neither its own
   timing nor the first child's delay changes it, although the first child does
   start at its own delay.
   */
  lemma SequenceDurationIsDerived(a1: Anim, a2: Anim, s: SequenceTiming, s': SequenceTiming, d: real)
    requires WellFormed(Sequence(a1, a2, s))
    ensures WellFormed(Sequence(WithDelay(a1, d), a2, s))
    ensures Render(Sequence(a1, a2, s)).duration == Render(Sequence(a1, a2, s')).duration
    ensures Render(Sequence(WithDelay(a1, d), a2, s)).duration == Render(Sequence(a1, a2, s)).duration
    ensures Render(Sequence(WithDelay(a1, d), a2, s)).animations[0].beginTime == d
  {
    var delayed := WithDelay(a1, d);
    RenderWithDelay(a1, d);
    assert Render(delayed).duration == Render(a1).duration;
    var r, r' := Render(Sequence(delayed, a2, s)), Render(Sequence(a1, a2, s));
    assert r.animations[0] == Render(delayed) && r'.animations[0] == Render(a1);
    assert r.animations[1].duration == Render(a2).duration == r'.animations[1].duration;
  }

  /**
   A sequence renders exactly as the parallel group whose second child is delayed
   by the first child's duration and whose duration is the sum of both.
   */
  lemma SequenceIsDelayedParallel(a1: Anim, a2: Anim, s: SequenceTiming)
    requires WellFormed(Sequence(a1, a2, s))
    ensures
      var d1 := DurationOrDefault(Render(a1));
      var d2 := DurationOrDefault(Render(a2));
      var p := Parallel(a1, WithDelay(a2, d1), Timing(Some(d1 + d2), s.delay, s.pacing));
      WellFormed(p) && Render(Sequence(a1, a2, s)) == Render(p)
  {
    RenderWithDelay(a2, DurationOrDefault(Render(a1)));
  }

  // ---------------------------------------------------------------------
  // Fresh builders and grouping

  /** A freshly built leaf renders with no delay, linear pacing and Core Animation's default duration. */
  lemma FreshLeavesRender(from: Value, to: Value, keyPath: KeyPath)
    ensures
      var r := Render(InitialBuilder(from, keyPath));
      && r.fromValue == Some(from) && r.toValue.None? && r.fillMode == Backwards
      && r.beginTime == 0.0 && r.duration.None? && r.timingFunction == Some(FunctionToCA(Linear))
      && DurationOrDefault(r) == DefaultDuration
    ensures
      var r := Render(FinalBuilder(to, keyPath));
      && r.fromValue.None? && r.toValue == Some(to) && r.fillMode == Forwards
      && r.beginTime == 0.0 && r.duration.None? && r.timingFunction == Some(FunctionToCA(Linear))
    ensures
      var r := Render(ChangeBuilder(keyPath));
      && r.fromValue.None? && r.toValue.None? && r.fillMode == Removed
      && r.beginTime == 0.0 && r.duration.None? && r.timingFunction == Some(FunctionToCA(Linear))
  {
  }

  /** Two initial leaves group; a final and an initial leaf do not, in either combinator. */
  lemma GroupingExamples(x: Value, y: Value, kp1: KeyPath, kp2: KeyPath)
    ensures WellFormed(Parallel(InitialBuilder(x, kp1), InitialBuilder(y, kp2), FreshTiming))
    ensures WellFormed(Sequence(InitialBuilder(x, kp1), InitialBuilder(y, kp2), FreshSequenceTiming))
    ensures !WellFormed(Parallel(FinalBuilder(x, kp1), InitialBuilder(y, kp2), FreshTiming))
    ensures !WellFormed(Sequence(FinalBuilder(x, kp1), InitialBuilder(y, kp2), FreshSequenceTiming))
  {
  }

  /**
   A sequence directly inside a sequence cannot be rendered (its `toCA` does not
   compile), while a sequence inside a parallel group, and a parallel group
   inside a sequence, can.
   */
  lemma NestingExamples(x: Value, kp: KeyPath)
    ensures
      var s := SequenceOf(ChangeBuilder(kp), ChangeBuilder(kp));
      && !WellFormed(Sequence(s, ChangeBuilder(kp), FreshSequenceTiming))
      && WellFormed(Parallel(s, ChangeBuilder(kp), FreshTiming))
      && WellFormed(Sequence(ParallelOf(ChangeBuilder(kp), ChangeBuilder(kp)), ChangeBuilder(kp), FreshSequenceTiming))
  {
  }
}
