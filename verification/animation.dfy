/**
 The animation-description algebra of ComponentKit's `CK::Animation` namespace:
 three leaf builders (initial, final, change), two timing mixins, and the
 parallel and sequence combinators, as immutable values with pure setters.

 The C++ code checks the grammar at compile time: the `static_assert` on the
 grouped types fires as soon as a group is built, and a sequence's `toCA` reads
 `duration` from its children, so it compiles only when both have one. Here
 both checks are the predicate `WellFormed`.
 */
module Animation {
  import opened Optional

  /** Key path of the animated layer property; the model never inspects it. */
  type KeyPath = string

  /** A `from`/`to` value (a boxed number or a colour); opaque to the model, compared by identity. */
  type Value(==)

  /** Which of the three transitions an animation describes. */
  datatype AnimType = Initial | Change | Final

  /** One segment of the timing curve that paces an animation. */
  datatype Pacing = Linear | EaseIn | EaseOut

  /** State of the `TimingBuilder` mixin: optional duration, delay, pacing. */
  datatype Timing = Timing(duration: Optional<real>, delay: real, pacing: Pacing) {

    /** `withDuration(t)`. */
    function WithDuration(t: real): (r: Timing)
      ensures r.duration == Some(t)
      ensures r.delay == delay && r.pacing == pacing
    {
      this.(duration := Some(t))
    }

    /** `withDelay(t)`. */
    function WithDelay(t: real): (r: Timing)
      ensures r.delay == t
      ensures r.duration == duration && r.pacing == pacing
    {
      this.(delay := t)
    }

    /** `easeIn(t)` and `easeOut(t)`: set the pacing, and the duration only when one is given. */
    function WithPacing(f: Pacing, t: Optional<real>): (r: Timing)
      ensures r.pacing == f
      ensures r.delay == delay
      ensures t.Some? ==> r.duration == t
      ensures t.None? ==> r.duration == duration
    {
      this.(pacing := f, duration := t.Or(duration))
    }
  }

  /** State of the `SequenceTiming` mixin: a delay and a pacing, but no duration. */
  datatype SequenceTiming = SequenceTiming(delay: real, pacing: Pacing) {

    /** `withDelay(t)`. */
    function WithDelay(t: real): (r: SequenceTiming)
      ensures r.delay == t && r.pacing == pacing
    {
      this.(delay := t)
    }

    /** `easeIn()` and `easeOut()`: only the pacing changes. */
    function WithPacing(f: Pacing): (r: SequenceTiming)
      ensures r.pacing == f && r.delay == delay
    {
      this.(pacing := f)
    }
  }

  /** Default member values of `TimingBuilder`: no duration, no delay, linear pacing. */
  const FreshTiming: Timing := Timing(None, 0.0, Linear)

  /** Default member values of `SequenceTiming`: no delay, linear pacing. */
  const FreshSequenceTiming: SequenceTiming := SequenceTiming(0.0, Linear)

  /** A builder tree. Leaves and parallel groups carry `Timing`; a sequence carries `SequenceTiming`. */
  datatype Anim =
    | InitialLeaf(from: Value, keyPath: KeyPath, timing: Timing)
    | FinalLeaf(to: Value, keyPath: KeyPath, timing: Timing)
    | ChangeLeaf(keyPath: KeyPath, timing: Timing)
    | Parallel(a1: Anim, a2: Anim, timing: Timing)
    | Sequence(a1: Anim, a2: Anim, sequenceTiming: SequenceTiming)

  predicate IsLeaf(a: Anim)
  {
    a.InitialLeaf? || a.FinalLeaf? || a.ChangeLeaf?
  }

  /** The builder derives from `TimingBuilder`, so it has a `duration` member. */
  predicate HasDuration(a: Anim)
  {
    !a.Sequence?
  }

  /** The static `type` member: fixed for a leaf, the first child's type for a group. */
  function TypeOf(a: Anim): AnimType
  {
    match a
    case InitialLeaf(_, _, _) => Initial
    case FinalLeaf(_, _, _) => Final
    case ChangeLeaf(_, _) => Change
    case Parallel(a1, _, _) => TypeOf(a1)
    case Sequence(a1, _, _) => TypeOf(a1)
  }

  function DelayOf(a: Anim): real
  {
    if a.Sequence? then a.sequenceTiming.delay else a.timing.delay
  }

  function PacingOf(a: Anim): Pacing
  {
    if a.Sequence? then a.sequenceTiming.pacing else a.timing.pacing
  }

  /**
   The trees whose `toCA` compiles: the two children of every group have the
   same type, and both children of a sequence have a `duration` member, so a
   sequence is never a direct child of a sequence.
   */
  predicate WellFormed(a: Anim)
  {
    match a
    case InitialLeaf(_, _, _) => true
    case FinalLeaf(_, _, _) => true
    case ChangeLeaf(_, _) => true
    case Parallel(a1, a2, _) =>
      WellFormed(a1) && WellFormed(a2) && TypeOf(a1) == TypeOf(a2)
    case Sequence(a1, a2, _) =>
      WellFormed(a1) && WellFormed(a2) && TypeOf(a1) == TypeOf(a2)
      && HasDuration(a1) && HasDuration(a2)
  }

  /** `a` and `b` differ at most in their own timing: same node kind, values, key path and children. */
  predicate SameContent(a: Anim, b: Anim)
  {
    match a
    case InitialLeaf(from, kp, _) => b.InitialLeaf? && b.from == from && b.keyPath == kp
    case FinalLeaf(to, kp, _) => b.FinalLeaf? && b.to == to && b.keyPath == kp
    case ChangeLeaf(kp, _) => b.ChangeLeaf? && b.keyPath == kp
    case Parallel(a1, a2, _) => b.Parallel? && b.a1 == a1 && b.a2 == a2
    case Sequence(a1, a2, _) => b.Sequence? && b.a1 == a1 && b.a2 == a2
  }

  // ---------------------------------------------------------------------
  // Builders

  /** `InitialBuilder(from, keyPath)`: animates from `from` to the current value. */
  function InitialBuilder(from: Value, keyPath: KeyPath): (r: Anim)
    ensures WellFormed(r) && TypeOf(r) == Initial && IsLeaf(r)
    ensures r.from == from && r.keyPath == keyPath
    ensures r.timing.duration.None? && r.timing.delay == 0.0 && r.timing.pacing == Linear
  {
    InitialLeaf(from, keyPath, FreshTiming)
  }

  /** `FinalBuilder(to, keyPath)`: animates from the current value to `to`. */
  function FinalBuilder(to: Value, keyPath: KeyPath): (r: Anim)
    ensures WellFormed(r) && TypeOf(r) == Final && IsLeaf(r)
    ensures r.to == to && r.keyPath == keyPath
    ensures r.timing.duration.None? && r.timing.delay == 0.0 && r.timing.pacing == Linear
  {
    FinalLeaf(to, keyPath, FreshTiming)
  }

  /** `ChangeBuilder(keyPath)`: animates between the previous and the current value. */
  function ChangeBuilder(keyPath: KeyPath): (r: Anim)
    ensures WellFormed(r) && TypeOf(r) == Change && IsLeaf(r)
    ensures r.keyPath == keyPath
    ensures r.timing.duration.None? && r.timing.delay == 0.0 && r.timing.pacing == Linear
  {
    ChangeLeaf(keyPath, FreshTiming)
  }

  /** `parallel(a1, a2)`: only animations of one type can be grouped. */
  function ParallelOf(a1: Anim, a2: Anim): (r: Anim)
    requires WellFormed(a1) && WellFormed(a2) && TypeOf(a1) == TypeOf(a2)
    ensures r.Parallel? && WellFormed(r) && TypeOf(r) == TypeOf(a1)
    ensures r.a1 == a1 && r.a2 == a2
    ensures r.timing.duration.None? && r.timing.delay == 0.0 && r.timing.pacing == Linear
  {
    Parallel(a1, a2, FreshTiming)
  }

  /**
   `sequence(a1, a2)`: one type, and both children must expose a duration. The
   C++ template accepts a sequence child and fails only when `toCA` is compiled;
   requiring `HasDuration` limits the model to sequences that can be rendered.
   */
  function SequenceOf(a1: Anim, a2: Anim): (r: Anim)
    requires WellFormed(a1) && WellFormed(a2) && TypeOf(a1) == TypeOf(a2)
    requires HasDuration(a1) && HasDuration(a2)
    ensures WellFormed(r) && TypeOf(r) == TypeOf(a1) && !HasDuration(r)
    ensures r.a1 == a1 && r.a2 == a2
    ensures r.sequenceTiming.delay == 0.0 && r.sequenceTiming.pacing == Linear
  {
    Sequence(a1, a2, FreshSequenceTiming)
  }

  // ---------------------------------------------------------------------
  // Fluent setters

  /** `withDuration(t)`: only on builders deriving from `TimingBuilder`. */
  function WithDuration(a: Anim, t: real): (r: Anim)
    requires HasDuration(a)
    ensures HasDuration(r) && SameContent(a, r)
    ensures r.timing.duration == Some(t)
    ensures DelayOf(r) == DelayOf(a) && PacingOf(r) == PacingOf(a)
    ensures TypeOf(r) == TypeOf(a) && (WellFormed(r) <==> WellFormed(a))
  {
    a.(timing := a.timing.WithDuration(t))
  }

  /** `withDelay(t)`: on every builder, through either timing mixin. */
  function WithDelay(a: Anim, t: real): (r: Anim)
    ensures SameContent(a, r) && HasDuration(r) == HasDuration(a)
    ensures DelayOf(r) == t
    ensures HasDuration(a) ==> r.timing.duration == a.timing.duration
    ensures PacingOf(r) == PacingOf(a)
    ensures TypeOf(r) == TypeOf(a) && (WellFormed(r) <==> WellFormed(a))
  {
    if a.Sequence? then a.(sequenceTiming := a.sequenceTiming.WithDelay(t))
    else a.(timing := a.timing.WithDelay(t))
  }

  /** Shared body of `easeIn` and `easeOut`; a sequence's variants take no duration. */
  function WithPacing(a: Anim, f: Pacing, t: Optional<real>): (r: Anim)
    requires a.Sequence? ==> t.None?
    ensures SameContent(a, r) && HasDuration(r) == HasDuration(a)
    ensures PacingOf(r) == f && DelayOf(r) == DelayOf(a)
    ensures HasDuration(a) && t.Some? ==> r.timing.duration == t
    ensures HasDuration(a) && t.None? ==> r.timing.duration == a.timing.duration
    ensures TypeOf(r) == TypeOf(a) && (WellFormed(r) <==> WellFormed(a))
  {
    if a.Sequence? then a.(sequenceTiming := a.sequenceTiming.WithPacing(f))
    else a.(timing := a.timing.WithPacing(f, t))
  }

  /** `easeIn(t)`, with `t` defaulting to none. */
  function WithEaseIn(a: Anim, t: Optional<real>): (r: Anim)
    requires a.Sequence? ==> t.None?
    ensures SameContent(a, r) && PacingOf(r) == EaseIn && DelayOf(r) == DelayOf(a)
    ensures HasDuration(a) ==> r.timing.duration == t.Or(a.timing.duration)
    ensures TypeOf(r) == TypeOf(a) && (WellFormed(r) <==> WellFormed(a))
  {
    WithPacing(a, EaseIn, t)
  }

  /** `easeOut(t)`, with `t` defaulting to none. */
  function WithEaseOut(a: Anim, t: Optional<real>): (r: Anim)
    requires a.Sequence? ==> t.None?
    ensures SameContent(a, r) && PacingOf(r) == EaseOut && DelayOf(r) == DelayOf(a)
    ensures HasDuration(a) ==> r.timing.duration == t.Or(a.timing.duration)
    ensures TypeOf(r) == TypeOf(a) && (WellFormed(r) <==> WellFormed(a))
  {
    WithPacing(a, EaseOut, t)
  }

  // ---------------------------------------------------------------------
  // Algebraic laws of the setters

  /** `easeIn(t)` is shorthand for `easeIn().withDuration(t)`; likewise `easeOut`. */
  lemma EaseIsShorthand(a: Anim, t: real)
    requires HasDuration(a)
    ensures WithEaseIn(a, Some(t)) == WithDuration(WithEaseIn(a, None), t)
    ensures WithEaseOut(a, Some(t)) == WithDuration(WithEaseOut(a, None), t)
  {
  }

  /** The last `withDuration` / `withDelay` wins. */
  lemma SettersOverwrite(a: Anim, t1: real, t2: real)
    ensures WithDelay(WithDelay(a, t1), t2) == WithDelay(a, t2)
    ensures HasDuration(a) ==> WithDuration(WithDuration(a, t1), t2) == WithDuration(a, t2)
  {
  }

  /** Setting the duration and setting the delay are independent. */
  lemma DurationAndDelayCommute(a: Anim, d: real, t: real)
    requires HasDuration(a)
    ensures WithDelay(WithDuration(a, d), t) == WithDuration(WithDelay(a, t), d)
  {
  }

  // ---------------------------------------------------------------------
  // An independent description of the accepted trees

  /** The type of a leaf builder. */
  function LeafType(a: Anim): AnimType
    requires IsLeaf(a)
  {
    if a.InitialLeaf? then Initial else if a.FinalLeaf? then Final else Change
  }

  /** Every leaf of `a` has type `t`. */
  predicate AllLeavesOfType(a: Anim, t: AnimType)
  {
    if IsLeaf(a) then LeafType(a) == t
    else AllLeavesOfType(a.a1, t) && AllLeavesOfType(a.a2, t)
  }

  /** No sequence in `a` has a sequence as a direct child. */
  predicate NoNestedSequence(a: Anim)
  {
    match a
    case Parallel(a1, a2, _) => NoNestedSequence(a1) && NoNestedSequence(a2)
    case Sequence(a1, a2, _) =>
      !a1.Sequence? && !a2.Sequence? && NoNestedSequence(a1) && NoNestedSequence(a2)
    case _ => true
  }

  /** If every leaf has type `t`, the tree's static type is `t`. */
  lemma {:induction false} AllLeavesDetermineType(a: Anim, t: AnimType)
    requires AllLeavesOfType(a, t)
    ensures TypeOf(a) == t
  {
    if !IsLeaf(a) {
      AllLeavesDetermineType(a.a1, t);
    }
  }

  /**
   A tree's `toCA` compiles exactly when all its leaves share one type and no
   sequence sits directly inside a sequence.
   */
  lemma {:induction false} WellFormedIff(a: Anim)
    ensures WellFormed(a) <==> AllLeavesOfType(a, TypeOf(a)) && NoNestedSequence(a)
  {
    if !IsLeaf(a) {
      WellFormedIff(a.a1);
      WellFormedIff(a.a2);
      if AllLeavesOfType(a, TypeOf(a)) {
        AllLeavesDetermineType(a.a2, TypeOf(a));
      }
    }
  }
}
