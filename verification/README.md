# ComponentKit animation descriptions, in Dafny

This project models ComponentKit's `CK::Animation` builder algebra, declared in
`ComponentKit/Core/CKAnimation.h`. With it, a component describes how its layer
properties animate when the component appears, changes or disappears. The model
covers these parts:

- **Leaf builders.** An *initial* animation runs from a `from` value to the
  property's current value. A *final* animation runs from the current value to a
  `to` value. A *change* animation runs between the previous value and the
  current one.
- **Timing mixins.** `TimingBuilder` holds an optional duration, a delay and a
  pacing function. `SequenceTiming` holds only a delay and a pacing function.
- **Combinators.** `parallel` and `sequence` group two animations of the same
  type.
- **`toCA`.** Rendering a builder tree into Core Animation objects.
- **Type erasure.** The `Initial`, `Final` and `Change` wrappers.

Modules:

- `Optional` (`optional.dfy`): the `valueOr` and "apply when present" behaviour of
  ComponentKit's `Optional`, as far as the builders use it.
- `Animation` (`animation.dfy`): the animation type, the pacing, both timing
  mixins and the builder tree `Anim`. It also holds the fluent setters, the
  well-formedness predicate and the setter laws.
- `CoreAnimation` (`core_animation.dfy`): an abstract record `CARecord` for a
  basic animation or an animation group. Each property starts at the value a
  new Core Animation object has. The record also offers the property
  assignments the builders make.
- `Rendering` (`rendering.dfy`): both `applyTimingTo`s, `Render` (the `toCA` of
  every builder) and the type-erased wrappers, with the lemmas about rendering.

The C++ code checks the grammar at compile time. Each group `static_assert`s
that its two children have the same type, and that fires as soon as the group
is built. A sequence's `toCA` also reads `duration` from both children, and
`SequenceTiming` has no such member. So `sequence(sequence(a, b), c)` can be
built, but its `toCA` does not compile. `Animation.WellFormed` states both
rules; it describes the trees whose `toCA` compiles. `Animation.SequenceOf`
requires both children to have a duration, which deliberately limits the model
to sequences that can be rendered. `Animation.WellFormedIff` restates the rules
independently: all leaves share one type, and no sequence is nested directly in
a sequence.

Some of what rendering a sequence does, as the code is written:

- The second child's begin time is overwritten with the first child's duration,
  so any delay set on the second child is lost (`Rendering.SecondDelayIgnored`).
- The group's duration is the sum of the children's durations. The first child's
  delay is not included in that sum (`Rendering.SequenceDurationIsDerived`).
- A sequence renders exactly like a parallel group whose second child is delayed
  by the first child's duration, whose own duration is the sum of both
  children's durations, and which has the sequence's delay and pacing
  (`Rendering.SequenceIsDelayedParallel`).

## Model

| member | source | states |
|---|---|---|
| `Animation.Timing.WithDuration` | ComponentKit/Core/CKAnimation.h:80 | `TimingBuilder::withDuration(t)` makes the duration present and equal to `t`, keeping delay and pacing |
| `Animation.Timing.WithDelay` | ComponentKit/Core/CKAnimation.h:87 | `TimingBuilder::withDelay(t)` sets the delay to `t`, keeping duration and pacing |
| `Animation.Timing.WithPacing` | ComponentKit/Core/CKAnimation.h:96-115 | `TimingBuilder::easeIn(t)`/`easeOut(t)` set the pacing, replace the duration only when `t` is present, and keep the delay |
| `Animation.SequenceTiming.WithDelay` | ComponentKit/Core/CKAnimation.h:50 | `SequenceTiming::withDelay(t)` sets the delay to `t`, keeping the pacing |
| `Animation.SequenceTiming.WithPacing` | ComponentKit/Core/CKAnimation.h:52-54 | `SequenceTiming::easeIn()`/`easeOut()` set only the pacing, keeping the delay |
| `Animation.InitialBuilder` | ComponentKit/Core/CKAnimation.h:163-171 | a new initial builder keeps `from` and the key path, has type initial, no duration, delay 0 and linear pacing |
| `Animation.FinalBuilder` | ComponentKit/Core/CKAnimation.h:215-223 | a new final builder keeps `to` and the key path, has type final, no duration, delay 0 and linear pacing |
| `Animation.ChangeBuilder` | ComponentKit/Core/CKAnimation.h:267-270 | a new change builder keeps the key path, has type change, no duration, delay 0 and linear pacing |
| `Animation.ParallelOf` | ComponentKit/Core/CKAnimation.h:420-421 | `parallel` builds a `ParallelBuilder` (lines 291-297), whose `static_assert` accepts only two well-formed children of one type; the group has that type, keeps the children in order and starts with default timing |
| `Animation.SequenceOf` | ComponentKit/Core/CKAnimation.h:439-440 | `sequence` builds a `SequenceBuilder` (lines 324-330); it also needs both children to expose a duration; the group has the children's type, keeps them in order and starts with delay 0 and linear pacing |
| `Animation.WithDuration` | ComponentKit/Core/CKAnimation.h:80 | `withDuration(t)` sets the duration to `t`; delay, pacing, type, values, key path and children are unchanged |
| `Animation.WithDelay` | ComponentKit/Core/CKAnimation.h:87 | `withDelay(t)` sets the delay of any builder, sequence included; duration, pacing and content are unchanged |
| `Animation.WithEaseIn` | ComponentKit/Core/CKAnimation.h:96-101 | `easeIn(t)` sets ease-in pacing, replaces the duration only when `t` is given, and never touches the delay; on a sequence it takes no duration |
| `Animation.WithEaseOut` | ComponentKit/Core/CKAnimation.h:110-115 | `easeOut(t)` sets ease-out pacing, replaces the duration only when `t` is given, and never touches the delay |
| `Animation.WithPacing` | ComponentKit/Core/CKAnimation.h:52-54 | the sequence variants of `easeIn`/`easeOut` change only the pacing; the timing-builder variants also take the optional duration |
| `Animation.EaseIsShorthand` | ComponentKit/Core/CKAnimation.h:89-115 | `easeIn(t)` equals `easeIn().withDuration(t)`, and likewise for `easeOut` |
| `Animation.SettersOverwrite` | ComponentKit/Core/CKAnimation.h:80-87 | a later `withDuration` or `withDelay` replaces an earlier one completely |
| `Animation.DurationAndDelayCommute` | ComponentKit/Core/CKAnimation.h:80-87 | setting the duration and setting the delay do not interfere, in either order |
| `Animation.AllLeavesDetermineType` | ComponentKit/Core/CKAnimation.h:326-327 | when every leaf has type `t`, the static type of the whole tree is `t` |
| `Animation.WellFormedIff` | ComponentKit/Core/CKAnimation.h:324-341 | a tree's `toCA` compiles exactly when all its leaves share one type and no sequence is a direct child of a sequence |
| `Rendering.ApplyTiming` | ComponentKit/Core/CKAnimation.h:117-123 | applying builder timing sets the duration only when one was specified, sets begin time to the delay and the timing function from the pacing, and leaves contents and fill mode alone |
| `Rendering.ApplySequenceTiming` | ComponentKit/Core/CKAnimation.h:56-61 | applying sequence timing sets begin time and timing function and leaves duration, contents and fill mode alone |
| `Rendering.Render` | ComponentKit/Core/CKAnimation.h:174-346 | leaves render to basic animations and groups to groups of two; begin time is the delay; the timing function comes from the pacing; the duration is the builder's when it has one; fill mode follows the type; a parallel group's children are the rendered children in order; in a sequence the second child's begin time is the first child's duration (0.25 when unset), the group's duration is the sum of both children's durations, so the second child's begin time plus its duration equals the group's duration |
| `Rendering.Erase` | ComponentKit/Core/CKAnimation.h:313-314 | converting to the type-erased wrapper picks `Initial`, `Change` or `Final` by the builder's type and carries its rendering |
| `Rendering.RenderConformsToType` | ComponentKit/Core/CKAnimation.h:174-344 | at every depth, initial trees fill backwards and set only `fromValue`, final leaves fill forwards and set only `toValue`, change leaves set neither, and only initial groups set a fill mode |
| `Rendering.RenderPreservesLeaves` | ComponentKit/Core/CKAnimation.h:174-338 | the basic animations of a rendering are the tree's leaves in left-to-right order, each with its key path and its `from`/`to` value |
| `Rendering.RenderWithDuration` | ComponentKit/Core/CKAnimation.h:118-120 | rendering after `withDuration(t)` gives the same object with duration `t` |
| `Rendering.RenderWithDelay` | ComponentKit/Core/CKAnimation.h:87-121 | rendering after `withDelay(t)` gives the same object with begin time `t` |
| `Rendering.RenderWithPacing` | ComponentKit/Core/CKAnimation.h:96-122 | rendering after an ease setter changes only the timing function, and the duration when one is passed |
| `Rendering.SecondDelayIgnored` | ComponentKit/Core/CKAnimation.h:336-339 | a delay on a sequence's second child does not change the rendered sequence |
| `Rendering.SequenceDurationIsDerived` | ComponentKit/Core/CKAnimation.h:336-341 | a sequence's duration does not change with its own timing or with the first child's delay, while the first child starts at that delay |
| `Rendering.SequenceIsDelayedParallel` | ComponentKit/Core/CKAnimation.h:300-346 | a rendered sequence equals the rendered parallel group whose second child is delayed by the first child's duration, whose duration is the sum of both children's durations, and whose delay and pacing are the sequence's |
| `Rendering.FreshLeavesRender` | ComponentKit/Core/CKAnimation.h:129-181 | a fresh leaf renders with begin time 0, linear pacing and the duration left at Core Animation's 0.25 s default, with its type's values and fill mode |
| `Rendering.GroupingExamples` | ComponentKit/Core/CKAnimation.h:414-437 | two initial leaves can be grouped in parallel or in sequence; a final leaf and an initial leaf cannot |
| `Rendering.NestingExamples` | ComponentKit/Core/CKAnimation.h:339-341 | a sequence directly inside a sequence cannot be rendered (its `toCA` does not compile), while a sequence inside a parallel group and a parallel group inside a sequence can |

## Left out

- The hosting view (`CKComponentHostingView`) and the component build and mount machinery are outside this model, which covers only `CKAnimation.h`. That includes the hosting view's main-thread confinement and asynchronous first update, which are concurrency and UI plumbing.
- `functionToCA` (line 38) is declared here without a body and returns a QuartzCore `CAMediaTimingFunction`. Its result is the symbolic `FunctionToCA(pacing)`, which remembers only the pacing it came from.
- `CABasicAnimation` and `CAAnimationGroup` are reduced to the properties the builders assign. How Core Animation then runs them is not modelled. In particular, how a group resolves a child with no duration (the note at lines 129-130) is not modelled.
- The factory functions `alphaFrom` … `borderColor` (lines 359-403) are only declared. Key paths are strings and `from`/`to` values are an opaque type.
- `CFTimeInterval` is a double. Durations and delays are exact reals here, so the rounding of the addition at line 341 is not modelled.
- Object identity is not modelled. `toCA` allocates a new object on every call, while a type-erased wrapper's `toCA` returns the object it holds; here both are values. The second child's begin time being assigned after it is placed in the group's array is modelled as the child value already carrying that begin time.
- `operator CAAnimation *()` is the same as `toCA`, so it has no member of its own.
- `__unsafe_unretained` key paths and other memory-management and Objective-C bridging concerns are not modelled.
- `Optional` in ComponentKit/CKOptional.h is not part of this model. Only `valueOr` and "apply when present" are modelled, as the builders use them.
- The type-erased wrappers have no static `type`, so they cannot be grouped. They are a separate datatype, not a kind of `Anim`.
