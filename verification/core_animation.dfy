/**
 An abstract stand-in for the Core Animation objects the builders produce:
 `CABasicAnimation`, `CAAnimationGroup` and the timing function returned by
 `functionToCA`. Only the properties the builders assign are recorded, each
 starting from the value a new Core Animation object has.
 */
module CoreAnimation {
  import opened Optional
  import opened Animation

  /** Core Animation's duration for an animation whose duration is left unset, in seconds. */
  const DefaultDuration: real := 0.25

  /** `kCAFillModeRemoved` (the default), `kCAFillModeForwards`, `kCAFillModeBackwards`. */
  datatype FillMode = Removed | Forwards | Backwards

  /** The timing function `functionToCA(f)` returns, known only by the pacing it was made from. */
  datatype MediaTimingFunction = FunctionToCA(pacing: Pacing)

  /**
   One Core Animation object. `duration` is `None` while the property keeps its
   default; `timingFunction` is `None` while it is nil.
   */
  datatype CARecord =
    | BasicAnimation(
        keyPath: KeyPath,
        fromValue: Optional<Value>,
        toValue: Optional<Value>,
        duration: Optional<real>,
        beginTime: real,
        timingFunction: Optional<MediaTimingFunction>,
        fillMode: FillMode)
    | AnimationGroup(
        animations: seq<CARecord>,
        duration: Optional<real>,
        beginTime: real,
        timingFunction: Optional<MediaTimingFunction>,
        fillMode: FillMode)
  {
    /** Assigns the `duration` property. */
    function SetDuration(d: real): (r: CARecord)
      ensures r.duration == Some(d)
      ensures SameObject(this, r) && r.beginTime == beginTime && r.timingFunction == timingFunction
    {
      match this
      case BasicAnimation(kp, from, to, _, b, tf, fill) => BasicAnimation(kp, from, to, Some(d), b, tf, fill)
      case AnimationGroup(rs, _, b, tf, fill) => AnimationGroup(rs, Some(d), b, tf, fill)
    }

    /** Assigns the `beginTime` property. */
    function SetBeginTime(t: real): (r: CARecord)
      ensures r.beginTime == t
      ensures SameObject(this, r) && r.duration == duration && r.timingFunction == timingFunction
    {
      match this
      case BasicAnimation(kp, from, to, d, _, tf, fill) => BasicAnimation(kp, from, to, d, t, tf, fill)
      case AnimationGroup(rs, d, _, tf, fill) => AnimationGroup(rs, d, t, tf, fill)
    }

    /** Assigns the `timingFunction` property. */
    function SetTimingFunction(f: MediaTimingFunction): (r: CARecord)
      ensures r.timingFunction == Some(f)
      ensures SameObject(this, r) && r.duration == duration && r.beginTime == beginTime
    {
      match this
      case BasicAnimation(kp, from, to, d, b, _, fill) => BasicAnimation(kp, from, to, d, b, Some(f), fill)
      case AnimationGroup(rs, d, b, _, fill) => AnimationGroup(rs, d, b, Some(f), fill)
    }

    /** Assigns the `fillMode` property. */
    function SetFillMode(m: FillMode): (r: CARecord)
      ensures r.fillMode == m
      ensures SameContents(this, r)
      ensures r.duration == duration && r.beginTime == beginTime && r.timingFunction == timingFunction
    {
      match this
      case BasicAnimation(kp, from, to, d, b, tf, _) => BasicAnimation(kp, from, to, d, b, tf, m)
      case AnimationGroup(rs, d, b, tf, _) => AnimationGroup(rs, d, b, tf, m)
    }
  }

  /** Same kind of object with the same key path and values, or the same children. */
  predicate SameContents(r: CARecord, r': CARecord)
  {
    match r
    case BasicAnimation(kp, from, to, _, _, _, _) =>
      r'.BasicAnimation? && r'.keyPath == kp && r'.fromValue == from && r'.toValue == to
    case AnimationGroup(rs, _, _, _, _) =>
      r'.AnimationGroup? && r'.animations == rs
  }

  /** `r'` differs from `r` at most in its timing properties: same contents and fill mode. */
  predicate SameObject(r: CARecord, r': CARecord)
  {
    SameContents(r, r') && r'.fillMode == r.fillMode
  }

  /** `[CABasicAnimation animationWithKeyPath:keyPath]`. */
  function NewBasic(keyPath: KeyPath): (r: CARecord)
    ensures r.BasicAnimation? && r.keyPath == keyPath
    ensures r.fromValue.None? && r.toValue.None?
    ensures Untimed(r)
  {
    BasicAnimation(keyPath, None, None, None, 0.0, None, Removed)
  }

  /** `[CAAnimationGroup new]`. */
  function NewGroup(): (r: CARecord)
    ensures r.AnimationGroup? && r.animations == []
    ensures Untimed(r)
  {
    AnimationGroup([], None, 0.0, None, Removed)
  }

  /** Every timing property still has its Core Animation default. */
  predicate Untimed(r: CARecord)
  {
    r.duration.None? && r.beginTime == 0.0 && r.timingFunction.None? && r.fillMode == Removed
  }

  /**
   The object's duration, or 0.25 when it is unset: the `valueOr(0.25)` a
   sequence reads for each child. Says nothing about how Core Animation runs it.
   */
  function DurationOrDefault(r: CARecord): real
  {
    r.duration.ValueOr(DefaultDuration)
  }

  /** What a basic animation animates: the key path and its `from`/`to` values. */
  datatype Target = Target(keyPath: KeyPath, fromValue: Optional<Value>, toValue: Optional<Value>)

  /** The basic animations under `r`, left to right. */
  function Targets(r: CARecord): seq<Target>
    decreases r, 1
  {
    match r
    case BasicAnimation(kp, from, to, _, _, _, _) => [Target(kp, from, to)]
    case AnimationGroup(rs, _, _, _, _) => TargetsOfAll(rs)
  }

  function TargetsOfAll(rs: seq<CARecord>): seq<Target>
    decreases rs, 0
  {
    if rs == [] then [] else Targets(rs[0]) + TargetsOfAll(rs[1..])
  }
}
