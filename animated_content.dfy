/**
 * The scroll-reveal wrapper of app/AnimatedContent.tsx, as a pure function of its
 * configuration and of whether the element has been revealed: the prop defaults, the
 * signed offset, the transform, the opacity and the transition. The style is kept as a
 * structured value; numbers stay reals and are not formatted into CSS text.
 */
module AnimatedContent {
  import opened Wrappers
  import opened Easing

  datatype Direction = Vertical | Horizontal

  /** The props as the caller passes them; `None` is a prop left `undefined`. */
  datatype Props = Props(
    distance: Option<real>,
    direction: Option<Direction>,
    reverse: Option<bool>,
    duration: Option<real>,
    ease: Option<string>,
    initialOpacity: Option<real>,
    animateOpacity: Option<bool>,
    scale: Option<real>,
    threshold: Option<real>,
    delay: Option<real>)

  /** The props after the parameter defaults have been applied. */
  datatype Config = Config(
    distance: real,
    direction: Direction,
    reverse: bool,
    duration: real,
    ease: string,
    initialOpacity: real,
    animateOpacity: bool,
    scale: real,
    threshold: real,
    delay: real)

  const DefaultDistance: real := 100.0
  const DefaultDirection: Direction := Vertical
  const DefaultReverse: bool := false
  const DefaultDuration: real := 0.8
  const DefaultEase: string := Power3Out
  const DefaultInitialOpacity: real := 0.0
  const DefaultAnimateOpacity: bool := true
  const DefaultScale: real := 1.0
  const DefaultThreshold: real := 0.1
  const DefaultDelay: real := 0.0

  /** No prop given at all. */
  const NoProps: Props := Props(None, None, None, None, None, None, None, None, None, None)

  /**
   * Destructuring with defaults: a prop that is given is kept as it is, and an omitted
   * one takes its default.
   */
  function WithDefaults(p: Props): (c: Config)
    ensures p.distance.Some? ==> c.distance == p.distance.value
    ensures p.direction.Some? ==> c.direction == p.direction.value
    ensures p.reverse.Some? ==> c.reverse == p.reverse.value
    ensures p.duration.Some? ==> c.duration == p.duration.value
    ensures p.ease.Some? ==> c.ease == p.ease.value
    ensures p.initialOpacity.Some? ==> c.initialOpacity == p.initialOpacity.value
    ensures p.animateOpacity.Some? ==> c.animateOpacity == p.animateOpacity.value
    ensures p.scale.Some? ==> c.scale == p.scale.value
    ensures p.threshold.Some? ==> c.threshold == p.threshold.value
    ensures p.delay.Some? ==> c.delay == p.delay.value
    ensures p.distance.None? ==> c.distance == DefaultDistance
    ensures p.direction.None? ==> c.direction == DefaultDirection
    ensures p.reverse.None? ==> c.reverse == DefaultReverse
    ensures p.duration.None? ==> c.duration == DefaultDuration
    ensures p.ease.None? ==> c.ease == DefaultEase
    ensures p.initialOpacity.None? ==> c.initialOpacity == DefaultInitialOpacity
    ensures p.animateOpacity.None? ==> c.animateOpacity == DefaultAnimateOpacity
    ensures p.scale.None? ==> c.scale == DefaultScale
    ensures p.threshold.None? ==> c.threshold == DefaultThreshold
    ensures p.delay.None? ==> c.delay == DefaultDelay
    ensures p == NoProps ==> c == Config(100.0, Vertical, false, 0.8, "power3.out",
                                         0.0, true, 1.0, 0.1, 0.0)
  {
    Config(
      p.distance.GetOr(DefaultDistance),
      p.direction.GetOr(DefaultDirection),
      p.reverse.GetOr(DefaultReverse),
      p.duration.GetOr(DefaultDuration),
      p.ease.GetOr(DefaultEase),
      p.initialOpacity.GetOr(DefaultInitialOpacity),
      p.animateOpacity.GetOr(DefaultAnimateOpacity),
      p.scale.GetOr(DefaultScale),
      p.threshold.GetOr(DefaultThreshold),
      p.delay.GetOr(DefaultDelay))
  }

  datatype Axis = AxisX | AxisY

  /** `translateX(px)` / `translateY(px)`, or the resting `translate(0, 0)`. */
  datatype Translate = TranslateAlong(axis: Axis, px: real) | TranslateOrigin

  /** A translate followed by `scale(factor)`. */
  datatype Transform = Transform(translate: Translate, factor: real)

  /** One transition channel: duration in seconds, easing curve, delay in seconds. */
  datatype Timing = Timing(durationSeconds: real, easing: string, delaySeconds: real)

  /** The `transition` value: the transform channel and the opacity channel. */
  datatype Transition = Transition(transform: Timing, opacity: Timing)

  datatype Style = Style(transform: Transform, opacity: real, transition: Transition, willChange: string)

  /** The transform of a revealed element: `translate(0, 0) scale(1)`. */
  const RestingTransform: Transform := Transform(TranslateOrigin, 1.0)

  /** The signed translation distance: the distance, negated when reversed. */
  function Offset(c: Config): (r: real)
    ensures !c.reverse ==> r == c.distance
    ensures c.reverse ==> r == -c.distance
  {
    if c.reverse then -c.distance else c.distance
  }

  /** The axis the offset is applied along. */
  function AxisOf(d: Direction): (a: Axis)
    ensures a == AxisY <==> d == Vertical
  {
    if d == Vertical then AxisY else AxisX
  }

  /** The transition: both channels share duration, resolved easing and delay. */
  function TransitionOf(c: Config): (t: Transition)
    ensures t.transform == t.opacity
    ensures t.transform == Timing(c.duration, ResolveEase(Some(c.ease)), c.delay)
  {
    var timing := Timing(c.duration, ResolveEase(Some(c.ease)), c.delay);
    Transition(timing, timing)
  }

  /**
   * The inline style of the wrapper. Hidden: offset translate along the configured axis,
   * then the configured scale; opacity `initialOpacity` when opacity is animated.
   * Revealed: the resting transform and full opacity. Without opacity animation the
   * opacity is 1 in both states.
   */
  function ComputeStyle(c: Config, isVisible: bool): (s: Style)
    ensures isVisible ==> s.transform == RestingTransform && s.opacity == 1.0
    ensures !isVisible ==> s.transform == Transform(TranslateAlong(AxisOf(c.direction), Offset(c)), c.scale)
    ensures !c.animateOpacity ==> s.opacity == 1.0
    ensures c.animateOpacity && !isVisible ==> s.opacity == c.initialOpacity
    ensures s.transition.transform == s.transition.opacity
    ensures s.transition.transform == Timing(c.duration, ResolveEase(Some(c.ease)), c.delay)
    ensures s.willChange == "transform, opacity"
  {
    var translate := TranslateAlong(AxisOf(c.direction), Offset(c));
    Style(
      if isVisible then RestingTransform else Transform(translate, c.scale),
      if c.animateOpacity then (if isVisible then 1.0 else c.initialOpacity) else 1.0,
      TransitionOf(c),
      "transform, opacity")
  }

  /** The direction picks the axis only; it never changes the offset's size or sign. */
  lemma OffsetIgnoresDirection(c: Config, d: Direction)
    ensures Offset(c.(direction := d)) == Offset(c)
    ensures ComputeStyle(c.(direction := Horizontal), false).transform.translate == TranslateAlong(AxisX, Offset(c))
    ensures ComputeStyle(c.(direction := Vertical), false).transform.translate == TranslateAlong(AxisY, Offset(c))
  {
  }

  /** Reversing negates the offset, all else equal. */
  lemma ReverseNegatesOffset(c: Config)
    ensures Offset(c.(reverse := true)) == -Offset(c.(reverse := false))
  {
  }

  /** Once revealed, transform and opacity are the same whatever the configuration. */
  lemma RevealedStyleIgnoresConfig(c1: Config, c2: Config)
    ensures ComputeStyle(c1, true).transform == ComputeStyle(c2, true).transform == RestingTransform
    ensures ComputeStyle(c1, true).opacity == ComputeStyle(c2, true).opacity == 1.0
  {
  }

  /** With every prop omitted: slide up 100px from full transparency, ease-out over 0.8s. */
  lemma DefaultScenario()
    ensures ComputeStyle(WithDefaults(NoProps), false)
         == Style(Transform(TranslateAlong(AxisY, 100.0), 1.0), 0.0,
                  Transition(Timing(0.8, DefaultCurve, 0.0), Timing(0.8, DefaultCurve, 0.0)),
                  "transform, opacity")
    ensures ComputeStyle(WithDefaults(NoProps), true).transform == Transform(TranslateOrigin, 1.0)
    ensures ComputeStyle(WithDefaults(NoProps), true).opacity == 1.0
  {
    DefaultNameResolvesToDefaultCurve();
  }
}
