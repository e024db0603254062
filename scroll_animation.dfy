/** The scroll-triggered animation wrapper: the named animation variants,
    the props and their defaults, how the props are merged into the variant
    handed to the animation library, and which command the in-view effect
    issues. */
module ScrollAnimation {
  import opened Js

  /** A value inside a `transition` object. */
  datatype TValue = TNum(r: real) | TUndefined | TEase(points: seq<real>) | TEaseName(name: string)

  /** The animated style of a variant (`opacity`, `x`, `y`, `scale`). */
  type Style = map<string, real>

  datatype Visible = Visible(style: Style, transition: map<string, TValue>)

  /** A variants object: the `hidden` style and the `visible` target. */
  datatype Variants = Variants(hidden: Style, visible: Visible)

  datatype Animation =
    | Default | StaggerContainer | FadeIn | FadeInUp | FadeInDown | FadeInLeft | FadeInRight | ZoomIn

  /** The `animations` table. Every variant starts transparent and ends
      opaque, gives a target to each property it hides, and every variant
      but the stagger container sets its own duration. */
  function Animations(a: Animation): (v: Variants)
    ensures "opacity" in v.hidden && v.hidden["opacity"] == 0.0
    ensures "opacity" in v.visible.style && v.visible.style["opacity"] == 1.0
    ensures v.hidden.Keys == v.visible.style.Keys
    ensures a != StaggerContainer <==> "duration" in v.visible.transition
  {
    match a
    case Default =>
      Variants(map["opacity" := 0.0, "y" := 50.0],
               Visible(map["opacity" := 1.0, "y" := 0.0],
                       map["duration" := TNum(0.6), "ease" := TEase([0.22, 1.0, 0.36, 1.0])]))
    case StaggerContainer => StaggerContainerVariants
    case FadeIn =>
      Variants(map["opacity" := 0.0], Visible(map["opacity" := 1.0], map["duration" := TNum(0.6)]))
    case FadeInUp =>
      Variants(map["opacity" := 0.0, "y" := 50.0],
               Visible(map["opacity" := 1.0, "y" := 0.0],
                       map["duration" := TNum(0.6), "ease" := TEaseName("easeOut")]))
    case FadeInDown =>
      Variants(map["opacity" := 0.0, "y" := -50.0],
               Visible(map["opacity" := 1.0, "y" := 0.0], map["duration" := TNum(0.6)]))
    case FadeInLeft =>
      Variants(map["opacity" := 0.0, "x" := -50.0],
               Visible(map["opacity" := 1.0, "x" := 0.0], map["duration" := TNum(0.6)]))
    case FadeInRight =>
      Variants(map["opacity" := 0.0, "x" := 50.0],
               Visible(map["opacity" := 1.0, "x" := 0.0], map["duration" := TNum(0.6)]))
    case ZoomIn =>
      Variants(map["opacity" := 0.0, "scale" := 0.8],
               Visible(map["opacity" := 1.0, "scale" := 1.0], map["duration" := TNum(0.5)]))
  }

  const StaggerContainerVariants :=
    Variants(map["opacity" := 0.0],
             Visible(map["opacity" := 1.0], map["staggerChildren" := TNum(0.2), "delayChildren" := TNum(0.1)]))

  /** The props as passed; `None` is an omitted (undefined) prop. */
  datatype Props = Props(
    animation: Option<Animation>,
    delay: Option<real>,
    duration: Option<real>,
    threshold: Option<real>,
    once: Option<bool>,
    stagger: Option<bool>,
    staggerDelay: Option<real>)

  /** The props after destructuring with defaults; `duration` has none. */
  datatype Settings = Settings(
    animation: Animation,
    delay: real,
    duration: Option<real>,
    threshold: real,
    once: bool,
    stagger: bool,
    staggerDelay: real)

  function OrElse<T>(o: Option<T>, d: T): T {
    if o.Some? then o.value else d
  }

  function ApplyDefaults(p: Props): (s: Settings)
    ensures p.animation.None? ==> s.animation == Default
    ensures p.delay.None? ==> s.delay == 0.0
    ensures s.duration == p.duration
    ensures p.threshold.None? ==> s.threshold == 0.1
    ensures p.once.None? ==> s.once
    ensures p.stagger.None? ==> !s.stagger
    ensures p.staggerDelay.None? ==> s.staggerDelay == 0.1
    ensures p.animation.Some? ==> s.animation == p.animation.value
    ensures p.delay.Some? ==> s.delay == p.delay.value
    ensures p.once.Some? ==> s.once == p.once.value
    ensures p.stagger.Some? ==> s.stagger == p.stagger.value
    ensures p.threshold.Some? ==> s.threshold == p.threshold.value
    ensures p.staggerDelay.Some? ==> s.staggerDelay == p.staggerDelay.value
  {
    Settings(OrElse(p.animation, Default), OrElse(p.delay, 0.0), p.duration, OrElse(p.threshold, 0.1),
             OrElse(p.once, true), OrElse(p.stagger, false), OrElse(p.staggerDelay, 0.1))
  }

  /** Truthiness of a number, and of an optional one. */
  predicate NumTruthy(r: real) { r != 0.0 }
  predicate OptTruthy(o: Option<real>) { o.Some? && NumTruthy(o.value) }

  /** `duration` as a transition value: undefined when omitted. */
  function DurationValue(d: Option<real>): TValue {
    if d.Some? then TNum(d.value) else TUndefined
  }

  /** `customVariant`: when `duration || delay`, the variant with both
      `delay` and `duration` spread over its visible transition. */
  function CustomVariant(s: Settings): (v: Variants)
    ensures v.hidden == Animations(s.animation).hidden
    ensures v.visible.style == Animations(s.animation).visible.style
    ensures !OptTruthy(s.duration) && !NumTruthy(s.delay) ==> v == Animations(s.animation)
    ensures OptTruthy(s.duration) || NumTruthy(s.delay) ==>
              "delay" in v.visible.transition && v.visible.transition["delay"] == TNum(s.delay)
  {
    var v := Animations(s.animation);
    if OptTruthy(s.duration) || NumTruthy(s.delay) then
      v.(visible := v.visible.(transition :=
           v.visible.transition["delay" := TNum(s.delay)]["duration" := DurationValue(s.duration)]))
    else v
  }

  /** `staggerVariant`: with `stagger`, the stagger container with the
      children's stagger and delay taken from the props. */
  function StaggerVariant(s: Settings): (v: Variants)
    ensures s.stagger ==> v.hidden == StaggerContainerVariants.hidden
    ensures s.stagger ==> v.visible.transition.Keys == {"staggerChildren", "delayChildren"}
    ensures !s.stagger ==> v.hidden == Animations(s.animation).hidden
  {
    if s.stagger then
      StaggerContainerVariants.(visible := StaggerContainerVariants.visible.(transition :=
        StaggerContainerVariants.visible.transition["staggerChildren" := TNum(s.staggerDelay)]["delayChildren" := TNum(s.delay)]))
    else CustomVariant(s)
  }

  /** With no duration, no delay and no stagger the named variant passes
      through unchanged. */
  lemma PassThrough(s: Settings)
    requires !OptTruthy(s.duration) && !NumTruthy(s.delay) && !s.stagger
    ensures StaggerVariant(s) == Animations(s.animation)
  {
  }

  /** With a truthy duration or delay the visible transition keeps every
      other key of the variant's transition and takes both `delay` and
      `duration` from the props; the styles stay as they were. */
  lemma CustomTransition(s: Settings)
    requires OptTruthy(s.duration) || NumTruthy(s.delay)
    requires !s.stagger
    ensures var base, t := Animations(s.animation), StaggerVariant(s).visible.transition;
            t["delay"] == TNum(s.delay) && t["duration"] == DurationValue(s.duration) &&
            t.Keys == base.visible.transition.Keys + {"delay", "duration"} &&
            (forall k :: k in base.visible.transition && k != "delay" && k != "duration" ==>
                           t[k] == base.visible.transition[k]) &&
            StaggerVariant(s).visible.style == base.visible.style
  {
  }

  /** A delay without a duration replaces the variant's own duration with
      `undefined`. */
  lemma DelayOnlyClearsDuration(s: Settings)
    requires NumTruthy(s.delay) && s.duration.None? && !s.stagger
    requires s.animation != StaggerContainer
    ensures "duration" in Animations(s.animation).visible.transition
    ensures Animations(s.animation).visible.transition["duration"].TNum?
    ensures StaggerVariant(s).visible.transition["duration"] == TUndefined
  {
  }

  /** With `stagger` the animation and the duration are ignored: the result
      is the stagger container whose children stagger by `staggerDelay` and
      start after `delay`. */
  lemma StaggerIgnoresAnimation(s: Settings, a: Animation, d: Option<real>)
    requires s.stagger
    ensures StaggerVariant(s) == StaggerVariant(s.(animation := a, duration := d))
    ensures StaggerVariant(s).visible.transition["staggerChildren"] == TNum(s.staggerDelay)
    ensures StaggerVariant(s).visible.transition["delayChildren"] == TNum(s.delay)
    ensures StaggerVariant(s).visible.style == StaggerContainerVariants.visible.style
  {
  }

  /** Neither merge touches the `hidden` style. */
  lemma HiddenUnchanged(s: Settings)
    ensures StaggerVariant(s).hidden
         == (if s.stagger then StaggerContainerVariants else Animations(s.animation)).hidden
  {
  }

  /** A command the effect sends to the animation controls. */
  datatype Command = StartVisible | StartHidden | NoCommand

  /** The effect: in view starts 'visible'; out of view starts 'hidden'
      unless `once`, in which case nothing is sent. */
  function ControlCommand(isInView: bool, once: bool): (c: Command)
    ensures c == StartVisible <==> isInView
    ensures c == StartHidden <==> !isInView && !once
  {
    if isInView then StartVisible else if !once then StartHidden else NoCommand
  }

  /** The label the controls animate towards after a command. */
  function AfterCommand(current: string, c: Command): string {
    match c
    case StartVisible => "visible"
    case StartHidden => "hidden"
    case NoCommand => current
  }

  /** The three cases, and that with `once` the element is never hidden
      again once it has become visible. */
  lemma ControlDecision(isInView: bool, once: bool, current: string)
    ensures ControlCommand(isInView, once) == StartVisible <==> isInView
    ensures ControlCommand(isInView, once) == StartHidden <==> !isInView && !once
    ensures ControlCommand(isInView, once) == NoCommand <==> !isInView && once
    ensures once && current == "visible" ==> AfterCommand(current, ControlCommand(isInView, once)) == "visible"
  {
  }

  /** The animation controls, which start at the `initial` label. */
  class Controls {
    var target: string

    constructor ()
      ensures target == "hidden"
    {
      target := "hidden";
    }

    /** The `useEffect` body, run when `isInView` or `once` changes. */
    method OnInViewChange(isInView: bool, once: bool)
      modifies this
      ensures target == AfterCommand(old(target), ControlCommand(isInView, once))
    {
      if isInView {
        target := "visible";
      } else if !once {
        target := "hidden";
      }
    }
  }
}
