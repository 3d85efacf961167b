/**
 * The one-shot reveal trigger of app/AnimatedContent.tsx and the lifecycle of its
 * visibility observer. The browser's IntersectionObserver is abstracted to what the
 * component does with it: an observer created with a threshold, the element observed
 * by it or not, a callback receiving `isIntersecting`, and a disconnect on teardown.
 *
 * `Step` is the reference definition of one event; the class `RevealTrigger` holds the
 * same state in fields and its methods are proved against `Step`.
 */
module RevealLifecycle {
  import opened Wrappers
  import opened AnimatedContent

  /**
   * The state of one mounted wrapper: the `isVisible` flag, whether the element is an
   * observation target, and the threshold of the observer the last effect created
   * (`None` when there is none, or it has been disconnected).
   */
  datatype Reveal = Reveal(isVisible: bool, subscribed: bool, observer: Option<real>)

  /** An element is only ever observed by a live observer. */
  predicate WellFormed(s: Reveal)
  {
    s.subscribed ==> s.observer.Some?
  }

  /** A freshly mounted wrapper, before its effect has run. */
  const Initial: Reveal := Reveal(false, false, None)

  datatype Event =
    /** The effect runs: on mount, and again whenever `threshold` changes. React runs
        the previous run's cleanup first. `elementPresent` is whether the ref is set. */
    | Effect(elementPresent: bool, threshold: real)
    /** The observer's callback, with the `isIntersecting` of the first entry it is
        handed (the callback destructures `[entry]` and reads no other). */
    | Intersect(isIntersecting: bool)
    /** The wrapper is torn down: the last effect's cleanup runs. */
    | Unmount

  /** The thresholds the IntersectionObserver constructor accepts; any other number makes
      it throw a RangeError. */
  predicate ValidThreshold(threshold: real)
  {
    0.0 <= threshold <= 1.0
  }

  /** The cleanup an effect registered: disconnect the observer. An effect that found no
      element registered none, and then there is no observer to release either. */
  function Cleanup(s: Reveal): (r: Reveal)
    ensures r.isVisible == s.isVisible
    ensures !r.subscribed && r.observer == None
  {
    Reveal(s.isVisible, false, None)
  }

  /**
   * The effect body: without an element it returns early; with one it creates an observer
   * with the threshold and observes the element. A threshold the constructor rejects
   * throws before `observe` and before any cleanup is registered, so nothing changes.
   */
  function Attach(s: Reveal, elementPresent: bool, threshold: real): (r: Reveal)
    ensures r.isVisible == s.isVisible
    ensures !elementPresent || !ValidThreshold(threshold) ==> r == s
    ensures elementPresent && ValidThreshold(threshold) ==> r.subscribed && r.observer == Some(threshold)
  {
    if elementPresent && ValidThreshold(threshold) then Reveal(s.isVisible, true, Some(threshold)) else s
  }

  /** The observer callback: an intersecting entry sets the flag and unobserves the
      element; a non-intersecting one does nothing. */
  function Notify(s: Reveal, isIntersecting: bool): (r: Reveal)
    ensures !isIntersecting ==> r == s
    ensures isIntersecting ==> r.isVisible && !r.subscribed && r.observer == s.observer
  {
    if isIntersecting then s.(isVisible := true, subscribed := false) else s
  }

  function Step(s: Reveal, e: Event): (r: Reveal)
    ensures r.isVisible <==> s.isVisible || e == Intersect(true)
    ensures WellFormed(s) ==> WellFormed(r)
    ensures e.Effect? ==> r.subscribed == (e.elementPresent && ValidThreshold(e.threshold))
    ensures e.Unmount? ==> !r.subscribed && r.observer == None
  {
    match e
    case Effect(present, threshold) => Attach(Cleanup(s), present, threshold)
    case Intersect(b) => Notify(s, b)
    case Unmount => Cleanup(s)
  }

  /** The state after a sequence of events. */
  function Run(s: Reveal, t: seq<Event>): (r: Reveal)
    decreases |t|
  {
    if t == [] then s else Run(Step(s, t[0]), t[1..])
  }

  /** The delivery assumption: the observer only notifies about elements it observes, so
      every callback in `t` happens while the element is subscribed. A callback queued
      before a disconnect is outside this assumption. */
  predicate Delivered(s: Reveal, t: seq<Event>)
    decreases |t|
  {
    t == [] || ((t[0].Intersect? ==> s.subscribed) && Delivered(Step(s, t[0]), t[1..]))
  }

  /** The number of intersecting callbacks in `t`. */
  function Triggers(t: seq<Event>): (n: nat)
  {
    if t == [] then 0 else (if t[0] == Intersect(true) then 1 else 0) + Triggers(t[1..])
  }

  /** The number of effect runs in `t` that found an element and subscribed it. */
  function Subscriptions(t: seq<Event>): (n: nat)
  {
    if t == [] then 0
    else (if t[0].Effect? && t[0].elementPresent && ValidThreshold(t[0].threshold) then 1 else 0)
         + Subscriptions(t[1..])
  }

  function Indicator(b: bool): (n: nat)
  {
    if b then 1 else 0
  }

  /** The flag is set at the end exactly when it was set at the start or some callback
      reported an intersection: it never goes back to false. */
  lemma {:induction false} VisibleExactlyWhenIntersected(s: Reveal, t: seq<Event>)
    ensures Run(s, t).isVisible <==> s.isVisible || Intersect(true) in t
    decreases |t|
  {
    if t != [] {
      VisibleExactlyWhenIntersected(Step(s, t[0]), t[1..]);
      assert t == [t[0]] + t[1..];
    }
  }

  /** Revealed stays revealed, whatever happens next. */
  lemma VisibleNeverReverts(s: Reveal, t: seq<Event>)
    requires s.isVisible
    ensures Run(s, t).isVisible
  {
    VisibleExactlyWhenIntersected(s, t);
  }

  /** Every reachable state is well formed. */
  lemma {:induction false} RunKeepsWellFormed(s: Reveal, t: seq<Event>)
    requires WellFormed(s)
    ensures WellFormed(Run(s, t))
    decreases |t|
  {
    if t != [] {
      RunKeepsWellFormed(Step(s, t[0]), t[1..]);
    }
  }

  /** Each subscription yields at most one trigger: the callback unobserves the element,
      so no second notification arrives until the effect subscribes it again. */
  lemma {:induction false} AtMostOneTriggerPerSubscription(s: Reveal, t: seq<Event>)
    requires Delivered(s, t)
    ensures Triggers(t) + Indicator(Run(s, t).subscribed) <= Indicator(s.subscribed) + Subscriptions(t)
    decreases |t|
  {
    if t != [] {
      AtMostOneTriggerPerSubscription(Step(s, t[0]), t[1..]);
    }
  }

  /** From a fresh mount, the number of triggers never exceeds the number of subscriptions. */
  lemma TriggersBoundedFromMount(t: seq<Event>)
    requires Delivered(Initial, t)
    ensures Triggers(t) <= Subscriptions(t)
  {
    AtMostOneTriggerPerSubscription(Initial, t);
  }

  /** While no effect runs, an unsubscribed element hears nothing and its flag is fixed. */
  lemma {:induction false} QuietWhileUnsubscribed(s: Reveal, t: seq<Event>)
    requires !s.subscribed && Delivered(s, t)
    requires forall i :: 0 <= i < |t| ==> !t[i].Effect?
    ensures Run(s, t).isVisible == s.isVisible && !Run(s, t).subscribed
    decreases |t|
  {
    if t != [] {
      QuietWhileUnsubscribed(Step(s, t[0]), t[1..]);
    }
  }

  /** Teardown releases the observer whether or not the trigger fired, and an element torn
      down before its trigger stays unrevealed. */
  lemma TeardownReleases(s: Reveal, rest: seq<Event>)
    requires Delivered(s, [Unmount] + rest)
    requires forall i :: 0 <= i < |rest| ==> !rest[i].Effect?
    ensures Step(s, Unmount).observer == None && !Step(s, Unmount).subscribed
    ensures Run(s, [Unmount] + rest).isVisible == s.isVisible
  {
    var t := [Unmount] + rest;
    assert t[0] == Unmount && t[1..] == rest;
    QuietWhileUnsubscribed(Step(s, Unmount), rest);
  }

  /** Without an element no observer is created, so nothing can reveal the wrapper. */
  lemma {:induction false} NoElementNoSubscription(t: seq<Event>)
    requires Delivered(Initial, t)
    requires forall i :: 0 <= i < |t| ==> t[i].Effect? ==> !t[i].elementPresent
    ensures Run(Initial, t) == Initial
    decreases |t|
  {
    if t != [] {
      assert !t[0].Intersect?;
      assert Step(Initial, t[0]) == Initial;
      NoElementNoSubscription(t[1..]);
    }
  }

  /** A second intersecting callback after the first changes nothing. */
  lemma IntersectIdempotent(s: Reveal)
    ensures Step(Step(s, Intersect(true)), Intersect(true)) == Step(s, Intersect(true))
  {
  }

  /** Re-running the effect for a new threshold re-subscribes and keeps the flag; a
      threshold the observer rejects leaves the element unobserved, flag kept. */
  lemma ThresholdChangeKeepsFlag(s: Reveal, threshold: real)
    ensures ValidThreshold(threshold) ==>
              Step(s, Effect(true, threshold)) == Reveal(s.isVisible, true, Some(threshold))
    ensures !ValidThreshold(threshold) ==>
              Step(s, Effect(true, threshold)) == Reveal(s.isVisible, false, None)
  {
  }

  /** A threshold change after the reveal observes the element again. */
  lemma ResubscribedAfterReveal()
    ensures Run(Initial, [Effect(true, 0.1), Intersect(true), Effect(true, 0.5)])
         == Reveal(true, true, Some(0.5))
  {
    var t := [Effect(true, 0.1), Intersect(true), Effect(true, 0.5)];
    assert t[1..] == [Intersect(true), Effect(true, 0.5)];
    assert t[1..][1..] == [Effect(true, 0.5)];
  }

  /** Once revealed, the rendered style is the revealed one from then on. */
  lemma StyleNeverReverts(c: Config, s: Reveal, t: seq<Event>)
    requires s.isVisible
    ensures ComputeStyle(c, Run(s, t).isVisible) == ComputeStyle(c, true)
  {
    VisibleNeverReverts(s, t);
  }

  /** The wrapper's state kept in fields, updated in place by the effect, the callback and
      the cleanup. */
  class RevealTrigger {
    var isVisible: bool
    var subscribed: bool
    var observer: Option<real>

    function State(): (r: Reveal)
      reads this
    {
      Reveal(isVisible, subscribed, observer)
    }

    ghost predicate Valid()
      reads this
    {
      WellFormed(State())
    }

    /** `useState(false)`: mounted, not yet visible, not yet observed. */
    constructor ()
      ensures Valid() && State() == Initial
    {
      isVisible := false;
      subscribed := false;
      observer := None;
    }

    /** The effect body; React has run any earlier cleanup, so no observer is live. */
    method Subscribe(elementPresent: bool, threshold: real)
      requires Valid() && observer == None
      modifies this
      ensures Valid() && State() == Step(old(State()), Effect(elementPresent, threshold))
      ensures isVisible == old(isVisible)
      ensures subscribed == (elementPresent && ValidThreshold(threshold))
      ensures observer == if subscribed then Some(threshold) else None
    {
      if !elementPresent || !ValidThreshold(threshold) {
        return;
      }
      observer := Some(threshold);
      subscribed := true;
    }

    /** The intersection callback. */
    method OnIntersect(isIntersecting: bool)
      requires Valid()
      modifies this
      ensures Valid() && State() == Step(old(State()), Intersect(isIntersecting))
      ensures old(isVisible) ==> isVisible
      ensures !isIntersecting ==> State() == old(State())
      ensures isIntersecting ==> isVisible && !subscribed && observer == old(observer)
    {
      if isIntersecting {
        isVisible := true;
        subscribed := false;
      }
    }

    /** The cleanup: disconnect the observer, whether or not the trigger fired. */
    method Detach()
      requires Valid()
      modifies this
      ensures Valid() && State() == Step(old(State()), Unmount)
      ensures isVisible == old(isVisible) && !subscribed && observer == None
    {
      subscribed := false;
      observer := None;
    }

    /** A `threshold` change: React runs the cleanup, then the effect again. */
    method ThresholdChanged(elementPresent: bool, threshold: real)
      requires Valid()
      modifies this
      ensures Valid() && State() == Step(old(State()), Effect(elementPresent, threshold))
      ensures isVisible == old(isVisible)
    {
      Detach();
      Subscribe(elementPresent, threshold);
    }
  }
}
