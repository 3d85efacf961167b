# Scroll-reveal wrapper and gradient text: a verified model

This project models the two pieces of logic in a static portfolio site:

- **`AnimatedContent`** (app/AnimatedContent.tsx) is a wrapper that slides and fades its children
  into place the first time they scroll into view. The model covers these parts:
  - the easing lookup `resolveEase`;
  - the prop defaults;
  - the style computation: signed offset, `translateX`/`translateY`, scale, opacity, and the two
    transition channels;
  - the one-shot `isVisible` flag, driven by a visibility observer that is subscribed,
    unobserved after the trigger, and disconnected on teardown.
- **`GradientText`** (app/components/GradientText.tsx) repeats its colour list twice inside a
  `linear-gradient(90deg, ...)` background and builds a class string from a base class, an
  optional border class and the caller's classes.

Files:

- `wrappers.dfy`: the `Option` type. `None` stands for a prop left `undefined`.
- `easing.dfy` (module `Easing`): the preset table and `ResolveEase`. It also holds the lookup as
  written, with the JavaScript prototype chain (see Findings).
- `animated_content.dfy` (module `AnimatedContent`): props, defaults and the pure style function
  `ComputeStyle`. The style is a structured value, with numbers kept as reals.
- `reveal_lifecycle.dfy` (module `RevealLifecycle`): the trigger and observer lifecycle.
  - `Step` is the reference definition of one event: effect run, intersection callback or
    teardown.
  - `Run` folds `Step` over a sequence of events.
  - `Delivered` says the platform only notifies observed elements.
  - The class `RevealTrigger` keeps the same state in fields. Its methods are proved against
    `Step`.
- `gradient_text.dfy` (module `GradientText`): `Join` (`Array.prototype.join`), `Doubled`,
  `Gradient`, `ClassName` and `Render`, and lemmas about where each colour occurs in the gradient.

Places where the code differs from a natural reading of the component's design (the model
follows the code):

- The observer subscription is not released for good once the element is revealed. The effect
  depends on `threshold` and does not look at `isVisible`. When `threshold` changes after the
  reveal, the effect observes the element again (`RevealLifecycle.ResubscribedAfterReveal`).
  Any further callback is harmless, because it sets the flag to `true` again.
- `resolveEase` treats the empty string like a missing name (`!ease`). An empty `ease` prop
  therefore gets the default curve and is not passed through.
- An effect run that finds no element registers no cleanup. Teardown then has no observer to
  disconnect.
- The class string holds the border class exactly when `showBorder` is set **or** the caller's
  own `className` already contains it (`GradientText.ClassNameBorderIff`).
- With `showBorder` off, the class string has two spaces in a row. With no caller classes, it
  ends in a space.
- With an empty colour list the gradient is `linear-gradient(90deg, )`.

## Model

| member | source | states |
|---|---|---|
| `Easing.Falsy` | app/AnimatedContent.tsx:29 | a name is falsy exactly when, read with `""` for a missing name, it is the empty string |
| `Easing.ResolveEase` | app/AnimatedContent.tsx:22-31 | a missing or empty name gives `cubic-bezier(0.22, 1, 0.36, 1)`; `power3.out`, `power2.out` and `power1.out` give their fixed curves; any other name is returned unchanged; the result is never empty |
| `Easing.CurvesAreNotPresetNames` | app/AnimatedContent.tsx:22-31 | no resolved curve is itself one of the preset names |
| `Easing.ResolveEaseIdempotent` | app/AnimatedContent.tsx:22-31 | resolving an already resolved curve gives the same curve |
| `Easing.DefaultNameResolvesToDefaultCurve` | app/AnimatedContent.tsx:23-39 | the default prop `power3.out`, a missing name and the empty name all resolve to the same default curve |
| `Easing.UnknownNamePassesThrough` | app/AnimatedContent.tsx:30 | an unrecognised name such as `ease-in-out` is passed through unchanged |
| `Easing.EaseMapIndex` | app/AnimatedContent.tsx:22-30 | indexing the object literal gives the preset curve for its own keys; for Object.prototype's property names it gives a non-string; for anything else it gives `undefined` |
| `Easing.ResolveEaseAsWritten` | app/AnimatedContent.tsx:28-31 | the lookup as written: a falsy name gives the default curve; an inherited prototype name yields a value that is not a string |
| `Easing.AsWrittenAgreesOffPrototype` | app/AnimatedContent.tsx:28-31 | on every name that Object.prototype does not carry, the lookup as written agrees with `ResolveEase` |
| `Easing.AsWrittenToStringIsNotACurve` | app/AnimatedContent.tsx:30 | the name `toString` resolves to a function as written, but to `"toString"` in the intended lookup |
| `AnimatedContent.WithDefaults` | app/AnimatedContent.tsx:33-45 | a prop that is given is kept; a prop left out takes its default (distance 100, vertical, not reversed, duration 0.8, ease `power3.out`, initial opacity 0, opacity animated, scale 1, threshold 0.1, delay 0), each independently of the others; with no props the configuration is distance 100, vertical, not reversed, duration 0.8, ease `power3.out`, initial opacity 0, opacity animated, scale 1, threshold 0.1, delay 0 |
| `AnimatedContent.Offset` | app/AnimatedContent.tsx:68 | the offset is the distance when not reversed and its negation when reversed |
| `AnimatedContent.AxisOf` | app/AnimatedContent.tsx:69-72 | the translation is along Y exactly when the direction is vertical |
| `AnimatedContent.TransitionOf` | app/AnimatedContent.tsx:73-74 | the transform and opacity channels share one duration, resolved easing and delay |
| `AnimatedContent.ComputeStyle` | app/AnimatedContent.tsx:68-85 | hidden: the offset translate along the configured axis, then `scale(scale)`; revealed: `translate(0, 0) scale(1)` with opacity 1; opacity is 1 when not animated and `initialOpacity` while hidden otherwise; both channels share the resolved timing |
| `AnimatedContent.OffsetIgnoresDirection` | app/AnimatedContent.tsx:68-72 | the direction only chooses the axis; the offset's size and sign are the same on both axes |
| `AnimatedContent.ReverseNegatesOffset` | app/AnimatedContent.tsx:68 | reversing negates the offset, all else equal |
| `AnimatedContent.RevealedStyleIgnoresConfig` | app/AnimatedContent.tsx:81-82 | once revealed, transform and opacity are the same for every configuration |
| `AnimatedContent.DefaultScenario` | app/AnimatedContent.tsx:35-85 | with no props: `translateY(100px) scale(1)` at opacity 0 with a 0.8s default-curve transition; after the reveal, `translate(0, 0) scale(1)` at opacity 1 |
| `RevealLifecycle.Cleanup` | app/AnimatedContent.tsx:65 | the registered cleanup leaves no subscription and no observer and keeps the flag |
| `RevealLifecycle.Attach` | app/AnimatedContent.tsx:51-64 | the effect body keeps the flag; with an element and a threshold in [0, 1] it observes the element with an observer for that threshold; without an element, or when the constructor rejects the threshold, the state is unchanged |
| `RevealLifecycle.Notify` | app/AnimatedContent.tsx:55-59 | a non-intersecting entry changes nothing; an intersecting one sets the flag and unobserves the element, leaving the observer itself alive |
| `RevealLifecycle.Step` | app/AnimatedContent.tsx:50-66 | the flag is set afterwards exactly when it was set before or the event is an intersecting callback; well-formedness is kept; an effect run leaves the element subscribed exactly when there is an element and the threshold lies in [0, 1]; teardown leaves no subscription and no observer |
| `RevealLifecycle.VisibleExactlyWhenIntersected` | app/AnimatedContent.tsx:48-59 | after any events the flag is set exactly when it started set or some callback reported an intersection |
| `RevealLifecycle.VisibleNeverReverts` | app/AnimatedContent.tsx:48-57 | once set, the flag stays set whatever happens next |
| `RevealLifecycle.RunKeepsWellFormed` | app/AnimatedContent.tsx:50-66 | an element is only ever observed by a live observer, in every reachable state |
| `RevealLifecycle.AtMostOneTriggerPerSubscription` | app/AnimatedContent.tsx:55-64 | when only observed elements are notified, intersecting callbacks never outnumber subscriptions, because each callback unobserves the element |
| `RevealLifecycle.TriggersBoundedFromMount` | app/AnimatedContent.tsx:48-64 | from a fresh mount, triggers are at most the subscriptions made |
| `RevealLifecycle.QuietWhileUnsubscribed` | app/AnimatedContent.tsx:55-65 | given `Delivered`, while no effect runs an element that is not observed gets no callbacks, so its flag cannot change |
| `RevealLifecycle.TeardownReleases` | app/AnimatedContent.tsx:65 | teardown disconnects the observer whether or not the trigger fired; given `Delivered` (no callback after the disconnect), a wrapper torn down before its trigger stays unrevealed |
| `RevealLifecycle.NoElementNoSubscription` | app/AnimatedContent.tsx:51-52 | if the effect never finds an element, no subscription is made and the state stays the initial one |
| `RevealLifecycle.IntersectIdempotent` | app/AnimatedContent.tsx:55-59 | a second intersecting callback changes nothing |
| `RevealLifecycle.ThresholdChangeKeepsFlag` | app/AnimatedContent.tsx:50-66 | re-running the effect for a new threshold in [0, 1] subscribes again with that threshold; for a threshold outside [0, 1] the old observer is gone and no new one observes the element; either way the flag is kept |
| `RevealLifecycle.ResubscribedAfterReveal` | app/AnimatedContent.tsx:50-66 | a threshold change after the reveal observes the element again, with the flag still set |
| `RevealLifecycle.StyleNeverReverts` | app/AnimatedContent.tsx:81-82 | once revealed, the style is the revealed style from then on |
| `RevealLifecycle.RevealTrigger.constructor` | app/AnimatedContent.tsx:48 | a new wrapper is not visible, not observed and has no observer |
| `RevealLifecycle.RevealTrigger.Subscribe` | app/AnimatedContent.tsx:50-64 | the effect body: with an element and a threshold in [0, 1], it creates an observer with the threshold and observes the element; without an element, or when the constructor throws on the threshold, nothing changes; the flag is untouched |
| `RevealLifecycle.RevealTrigger.OnIntersect` | app/AnimatedContent.tsx:55-59 | the callback: an intersecting entry sets the flag and unobserves; a non-intersecting one changes nothing; the flag never goes back to false |
| `RevealLifecycle.RevealTrigger.Detach` | app/AnimatedContent.tsx:65 | the cleanup disconnects unconditionally and keeps the flag |
| `RevealLifecycle.RevealTrigger.ThresholdChanged` | app/AnimatedContent.tsx:50-66 | cleanup then effect: state as `Step` of an effect run, flag unchanged |
| `GradientText.Join` | app/components/GradientText.tsx:21 | the joined length is the total element length plus one separator between each pair of neighbours; a single element joins to itself |
| `GradientText.JoinAt` | app/components/GradientText.tsx:21 | element `i` occurs in the joined string at its computed start position |
| `GradientText.StartOrdered` | app/components/GradientText.tsx:21 | elements occur in list order, with room for at least one separator after each one before any later one |
| `GradientText.SeparatorFollows` | app/components/GradientText.tsx:21 | element `i + 1` begins exactly one separator after element `i` ends, and the characters between them are the separator |
| `GradientText.JoinAppend` | app/components/GradientText.tsx:20-21 | joining two non-empty lists is joining each one and putting one separator between them |
| `GradientText.Doubled` | app/components/GradientText.tsx:20 | the doubled list is twice as long, and each half equals the colour list |
| `GradientText.Gradient` | app/components/GradientText.tsx:21 | the gradient starts with `linear-gradient(90deg, ` and ends with `)` |
| `GradientText.GradientRepeatsList` | app/components/GradientText.tsx:20-21 | the gradient is the opening, the joined colours, `", "`, the joined colours again, and `)`; with no colours it is `linear-gradient(90deg, )` |
| `GradientText.GradientListsColorsTwice` | app/components/GradientText.tsx:20-21 | every colour occurs inside the first copy of the list, and again at the same offset inside the second copy, after a separator |
| `GradientText.ClassName` | app/components/GradientText.tsx:25 | the class string begins with `gradient-text ` and ends with the caller's `className`, unchanged; its length accounts for the optional border class |
| `GradientText.ClassNameBorderIff` | app/components/GradientText.tsx:25 | the class string contains `gradient-text--border` if and only if `showBorder` is set or the caller's classes contain it |
| `GradientText.BorderShown` | app/components/GradientText.tsx:25 | with `showBorder`, the border class follows `gradient-text ` directly |
| `GradientText.CallerClassesKept` | app/components/GradientText.tsx:17-25 | whatever occurs in the caller's classes occurs at the end of the class string |
| `GradientText.BorderOnlyFromCaller` | app/components/GradientText.tsx:25 | without `showBorder`, any occurrence of the border class lies inside the caller's classes |
| `GradientText.Render` | app/components/GradientText.tsx:13-26 | the background is the doubled gradient; the animation duration defaults to 8 seconds; with no `showBorder` and no `className` the class string is `gradient-text  `; the caller's classes end the class string; the border class is present iff `showBorder` is `true` or the caller's classes carry it |

## Left out

- The browser's IntersectionObserver. The model leaves out its geometry and the meaning of
  `threshold`. It also leaves out asynchronous delivery and the notification the platform sends
  when observation starts. The callback destructures `([entry])` and reads only the first entry
  of a batch (app/AnimatedContent.tsx:55); `Intersect(b)` carries that entry's `isIntersecting`,
  and any further entries of the batch are not modelled. `Delivered` is an assumption about
  delivery, not a platform guarantee: it says only observed elements are notified. A callback
  already queued when `disconnect()` or `unobserve()` runs may still arrive in the browser;
  the lemmas that take `Delivered` as a precondition say nothing about such late callbacks.
- A threshold outside [0, 1] makes the IntersectionObserver constructor throw, so that effect run
  observes nothing and registers no cleanup; the model keeps that outcome (`Attach`). The thrown
  error itself is not modelled. React hands it to the nearest error boundary, or unmounts the
  whole root when there is none; either way the wrapper is torn down, so the events the model
  still accepts after such an `Effect` do not occur in the program. NaN and the infinities, which throw a
  TypeError, are not reals and have no counterpart in the model.
- `TransitionOf` and `ComputeStyle` use the intended `ResolveEase` (see Findings). For the
  twelve names Object.prototype carries, the model's transition easing is the name itself,
  whereas the source's transition (app/AnimatedContent.tsx:73-74) holds the inherited value
  turned into text.
- React scheduling is not modelled. `setIsVisible(true)` is an immediate assignment. React's
  rule of running the previous cleanup before the next effect is built into `Step` and into the
  `Subscribe` precondition.
- JavaScript number formatting is not modelled: `${offset}px`, `${duration}s`, `${delay}s`,
  `${scale}` and `${animationSpeed}s`. So are NaN, infinities and negative zero. Numbers are
  reals in a structured style value, and the CSS text is not produced.
- JSX rendering, `children`, and the `ref` itself are not modelled. Whether the ref is set is the
  effect's `elementPresent` input. The wrapper's `className` prop is handed to the `div`
  unchanged (app/AnimatedContent.tsx:79); the model leaves it out.
- The styled-jsx CSS and keyframes of `GradientText` are presentation only and are not modelled.
- The pages, navigation bar, cards, footer, sitemap, layout and type declarations are not part of
  this model. They hold static content, markup, a menu toggle or wall-clock reads.

## Findings

| source | as written | input that shows it | evidently intended | confidence | as-written member | corrected member |
|---|---|---|---|---|---|---|
| app/AnimatedContent.tsx:22-30 | `easeMap[ease] ?? ease` indexes a plain object literal. Names inherited from Object.prototype are found and are not nullish, so the fallback to `ease` does not apply. | `ease = "toString"` (also `constructor`, `valueOf`, `__proto__`, …) resolves to a function (an object for `__proto__`). That value is then stringified into the `transition` value. | every name that is not a preset passes through unchanged | high; not executed | `Easing.AsWrittenToStringIsNotACurve` | `Easing.ResolveEase` |
