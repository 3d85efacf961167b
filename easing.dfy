/**
 * Resolution of the `ease` prop of the reveal wrapper (app/AnimatedContent.tsx).
 * Three named presets stand for fixed CSS `cubic-bezier()` expressions; a missing or
 * empty name falls back to the ease-out curve, and any other name is taken to be a
 * curve expression already and is passed on unchanged. The curve expressions are
 * handled as opaque strings, as the component handles them.
 */
module Easing {
  import opened Wrappers

  const Power3Out: string := "power3.out"
  const Power2Out: string := "power2.out"
  const Power1Out: string := "power1.out"

  const Power3OutCurve: string := "cubic-bezier(0.22, 1, 0.36, 1)"
  const Power2OutCurve: string := "cubic-bezier(0.22, 0.61, 0.36, 1)"
  const Power1OutCurve: string := "cubic-bezier(0.25, 0.46, 0.45, 0.94)"

  /** The curve used when no easing name is given. */
  const DefaultCurve: string := "cubic-bezier(0.22, 1, 0.36, 1)"

  /** The preset table, keyed by the table's own entries only. */
  const EaseMap: map<string, string> :=
    map[Power3Out := Power3OutCurve, Power2Out := Power2OutCurve, Power1Out := Power1OutCurve]

  /** JavaScript's `!ease` for an optional string: `undefined` and `""` are falsy. */
  predicate Falsy(ease: Option<string>): (b: bool)
    ensures b <==> ease.GetOr("") == ""
  {
    ease == None || ease == Some("")
  }

  /**
   * The easing curve for `ease`: the default curve for a falsy name, the preset's curve
   * for one of the three preset names, and the name itself otherwise.
   */
  function ResolveEase(ease: Option<string>): (r: string)
    ensures Falsy(ease) ==> r == DefaultCurve
    ensures ease == Some(Power3Out) ==> r == Power3OutCurve
    ensures ease == Some(Power2Out) ==> r == Power2OutCurve
    ensures ease == Some(Power1Out) ==> r == Power1OutCurve
    ensures !Falsy(ease) && ease.value !in EaseMap.Keys ==> r == ease.value
    ensures r != ""
  {
    if Falsy(ease) then DefaultCurve
    else if ease.value in EaseMap then EaseMap[ease.value]
    else ease.value
  }

  /** No resolved curve is itself a preset name. */
  lemma CurvesAreNotPresetNames(ease: Option<string>)
    ensures ResolveEase(ease) !in EaseMap.Keys
  {
    if !Falsy(ease) && ease.value in EaseMap {
      assert ease.value == Power3Out || ease.value == Power2Out || ease.value == Power1Out;
    }
  }

  /** Resolving an already resolved curve changes nothing. */
  lemma ResolveEaseIdempotent(ease: Option<string>)
    ensures ResolveEase(Some(ResolveEase(ease))) == ResolveEase(ease)
  {
    CurvesAreNotPresetNames(ease);
  }

  /** The component's default easing name resolves to the same curve as no name at all. */
  lemma DefaultNameResolvesToDefaultCurve()
    ensures ResolveEase(Some(Power3Out)) == ResolveEase(None) == ResolveEase(Some(""))
    ensures ResolveEase(None) == DefaultCurve
  {
  }

  /** An unrecognised name such as a CSS keyword is passed through unchanged. */
  lemma UnknownNamePassesThrough()
    ensures ResolveEase(Some("ease-in-out")) == "ease-in-out"
  {
  }

  // ---------------------------------------------------------------------------------
  // The lookup as written. The preset table in the source is a plain object literal, so
  // indexing it with a key it does not own reads the key from Object.prototype. For the
  // twelve property names Object.prototype carries, the lookup is not `undefined`, the
  // `??` fallback does not apply, and the resolved "curve" is a function or an object.

  /** A JavaScript value, as far as the lookup can produce one. */
  datatype JsValue = JsUndefined | JsString(s: string) | JsFunction(name: string) | JsObject

  /** The names of the properties every object literal inherits from Object.prototype. */
  const ObjectPrototypeKeys: set<string> := {
    "constructor", "hasOwnProperty", "isPrototypeOf", "propertyIsEnumerable",
    "toLocaleString", "toString", "valueOf", "__defineGetter__", "__defineSetter__",
    "__lookupGetter__", "__lookupSetter__", "__proto__" }

  /** `easeMap[key]` on the object literal, prototype chain included. */
  function EaseMapIndex(key: string): (v: JsValue)
    ensures key in EaseMap ==> v == JsString(EaseMap[key])
    ensures key !in EaseMap && key !in ObjectPrototypeKeys ==> v == JsUndefined
    ensures key in ObjectPrototypeKeys ==> !v.JsString? && !v.JsUndefined?
  {
    if key in EaseMap then JsString(EaseMap[key])
    else if key == "__proto__" then JsObject
    else if key in ObjectPrototypeKeys then JsFunction(key)
    else JsUndefined
  }

  /** `resolveEase` as written: `easeMap[ease] ?? ease` after the falsy check. */
  function ResolveEaseAsWritten(ease: Option<string>): (v: JsValue)
    ensures Falsy(ease) ==> v == JsString(DefaultCurve)
    ensures !Falsy(ease) && ease.value in ObjectPrototypeKeys ==> !v.JsString?
    ensures !v.JsUndefined?
  {
    if Falsy(ease) then JsString(DefaultCurve)
    else
      match EaseMapIndex(ease.value)
      case JsUndefined => JsString(ease.value)
      case other => other
  }

  /** The as-written lookup agrees with ResolveEase on every name Object.prototype lacks. */
  lemma AsWrittenAgreesOffPrototype(ease: Option<string>)
    requires ease == None || ease.value !in ObjectPrototypeKeys
    ensures ResolveEaseAsWritten(ease) == JsString(ResolveEase(ease))
  {
  }

  /** The discrepancy: the name "toString" resolves to a function, not to a curve string. */
  lemma AsWrittenToStringIsNotACurve()
    ensures !ResolveEaseAsWritten(Some("toString")).JsString?
    ensures ResolveEase(Some("toString")) == "toString"
  {
    assert "toString" !in EaseMap;
  }
}
