/**
 * `getNaicsDescription`, the NAICS-code-to-business-type lookup the letter
 * and research-prompt components share: `naicsMap[naicsCode] || 'business'`
 * over an object literal of twelve codes.
 *
 * An object literal also answers the names of `Object.prototype`'s members,
 * so the lookup as written returns a (truthy) function or object for a code
 * such as `toString`; `DescriptionAsWritten` models that, and
 * `NaicsDescription`, used everywhere else, answers `business` for every code
 * that is not one of the twelve.
 */
module Naics {
  import opened Wrappers

  const DefaultType := "business"

  /** The twelve codes and their business types. */
  const NaicsNames: map<string, string> := map[
    "541110" := "law firm",
    "541211" := "accounting firm",
    "541330" := "engineering firm",
    "561320" := "temporary staffing agency",
    "722511" := "restaurant",
    "623110" := "nursing home",
    "622110" := "hospital",
    "611110" := "elementary or secondary school",
    "445110" := "supermarket or grocery store",
    "448140" := "clothing store",
    "236220" := "construction company",
    "621111" := "medical office"
  ]

  /** The property names every object literal inherits from `Object.prototype`;
      each one reads as a function, or as `Object.prototype` itself for
      `__proto__`, and all of them are truthy. */
  const PrototypeMembers: set<string> := {
    "constructor", "hasOwnProperty", "isPrototypeOf", "propertyIsEnumerable",
    "toLocaleString", "toString", "valueOf", "__proto__",
    "__defineGetter__", "__defineSetter__", "__lookupGetter__", "__lookupSetter__"
  }

  /** A JavaScript value the lookup can produce: a string, or an inherited
      member named by its key. */
  datatype JsValue = JsString(text: string) | Inherited(member: string)

  /** The lookup as written: an own key gives its name, an inherited key gives
      the inherited member, anything else (and `undefined`) gives `business`. */
  function DescriptionAsWritten(naicsCode: Option<string>): (v: JsValue)
    ensures naicsCode.Some? && naicsCode.value in NaicsNames ==> v == JsString(NaicsNames[naicsCode.value])
    ensures v.Inherited? <==> naicsCode.Some? && naicsCode.value in PrototypeMembers
  {
    if naicsCode.None? then JsString(DefaultType)
    else if naicsCode.value in NaicsNames then JsString(NaicsNames[naicsCode.value])
    else if naicsCode.value in PrototypeMembers then Inherited(naicsCode.value)
    else JsString(DefaultType)
  }

  /** The code `toString` is not one of the twelve, yet the lookup as written
      does not fall back to `business` for it. */
  lemma ToStringCodeIsNotBusiness()
    ensures "toString" !in NaicsNames
    ensures DescriptionAsWritten(Some("toString")) == Inherited("toString")
    ensures DescriptionAsWritten(Some("toString")) != JsString(DefaultType)
  {
  }

  /** The lookup as intended: the twelve codes map to their business types,
      every other input to `business`. */
  function NaicsDescription(naicsCode: Option<string>): (d: string)
    ensures naicsCode.Some? && naicsCode.value in NaicsNames ==> d == NaicsNames[naicsCode.value]
    ensures !(naicsCode.Some? && naicsCode.value in NaicsNames) ==> d == DefaultType
  {
    if naicsCode.Some? && naicsCode.value in NaicsNames then NaicsNames[naicsCode.value]
    else DefaultType
  }

  /** Every business type in the table is a non-empty string, so the lookup
      never yields an empty description. */
  lemma {:induction false} DescriptionNeverEmpty(naicsCode: Option<string>)
    ensures NaicsDescription(naicsCode) != ""
  {
    NamesNonEmpty();
  }

  lemma NamesNonEmpty()
    ensures forall code :: code in NaicsNames ==> NaicsNames[code] != ""
  {
  }

  /** The intended lookup agrees with the lookup as written on every input
      that is not an inherited member name. */
  lemma {:induction false} DescriptionAgreesOffPrototype(naicsCode: Option<string>)
    requires naicsCode.None? || naicsCode.value !in PrototypeMembers
    ensures DescriptionAsWritten(naicsCode) == JsString(NaicsDescription(naicsCode))
  {
  }
}
