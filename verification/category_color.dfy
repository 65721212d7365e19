/**
  `getCategoryColor`: the Material colour of the chip drawn for a category.
  The lookup table is a JavaScript object literal, so a key that is not one of
  its own properties can still find a property inherited from `Object.prototype`.
 */
module CategoryColor {
  import opened Model

  /** The own properties of the colour table. */
  const Colors: map<string, string> := map[
    "Lebensmittel" := "primary",
    "Transport" := "accent",
    "Freizeit" := "warn",
    "Rechnungen" := "primary",
    "Sonstiges" := ""]

  /** Property names every plain object inherits from `Object.prototype`; each one
      holds a function or, for `__proto__`, an object, so each is truthy. */
  const InheritedMembers: set<string> := {
    "constructor", "hasOwnProperty", "isPrototypeOf", "propertyIsEnumerable",
    "toString", "toLocaleString", "valueOf", "__proto__", "__defineGetter__",
    "__defineSetter__", "__lookupGetter__", "__lookupSetter__"}

  /** What `colors[category] || ''` can evaluate to: a string, or an inherited
      member that is not a string at all. */
  datatype ColorValue = Str(s: string) | Inherited(member: string)

  /** `getCategoryColor` as written: own keys give their value (`''` stays `''`),
      inherited members are truthy and are returned as they are, and every other
      key is `undefined`, which `|| ''` turns into `''`. */
  function ColorAsWritten(category: string): (v: ColorValue)
    ensures v.Inherited? <==> category !in Colors && category in InheritedMembers
    ensures v.Str? ==> v.s in {"primary", "accent", "warn", ""}
  {
    if category in Colors then Str(Colors[category])
    else if category in InheritedMembers then Inherited(category)
    else Str("")
  }

  /** `getCategoryColor` as intended: a total lookup of the table's own keys with
      `''` as the default, so every category, known or not, gets a string. */
  function Color(category: string): (r: string)
    ensures r in {"primary", "accent", "warn", ""}
    ensures r == "primary" <==> category == "Lebensmittel" || category == "Rechnungen"
    ensures r == "accent" <==> category == "Transport"
    ensures r == "warn" <==> category == "Freizeit"
  {
    if category in Colors then Colors[category] else ""
  }

  /** The colour of each select value. */
  lemma ColorOfCategory(c: Category)
    ensures Color(Literal(c)) == match c
      case Lebensmittel => "primary"
      case Transport => "accent"
      case Freizeit => "warn"
      case Rechnungen => "primary"
      case Sonstiges => ""
  {
  }

  /** The two agree on every key except the inherited member names. */
  lemma AsWrittenAgreesOutsidePrototype(category: string)
    requires category !in InheritedMembers
    ensures ColorAsWritten(category) == Str(Color(category))
  {
  }

  /** The discrepancy: for the key "toString" the lookup as written returns the
      inherited method rather than a string, where the intended lookup gives ''. */
  lemma AsWrittenLeaksPrototype()
    ensures ColorAsWritten("toString") == Inherited("toString")
    ensures Color("toString") == ""
  {
  }
}
