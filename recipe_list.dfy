/** The amount column of a recipe card: the quantity followed by a unit
    label, pluralised with a trailing "s" for quantities above one. */
module RecipeList {
  import opened Wrappers

  /** JavaScript truthiness of an optional number: present and non-zero. */
  predicate QuantityTruthy(q: Option<real>) {
    q.Some? && q.value != 0.0
  }

  /** How a missing unit shows: rendered alone it is nothing, and turned into
      a string by concatenation it is "undefined". */
  function Rendered(unit: Option<string>): string {
    unit.GetOr("")
  }

  function Stringified(unit: Option<string>): string {
    unit.GetOr("undefined")
  }

  /** The unit label of one ingredient line. */
  function UnitLabel(unit: Option<string>, quantity: Option<real>): string {
    if unit == Some("ml") then "ml"
    else if QuantityTruthy(quantity) then
      if quantity.value > 1.0 then Stringified(unit) + "s" else Rendered(unit)
    else ""
  }

  /** "ml" is never pluralised, whatever the quantity. */
  lemma MlNeverPlural(quantity: Option<real>)
    ensures UnitLabel(Some("ml"), quantity) == "ml"
  {
  }

  /** Any other unit: plural above one, unchanged for another non-zero
      quantity, and no label at all for zero or a missing quantity. */
  lemma OtherUnitLabel(unit: string, quantity: Option<real>)
    requires unit != "ml"
    ensures quantity.Some? && quantity.value > 1.0 ==> UnitLabel(Some(unit), quantity) == unit + "s"
    ensures quantity.Some? && quantity.value != 0.0 && quantity.value <= 1.0 ==>
              UnitLabel(Some(unit), quantity) == unit
    ensures quantity.None? || quantity.value == 0.0 ==> UnitLabel(Some(unit), quantity) == ""
  {
  }

  /** For a present unit the label is always the empty string, the unit, or
      the unit with "s" appended. */
  lemma LabelForms(unit: string, quantity: Option<real>)
    ensures UnitLabel(Some(unit), quantity) in {"", unit, unit + "s"}
  {
  }

  /** A line without a unit shows nothing, except above one, where the
      concatenation spells out "undefineds". */
  lemma MissingUnitLabel(quantity: Option<real>)
    ensures UnitLabel(None, quantity) == (if quantity.Some? && quantity.value > 1.0 then "undefineds" else "")
  {
  }
}
