/** The ingredient list's edit rules. Each row shows one catalogue
    ingredient; the form's `value` holds the recipe's lines, matched to a row
    by `name`. Changing a row's quantity or unit hands an updated copy of
    `value` to the form. */
module IngredientList {
  import opened Wrappers
  import opened Seqs
  import opened Types
  import RecipeForm

  /** Lines are matched by name, not by id. */
  function Named(name: Option<string>): Ingredient -> bool {
    (l: Ingredient) => l.name == name
  }

  /** The line the quantity handler appends for a name not yet in `value`:
      unit `"ml"`, and no id. */
  function QuantityLine(name: Option<string>, quantity: real): Ingredient {
    Ingredient(None, name, Some(quantity), Some("ml"), None)
  }

  /** The line the unit handler appends: quantity 1, and no id. */
  function UnitLine(name: Option<string>, unit: string): Ingredient {
    Ingredient(None, name, Some(1.0), Some(unit), None)
  }

  /** The lines after setting the quantity of the row named `name`: the
      first line with that name gets the quantity, or a new line is
      appended. */
  function WithQuantity(value: seq<Ingredient>, name: Option<string>, quantity: real): seq<Ingredient> {
    match FindIndex(value, Named(name))
    case Some(i) => value[i := value[i].(quantity := Some(quantity))]
    case None => value + [QuantityLine(name, quantity)]
  }

  /** The lines after setting the unit of the row named `name`. */
  function WithUnit(value: seq<Ingredient>, name: Option<string>, unit: string): seq<Ingredient> {
    match FindIndex(value, Named(name))
    case Some(i) => value[i := value[i].(unit := Some(unit))]
    case None => value + [UnitLine(name, unit)]
  }

  /** The quantity input's handler for the row of catalogue ingredient
      `name`, with the number typed in. */
  method QuantityChanged(value: seq<Ingredient>, name: Option<string>, quantity: real)
    returns (ingredients: seq<Ingredient>)
    ensures ingredients == WithQuantity(value, name, quantity)
  {
    ingredients := value;
    var existing := FindIndex(value, Named(name));
    if existing.Some? {
      var updated := new Ingredient[|value|](k requires 0 <= k < |value| => value[k]);
      var i := existing.value;
      updated[i] := updated[i].(quantity := Some(quantity));
      ingredients := updated[..];
      assert ingredients == value[i := value[i].(quantity := Some(quantity))];
    } else {
      ingredients := value + [QuantityLine(name, quantity)];
    }
  }

  /** The unit picker's handler for the row of catalogue ingredient `name`. */
  method UnitChanged(value: seq<Ingredient>, name: Option<string>, unit: string)
    returns (ingredients: seq<Ingredient>)
    ensures ingredients == WithUnit(value, name, unit)
  {
    ingredients := value;
    var existing := FindIndex(value, Named(name));
    if existing.Some? {
      var updated := new Ingredient[|value|](k requires 0 <= k < |value| => value[k]);
      var i := existing.value;
      updated[i] := updated[i].(unit := Some(unit));
      ingredients := updated[..];
      assert ingredients == value[i := value[i].(unit := Some(unit))];
    } else {
      ingredients := value + [UnitLine(name, unit)];
    }
  }

  /** The quantity a row shows: that of the first line with the row's name,
      or nothing (an empty input). */
  function DisplayedQuantity(value: seq<Ingredient>, name: Option<string>): (r: Option<real>)
    ensures r.Some? <==> exists i :: 0 <= i < |value| && value[i].name == name &&
                                     (forall j :: 0 <= j < i ==> value[j].name != name) &&
                                     value[i].quantity.Some?
    ensures r.Some? ==> exists i :: 0 <= i < |value| && value[i].name == name &&
                                     (forall j :: 0 <= j < i ==> value[j].name != name) &&
                                     value[i].quantity == r
  {
    if |value| > 0 then
      match Find(value, Named(name))
      case Some(l) => l.quantity
      case None => None
    else None
  }

  /** The unit a row shows: that of the first line with the row's name, or
      nothing (the picker's placeholder). */
  function DisplayedUnit(value: seq<Ingredient>, name: Option<string>): (r: Option<string>)
    ensures r.Some? <==> exists i :: 0 <= i < |value| && value[i].name == name &&
                                     (forall j :: 0 <= j < i ==> value[j].name != name) &&
                                     value[i].unit.Some?
    ensures r.Some? ==> exists i :: 0 <= i < |value| && value[i].name == name &&
                                     (forall j :: 0 <= j < i ==> value[j].name != name) &&
                                     value[i].unit == r
  {
    if |value| > 0 then
      match Find(value, Named(name))
      case Some(l) => l.unit
      case None => None
    else None
  }

  /** A quantity change for a name already present keeps the length and
      changes only the quantity of the first line with that name; for an
      absent name it appends a line `{ name, quantity, unit: "ml" }`. */
  lemma QuantityChangeShape(value: seq<Ingredient>, name: Option<string>, quantity: real)
    ensures var r := WithQuantity(value, name, quantity);
            || (exists i :: && 0 <= i < |value| && value[i].name == name
                            && (forall j :: 0 <= j < i ==> value[j].name != name)
                            && |r| == |value|
                            && r[i] == value[i].(quantity := Some(quantity))
                            && forall j :: 0 <= j < |value| && j != i ==> r[j] == value[j])
            || (&& (forall j :: 0 <= j < |value| ==> value[j].name != name)
                && r == value + [Ingredient(None, name, Some(quantity), Some("ml"), None)])
  {
  }

  /** A unit change for a name already present keeps the length and changes
      only the unit of the first line with that name; for an absent name it
      appends a line `{ name, quantity: 1, unit }`. */
  lemma UnitChangeShape(value: seq<Ingredient>, name: Option<string>, unit: string)
    ensures var r := WithUnit(value, name, unit);
            || (exists i :: && 0 <= i < |value| && value[i].name == name
                            && (forall j :: 0 <= j < i ==> value[j].name != name)
                            && |r| == |value|
                            && r[i] == value[i].(unit := Some(unit))
                            && forall j :: 0 <= j < |value| && j != i ==> r[j] == value[j])
            || (&& (forall j :: 0 <= j < |value| ==> value[j].name != name)
                && r == value + [Ingredient(None, name, Some(1.0), Some(unit), None)])
  {
  }

  /** After a quantity change the row shows the new quantity, and its unit is
      what it showed before, or `"ml"` for a new line. */
  lemma QuantityChangeDisplayed(value: seq<Ingredient>, name: Option<string>, quantity: real)
    ensures DisplayedQuantity(WithQuantity(value, name, quantity), name) == Some(quantity)
    ensures DisplayedUnit(WithQuantity(value, name, quantity), name) ==
            (if FindIndex(value, Named(name)).None? then Some("ml")
             else DisplayedUnit(value, name))
  {
    var r := WithQuantity(value, name, quantity);
    match FindIndex(value, Named(name))
    case Some(i) =>
      FirstNamedAt(r, name, i);
      FirstNamedAt(value, name, i);
    case None =>
      FirstNamedAt(r, name, |value|);
  }

  /** After a unit change the row shows the new unit, and its quantity is
      what it showed before, or 1 for a new line. */
  lemma UnitChangeDisplayed(value: seq<Ingredient>, name: Option<string>, unit: string)
    ensures DisplayedUnit(WithUnit(value, name, unit), name) == Some(unit)
    ensures DisplayedQuantity(WithUnit(value, name, unit), name) ==
            (if FindIndex(value, Named(name)).None? then Some(1.0) else DisplayedQuantity(value, name))
  {
    var r := WithUnit(value, name, unit);
    match FindIndex(value, Named(name))
    case Some(i) =>
      FirstNamedAt(r, name, i);
      FirstNamedAt(value, name, i);
    case None =>
      FirstNamedAt(r, name, |value|);
  }

  /** When `i` is the first line named `name`, both displayed values are
      that line's. */
  lemma FirstNamedAt(value: seq<Ingredient>, name: Option<string>, i: nat)
    requires i < |value| && value[i].name == name
    requires forall j :: 0 <= j < i ==> value[j].name != name
    ensures DisplayedQuantity(value, name) == value[i].quantity
    ensures DisplayedUnit(value, name) == value[i].unit
  {
    FindIndexFirst(value, Named(name), i);
  }

  /** The first index satisfying `p` is the one `FindIndex` reports. */
  lemma FindIndexFirst(s: seq<Ingredient>, p: Ingredient -> bool, i: nat)
    requires i < |s| && p(s[i]) && forall j :: 0 <= j < i ==> !p(s[j])
    ensures FindIndex(s, p) == Some(i)
  {
  }

  /** A line either handler appends has no id, so the recipe form's line
      schema rejects it, and with it any form values holding it. */
  lemma AppendedLineRejected(value: seq<Ingredient>, name: Option<string>, quantity: real, unit: string,
                             v: RecipeForm.FormValues)
    requires FindIndex(value, Named(name)).None?
    ensures var q := WithQuantity(value, name, quantity);
            RecipeForm.ParseLine(q[|q| - 1]).None?
    ensures var u := WithUnit(value, name, unit);
            RecipeForm.ParseLine(u[|u| - 1]).None?
    ensures QuantityLine(name, quantity) in v.ingredients || UnitLine(name, unit) in v.ingredients ==>
              RecipeForm.Parse(v).None?
  {
    RecipeForm.ParseAccepts(v);
  }
}
