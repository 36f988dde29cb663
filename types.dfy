/** The shared types: the measuring units of `types.ts`, the picker list
    `UnitArray` of `data/recipes.ts`, and the `Ingredient` and `Recipe`
    shapes of the client stores. */
module Types {
  import opened Wrappers

  /** The eleven measuring units. */
  datatype Unit = Ml | Gram | Tablespoon | Teaspoon | Piece | Slice | Cup | Pinch | Tablet | Cube | Fruit

  /** The string a unit is stored and shown as. */
  function UnitName(u: Unit): string {
    match u
    case Ml => "ml"
    case Gram => "gram"
    case Tablespoon => "tablespoon"
    case Teaspoon => "teaspoon"
    case Piece => "piece"
    case Slice => "slice"
    case Cup => "cup"
    case Pinch => "pinch"
    case Tablet => "tablet"
    case Cube => "cube"
    case Fruit => "fruit"
  }

  /** The unit a string names, if it names one. */
  function ParseUnit(s: string): (r: Option<Unit>)
    ensures r.Some? ==> UnitName(r.value) == s
  {
    match s
    case "ml" => Some(Ml)
    case "gram" => Some(Gram)
    case "tablespoon" => Some(Tablespoon)
    case "teaspoon" => Some(Teaspoon)
    case "piece" => Some(Piece)
    case "slice" => Some(Slice)
    case "cup" => Some(Cup)
    case "pinch" => Some(Pinch)
    case "tablet" => Some(Tablet)
    case "cube" => Some(Cube)
    case "fruit" => Some(Fruit)
    case _ => None
  }

  /** Every unit's name parses back to that unit, so names are distinct. */
  lemma ParseUnitName(u: Unit)
    ensures ParseUnit(UnitName(u)) == Some(u)
  {
  }

  /** The units offered by the unit picker: ten of the eleven. */
  const UnitArray: seq<string> :=
    ["ml", "gram", "tablespoon", "teaspoon", "piece", "slice", "cup", "pinch", "tablet", "cube"]

  /** The picker offers only valid unit names, and one unit, "fruit", is not
      offered although the type and the recipe schema accept it. */
  lemma UnitArrayOmitsFruit()
    ensures |UnitArray| == 10
    ensures forall s :: s in UnitArray ==> ParseUnit(s).Some?
    ensures forall u: Unit :: UnitName(u) in UnitArray <==> u != Fruit
  {
    forall u: Unit ensures UnitName(u) in UnitArray <==> u != Fruit {
      if u != Fruit {
        match u
        case Ml => assert UnitArray[0] == UnitName(u);
        case Gram => assert UnitArray[1] == UnitName(u);
        case Tablespoon => assert UnitArray[2] == UnitName(u);
        case Teaspoon => assert UnitArray[3] == UnitName(u);
        case Piece => assert UnitArray[4] == UnitName(u);
        case Slice => assert UnitArray[5] == UnitName(u);
        case Cup => assert UnitArray[6] == UnitName(u);
        case Pinch => assert UnitArray[7] == UnitName(u);
        case Tablet => assert UnitArray[8] == UnitName(u);
        case Cube => assert UnitArray[9] == UnitName(u);
      }
    }
  }

  /** An ingredient as the client handles it: every field optional. Inside a
      recipe it is an ingredient line (a reference `id` with a quantity and
      a unit). The unit is kept as the raw string stored in the document. */
  datatype Ingredient = Ingredient(
    id: Option<string>,
    name: Option<string>,
    quantity: Option<real>,
    unit: Option<string>,
    createdBy: Option<string>)

  /** A recipe as the client store holds it and as the recipes API returns it. */
  datatype Recipe = Recipe(
    id: Option<string>,
    name: string,
    note: Option<string>,
    ingredients: seq<Ingredient>,
    createdBy: Option<string>)
}
