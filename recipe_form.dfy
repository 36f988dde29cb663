/** The recipe form's validation schema and its submit handler. The schema
    is a parser: it accepts the form's values or rejects them, and an
    accepted ingredient line keeps only its `id`, `quantity` and `unit`. */
module RecipeForm {
  import opened Wrappers
  import opened Types

  const MaxNameLength: nat := 30
  const MaxNoteLength: nat := 200

  /** An ingredient line as the schema outputs it; other keys of the raw
      line, its `name` among them, are dropped. */
  datatype Line = Line(id: string, quantity: real, unit: Unit)

  /** The line schema: a non-empty `id`, a non-negative `quantity` and a
      `unit` among the eleven unit names (`"fruit"` included). */
  function ParseLine(l: Ingredient): (r: Option<Line>)
    ensures r.Some? <==> && l.id.Some? && |l.id.value| >= 1
                         && l.quantity.Some? && l.quantity.value >= 0.0
                         && l.unit.Some? && ParseUnit(l.unit.value).Some?
    ensures r.Some? ==> && r.value.id == l.id.value && r.value.quantity == l.quantity.value
                        && UnitName(r.value.unit) == l.unit.value
  {
    if l.id.None? || |l.id.value| < 1 || l.quantity.None? || l.quantity.value < 0.0 || l.unit.None? then None
    else match ParseUnit(l.unit.value)
      case None => None
      case Some(u) => Some(Line(l.id.value, l.quantity.value, u))
  }

  /** The array schema's element check over every line, in order. */
  function ParseLines(ls: seq<Ingredient>): (r: Option<seq<Line>>)
    ensures r.Some? <==> forall k :: 0 <= k < |ls| ==> ParseLine(ls[k]).Some?
    ensures r.Some? ==> |r.value| == |ls| && forall k :: 0 <= k < |ls| ==> ParseLine(ls[k]) == Some(r.value[k])
  {
    if ls == [] then Some([])
    else match ParseLine(ls[0])
      case None => None
      case Some(l) =>
        match ParseLines(ls[1..])
        case None => None
        case Some(rest) => Some([l] + rest)
  }

  /** The form's raw values; `note` is absent when the field is not set. */
  datatype FormValues = FormValues(name: string, note: Option<string>, ingredients: seq<Ingredient>)

  /** The schema's output: the values the submit handler receives. */
  datatype RecipeValues = RecipeValues(name: string, note: Option<string>, ingredients: seq<Line>)

  predicate NameValid(name: string) {
    1 <= |name| <= MaxNameLength
  }

  predicate NoteValid(note: Option<string>) {
    note.None? || |note.value| <= MaxNoteLength
  }

  /** The refinement on the list: some line has a positive quantity. */
  predicate SomePositive(ls: seq<Line>) {
    exists k :: 0 <= k < |ls| && ls[k].quantity > 0.0
  }

  /** The recipe form schema. */
  function Parse(v: FormValues): (r: Option<RecipeValues>)
    ensures r.Some? <==> && NameValid(v.name) && NoteValid(v.note)
                         && ParseLines(v.ingredients).Some?
                         && |v.ingredients| >= 1
                         && SomePositive(ParseLines(v.ingredients).value)
    ensures r.Some? ==> r.value == RecipeValues(v.name, v.note, ParseLines(v.ingredients).value)
  {
    match ParseLines(v.ingredients)
    case None => None
    case Some(lines) =>
      if NameValid(v.name) && NoteValid(v.note) && |lines| >= 1 && SomePositive(lines)
      then Some(RecipeValues(v.name, v.note, lines))
      else None
  }

  /** What the schema accepts, written over the raw values: a name of 1 to
      30 characters, no note or one of at most 200, and a non-empty list of
      well-formed lines one of which has a positive quantity. */
  lemma ParseAccepts(v: FormValues)
    ensures Parse(v).Some? <==>
              && 1 <= |v.name| <= 30
              && (v.note.None? || |v.note.value| <= 200)
              && |v.ingredients| >= 1
              && (forall k :: 0 <= k < |v.ingredients| ==>
                    && v.ingredients[k].id.Some? && v.ingredients[k].id.value != ""
                    && v.ingredients[k].quantity.Some? && v.ingredients[k].quantity.value >= 0.0
                    && v.ingredients[k].unit.Some? && ParseUnit(v.ingredients[k].unit.value).Some?)
              && (exists k :: 0 <= k < |v.ingredients| && v.ingredients[k].quantity.Some? &&
                                v.ingredients[k].quantity.value > 0.0)
  {
    var pl := ParseLines(v.ingredients);
    if pl.Some? {
      if SomePositive(pl.value) {
        var k :| 0 <= k < |pl.value| && pl.value[k].quantity > 0.0;
        assert ParseLine(v.ingredients[k]) == Some(pl.value[k]);
      }
      if exists k :: 0 <= k < |v.ingredients| && v.ingredients[k].quantity.Some? &&
                     v.ingredients[k].quantity.value > 0.0 {
        var k :| 0 <= k < |v.ingredients| && v.ingredients[k].quantity.Some? &&
                 v.ingredients[k].quantity.value > 0.0;
        assert ParseLine(v.ingredients[k]) == Some(pl.value[k]);
      }
    }
  }

  /** A list of well-formed lines whose quantities are all zero is rejected,
      whatever the name and note. */
  lemma AllZeroRejected(v: FormValues)
    requires forall k :: 0 <= k < |v.ingredients| ==> v.ingredients[k].quantity == Some(0.0)
    ensures Parse(v).None?
  {
    ParseAccepts(v);
  }

  /** Every unit name, `"fruit"` as well, is accepted in a line. */
  lemma EveryUnitAccepted(id: string, quantity: real, u: Unit)
    requires id != "" && quantity >= 0.0
    ensures ParseLine(Ingredient(Some(id), None, Some(quantity), Some(UnitName(u)), None)) ==
            Some(Line(id, quantity, u))
  {
    ParseUnitName(u);
  }

  /** What submitting dispatches: an edit of recipe `id` when the form
      was opened for one, an addition otherwise. */
  datatype Submission = AddRecipe(recipe: RecipeValues) | EditRecipe(id: string, recipe: RecipeValues)

  /** The submit handler, given the form's `id` prop and validated values. */
  function OnSubmit(id: Option<string>, values: RecipeValues): (s: Submission)
    ensures s.EditRecipe? <==> Truthy(id)
    ensures s.EditRecipe? ==> s.id == id.value
    ensures s.recipe == values
  {
    if Truthy(id) then EditRecipe(id.value, values) else AddRecipe(values)
  }

  /** Submitting the form: the handler runs only on values the schema
      accepts. */
  function Submit(id: Option<string>, v: FormValues): Option<Submission> {
    match Parse(v)
    case None => None
    case Some(values) => Some(OnSubmit(id, values))
  }

  /** A submission happens exactly when the values are valid; it carries the
      name and note unchanged and the lines stripped to id, quantity and
      unit, and it is an edit exactly when an id is given. */
  lemma SubmitDispatch(id: Option<string>, v: FormValues)
    ensures Submit(id, v).Some? <==> Parse(v).Some?
    ensures Submit(id, v).Some? ==>
              var s := Submit(id, v).value;
              && s.recipe.name == v.name && s.recipe.note == v.note
              && |s.recipe.ingredients| == |v.ingredients|
              && (forall k :: 0 <= k < |v.ingredients| ==>
                    && Some(s.recipe.ingredients[k].id) == v.ingredients[k].id
                    && Some(s.recipe.ingredients[k].quantity) == v.ingredients[k].quantity
                    && Some(UnitName(s.recipe.ingredients[k].unit)) == v.ingredients[k].unit)
              && (s.EditRecipe? <==> Truthy(id))
  {
    if Parse(v).Some? {
      var s := Submit(id, v).value;
      forall k | 0 <= k < |v.ingredients|
        ensures && Some(s.recipe.ingredients[k].id) == v.ingredients[k].id
                && Some(s.recipe.ingredients[k].quantity) == v.ingredients[k].quantity
                && Some(UnitName(s.recipe.ingredients[k].unit)) == v.ingredients[k].unit
      {
        assert ParseLine(v.ingredients[k]) == Some(s.recipe.ingredients[k]);
      }
    }
  }
}
