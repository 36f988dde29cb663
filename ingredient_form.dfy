/** The ingredient form: a name schema checked on the raw input, then a
    submit handler that trims the name and dispatches an add or an edit. */
module IngredientForm {
  import opened Wrappers
  import opened Text

  /** The name schema: between 1 and 30 characters, before any trimming. */
  predicate NameValid(name: string) {
    1 <= |name| <= 30
  }

  /** What submitting dispatches: `{ name }` as a new ingredient, or as an
      edit of ingredient `id`. */
  datatype Submission = AddIngredient(name: string) | EditIngredient(id: string, name: string)

  /** The submit handler on validated values: the name is trimmed. */
  function OnSubmit(id: Option<string>, name: string): (s: Submission)
    ensures s.EditIngredient? <==> Truthy(id)
    ensures s.EditIngredient? ==> s.id == id.value
    ensures s.name == Trim(name)
  {
    if Truthy(id) then EditIngredient(id.value, Trim(name)) else AddIngredient(Trim(name))
  }

  /** Submitting the form: the handler runs only when the schema accepts. */
  function Submit(id: Option<string>, name: string): Option<Submission> {
    if NameValid(name) then Some(OnSubmit(id, name)) else None
  }

  /** A submission happens exactly when the raw name has 1 to 30 characters;
      the submitted name is the raw one with the surrounding white space
      removed, a slice of it with no white space at either end. */
  lemma SubmitTrims(id: Option<string>, name: string)
    ensures Submit(id, name).Some? <==> 1 <= |name| <= 30
    ensures Submit(id, name).Some? ==>
              var n := Submit(id, name).value.name;
              && (exists i, j :: 0 <= i <= j <= |name| && n == name[i..j] &&
                                 AllSpace(name[..i]) && AllSpace(name[j..]))
              && (n != [] ==> !IsSpace(n[0]) && !IsSpace(n[|n| - 1]))
              && |n| <= 30
  {
    TrimShape(name);
  }

  /** Trimming comes after validation: a name of white space only passes the
      schema and is submitted as the empty name. */
  lemma BlankNameSubmitsEmpty(id: Option<string>, name: string)
    requires 1 <= |name| <= 30 && AllSpace(name)
    ensures Submit(id, name).Some? && Submit(id, name).value.name == ""
  {
    TrimAllSpace(name);
  }

  /** Re-submitting what was submitted changes nothing when it is still
      valid: the trimmed name is already trimmed. */
  lemma ResubmitStable(id: Option<string>, name: string)
    requires Submit(id, name).Some? && Submit(id, name).value.name != ""
    ensures Submit(id, Submit(id, name).value.name) == Submit(id, name)
  {
    TrimIdempotent(name);
    TrimShape(name);
  }
}
