/** The client-side recipe store: the fetched recipes, a loading flag and
    an error message, each set by its own action. */
module RecipeStore {
  import opened Wrappers
  import opened Types

  class Store {
    var recipes: seq<Recipe>
    var loading: bool
    /** `None` stands for `null`: no error. */
    var error: Option<string>

    /** The initial state: no recipes, not loading, no error. */
    constructor ()
      ensures recipes == [] && !loading && error.None?
    {
      recipes, loading, error := [], false, None;
    }

    /** Appends `recipe` after the recipes already held. */
    method AddRecipe(recipe: Recipe)
      modifies this`recipes
      ensures recipes == old(recipes) + [recipe]
      ensures |recipes| == |old(recipes)| + 1 && recipes[..|old(recipes)|] == old(recipes)
    {
      recipes := recipes + [recipe];
    }

    method SetRecipes(rs: seq<Recipe>)
      modifies this`recipes
      ensures recipes == rs
    {
      recipes := rs;
    }

    method SetLoading(b: bool)
      modifies this`loading
      ensures loading == b
    {
      loading := b;
    }

    method SetError(e: Option<string>)
      modifies this`error
      ensures error == e
    {
      error := e;
    }
  }
}
