/** The ingredients route. Unlike the other routes it does its own
    authentication check and answers 401 when nobody is signed in; its catch
    blocks map thrown values like the shared helper does. */
module IngredientsRoute {
  import opened Wrappers
  import opened Seqs
  import opened ApiUtils
  import opened Store

  const IngredientCreated: string := "Ingredient created successfully"

  /** The route's own answer to an unauthenticated request. */
  const Unauthorized: Response<seq<IngredientDoc>> := Response(401, ErrorBody(NotAuthenticated))

  /** The catch block of both handlers: `{ error }` with status 400, the
      message being the error's own or the fixed fallback. It answers what
      the shared helper does. */
  function Catch<T>(e: Thrown): (r: Response<T>)
    ensures r == HandleErrorAndRespond(e)
    ensures r.status == 400
  {
    if e.ErrorValue? then Response(400, ErrorBody(e.message)) else Response(400, ErrorBody(UnexpectedError))
  }

  /** The caller's ingredients (the equality query on `createdBy`). */
  function OwnIngredients(ingredients: seq<IngredientDoc>, caller: string): seq<IngredientDoc> {
    Filter(ingredients, (d: IngredientDoc) => d.createdBy == caller)
  }

  /** GET /api/ingredients over the snapshot `ingredients`. */
  function Get(ingredients: seq<IngredientDoc>, userId: Option<string>): Response<seq<IngredientDoc>> {
    if !Truthy(userId) then Unauthorized
    else Response(200, Data(OwnIngredients(ingredients, userId.value)))
  }

  /** GET answers 401 without a signed-in user, and otherwise 200 with
      exactly the caller's ingredients, in store order. */
  lemma GetOwnIngredients(ingredients: seq<IngredientDoc>, userId: Option<string>)
    ensures !Truthy(userId) ==> Get(ingredients, userId) == Response(401, ErrorBody(NotAuthenticated))
    ensures Truthy(userId) ==>
              var r := Get(ingredients, userId);
              && r.status == 200 && r.body.Data?
              && IsSubsequence(r.body.data, ingredients)
              && forall d :: d in r.body.data <==> d in ingredients && d.createdBy == userId.value
  {
    if Truthy(userId) {
      FilterIsSubsequence(ingredients, (d: IngredientDoc) => d.createdBy == userId.value);
    }
  }

  /** The response and the new `ingredients` collection of one POST. */
  datatype PostOutcome = PostOutcome(response: Response<Created>, ingredients: seq<IngredientDoc>)

  /** What POST does with the body's `name`; `newId` is the generated id. */
  function PostEffect(ingredients: seq<IngredientDoc>, userId: Option<string>, name: string, newId: string)
    : PostOutcome
  {
    if !Truthy(userId) then PostOutcome(Response(401, ErrorBody(NotAuthenticated)), ingredients)
    else PostOutcome(Response(201, Data(Created(newId, IngredientCreated))),
                     ingredients + [IngredientDoc(newId, name, userId.value)])
  }

  /** POST /api/ingredients on the store `db`. */
  method Post(db: Db, userId: Option<string>, name: string, newId: string)
    returns (response: Response<Created>)
    requires db.Valid() && db.FreshIngredientId(newId)
    modifies db`ingredients
    ensures db.Valid()
    ensures PostOutcome(response, db.ingredients) == PostEffect(old(db.ingredients), userId, name, newId)
  {
    if !Truthy(userId) {
      return Response(401, ErrorBody(NotAuthenticated));
    }
    IngredientIdsSnoc(db.ingredients, IngredientDoc(newId, name, userId.value));
    db.ingredients := db.ingredients + [IngredientDoc(newId, name, userId.value)];
    response := Response(201, Data(Created(newId, IngredientCreated)));
  }

  /** Without a signed-in user POST answers 401 and adds nothing; otherwise
      it appends `{ name, createdBy: caller }` under the new id and answers
      201 with that id. */
  lemma PostAddsOne(ingredients: seq<IngredientDoc>, userId: Option<string>, name: string, newId: string)
    ensures !Truthy(userId) ==>
              PostEffect(ingredients, userId, name, newId) ==
              PostOutcome(Response(401, ErrorBody(NotAuthenticated)), ingredients)
    ensures Truthy(userId) ==>
              var o := PostEffect(ingredients, userId, name, newId);
              && o.response.status == 201 && o.response.body == Data(Created(newId, IngredientCreated))
              && |o.ingredients| == |ingredients| + 1
              && o.ingredients[..|ingredients|] == ingredients
              && o.ingredients[|ingredients|] == IngredientDoc(newId, name, userId.value)
  {
  }

  /** With the new document placed at the end of query order, as this model
      places it, an ingredient the caller posts comes last in the caller's
      next GET, after the ingredients GET listed before. */
  lemma PostThenGetSees(ingredients: seq<IngredientDoc>, userId: Option<string>, name: string, newId: string)
    requires Truthy(userId)
    ensures var after := PostEffect(ingredients, userId, name, newId).ingredients;
            Get(after, userId).body.data ==
              Get(ingredients, userId).body.data + [IngredientDoc(newId, name, userId.value)]
  {
    var created := IngredientDoc(newId, name, userId.value);
    var p := (d: IngredientDoc) => d.createdBy == userId.value;
    FilterAppend(ingredients, [created], p);
    assert Filter([created], p) == [created];
  }

  /** Whatever order the store lists the collection in after the POST (the
      store orders by the generated id, so the new document may come
      anywhere), the caller's next GET holds the ingredients GET listed
      before, each as often, and the new ingredient once more. */
  lemma PostThenGetSeesAnyOrder(ingredients: seq<IngredientDoc>, listed: seq<IngredientDoc>,
                                userId: Option<string>, name: string, newId: string)
    requires Truthy(userId)
    requires multiset(listed) == multiset(PostEffect(ingredients, userId, name, newId).ingredients)
    ensures var r := Get(listed, userId);
            && r.status == 200 && r.body.Data?
            && multiset(r.body.data) ==
                 multiset(Get(ingredients, userId).body.data) + multiset{IngredientDoc(newId, name, userId.value)}
  {
    var after := PostEffect(ingredients, userId, name, newId).ingredients;
    var p := (d: IngredientDoc) => d.createdBy == userId.value;
    FilterPermutation(listed, after, p);
    PostThenGetSees(ingredients, userId, name, newId);
  }
}
