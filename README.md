# my-recipe-network, modelled in Dafny

This project models the server and client logic of my-recipe-network, a
recipe-sharing web application. Users keep recipes made of ingredient lines.
They share their recipe collection through invite links, and an invite
link's roster (`invitedUsers`) says who may read it.

The model covers:

- **The shared API helpers** (`ApiUtils`): the authentication guard, the
  error-to-response mapping (always status 400) and response creation.
- **The document store** (`Store.Db`). This class holds:
  - the sequence collections `inviteLinks`, `invitations`, `recipes` and
    `ingredients`;
  - the `users` map, keyed by user id.

  Every write handler is a method on it, with a field frame. Each method is
  proved equal to a pure transition function (`PostEffect`), and the
  properties of the route are proved about that function.
- **The API routes**, one module each:
  - `RecipesRoute`: the access gate, the search and projection loop, the name
    sort, and recipe creation;
  - `InviteLinksRoute`: create-or-return an invite link per recipe id, and
    list the caller's links;
  - `InvitedRoute`: the "shared with me" query;
  - `InvitationsRoute`: legacy invitations, get-or-create per (inviter, recipe);
  - `UsersRoute`: a user upsert keyed by user id, and a listing;
  - `IngredientsRoute`: ingredients, with the route's own 401 answer.

  GET handlers are functions over the snapshot a query returns. The recipes
  GET is a method with the source's loops, proved against the functions
  `AccessGate`, `Collect` and `OwnedBy`.
- **The client components**:
  - `RecipeForm`: the recipe form's schema, written as a parser, and its
    submit dispatch;
  - `IngredientForm`: the ingredient form's name check, and the trim on submit;
  - `IngredientList`: the ingredient list's keyed upserts and displayed values;
  - `RecipeList`: the recipe card's unit label;
  - `RecipeStore.Store`: the client recipe store, as a class;
  - `Greeting`: the greeting chosen by the hour.
- **Shared vocabulary**:
  - `Wrappers`: `Option`, `Result`, JavaScript truthiness of optional strings;
  - `Seqs`: `find`, `findIndex`, `filter` and the subsequence relation;
  - `Text`: case folding, substring search, the name order and `trim`;
  - `Types`: the unit enumeration and the ingredient and recipe records.

Some of the behaviour the model makes explicit:

- **Links are keyed by the owner's user id.** The recipes GET looks for an
  invite link whose `recipeId` equals the target user id. This is how the
  app keys its links: the pages that create links and invitations pass the
  owner's user id as the recipe id. When no such link exists, GET answers
  403, even to the owner, because that check comes before the ownership
  test.
- **The two roster checks differ.** The recipes GET judges a non-owner by the
  FIRST roster entry with their id. The "shared with me" query accepts ANY
  entry whose `accessRevoked` is exactly `false`. A roster with a revoked
  entry followed by an active one for the same user shows the difference. So
  does an entry without the `accessRevoked` field.
- **List lines the recipe form rejects.** The ingredient list appends lines
  without an `id`. The recipe form's line schema requires a non-empty `id`, so
  it rejects them.
- **Two unit lists.** The unit enumeration has eleven names, `"fruit"`
  included. The unit picker offers only ten of them.

## Model

| member | source | states |
|---|---|---|
| ApiUtils.AuthenticateUser | lib/apiUtils.ts:5-11 | succeeds exactly when the reported id is present and non-empty, returning it; otherwise throws the "User not authenticated" error |
| ApiUtils.HandleErrorResponse | lib/apiUtils.ts:18-24 | status is 400 for every thrown value; the message is the error's own for an Error and the fixed fallback text otherwise |
| ApiUtils.CreateResponse | lib/apiUtils.ts:32-34 | the body and status are passed through unchanged |
| ApiUtils.HandleErrorAndRespond | lib/apiUtils.ts:41-44 | an `{ error }` body with the mapped message and status 400 |
| ApiUtils.UnauthenticatedResponse | lib/apiUtils.ts:5-44 | any handler starting with the guard answers an unauthenticated request with 400 and the guard's message |
| Types.ParseUnit | types.ts:1-12 | a string is accepted as a unit only if it is the name of that unit |
| Types.ParseUnitName | types.ts:1-12 | every one of the eleven unit names is accepted as its own unit |
| Types.UnitArrayOmitsFruit | data/recipes.ts:83-94 | the picker list has ten entries, each a valid unit name; a unit's name is in it exactly when the unit is not "fruit" |
| RecipesRoute.CheckAccessForUser | app/api/recipes/route.ts:27-44 | denied exactly when no roster entry has the user's id or the first such entry is revoked (a missing flag counts as not revoked); granted otherwise; a link without a roster throws |
| RecipesRoute.GateTarget | app/api/recipes/route.ts:50-56 | a request the gate lets through targets the `userId` parameter when it is non-empty and the caller otherwise, and searches for the `search` parameter when it is non-empty and for "" otherwise |
| RecipesRoute.GateUnauthenticated | app/api/recipes/route.ts:48-50 | an unauthenticated request is answered 400 with the guard's message, before anything else |
| RecipesRoute.NoLinkForbidsEvenOwner | app/api/recipes/route.ts:58-71 | without a link whose `recipeId` equals the target user id, the answer is 403 "No access to this recipe", to the owner too |
| RecipesRoute.OwnerSkipsRoster | app/api/recipes/route.ts:69-85 | once such a link exists, the owner is let through whatever the roster holds |
| RecipesRoute.NonOwnerFirstLinkDecides | app/api/recipes/route.ts:73-85 | a non-owner is let through exactly when the first link's roster grants access; every denial is the same generic 403; a first link without a roster gives 400 |
| RecipesRoute.AccessGranted | app/api/recipes/route.ts:32-43 | with a roster the check does not throw, and it grants exactly when the first entry with the user's id is not revoked |
| RecipesRoute.LaterLinksIgnored | app/api/recipes/route.ts:74-77 | links after the first one for the target never change the gate's decision |
| RecipesRoute.FirstEntryVersusAnyEntry | app/api/recipes/route.ts:32-43 | with a revoked entry followed by an active one for the same user, this check denies while the "shared with me" query lists the link |
| RecipesRoute.MissingRevokedFlag | app/api/recipes/route.ts:39-42 | an entry without `accessRevoked` is granted here but not listed by the "shared with me" query |
| RecipesRoute.OwnedBy | app/api/recipes/route.ts:88-93 | exactly the documents created by the target, in store order |
| RecipesRoute.EmptySearchKeepsAll | app/api/recipes/route.ts:101-102 | an empty search keeps every document of the target |
| RecipesRoute.SearchIgnoresCase | app/api/recipes/route.ts:103 | the filter gives the same verdict whatever the case of the name and of the search text |
| RecipesRoute.ProjectLine | app/api/recipes/route.ts:114-118 | a returned line carries only the id, quantity and unit of the stored line |
| RecipesRoute.View | app/api/recipes/route.ts:121-124 | a returned recipe keeps the document's id, name, note and creator, with each line projected |
| RecipesRoute.ProjectIngredients | app/api/recipes/route.ts:105-119 | the projected lines, in order, when every line has a non-empty id; the error case exactly when one lacks it |
| RecipesRoute.CollectRecipes | app/api/recipes/route.ts:95-126 | the loop's result equals the reference definition of searching, projecting and throwing on the first kept document with a line lacking an id |
| RecipesRoute.CollectErrorSticks | app/api/recipes/route.ts:107-112 | once the loop has thrown, later documents cannot change the outcome |
| RecipesRoute.CollectMeaning | app/api/recipes/route.ts:97-126 | the loop succeeds exactly when every kept document has ids on all lines, and then returns the views of the kept documents, in store order |
| RecipesRoute.CollectFailure | app/api/recipes/route.ts:97-112 | a failing loop's error names the first kept document with a line lacking an id; every kept document before it has ids on all lines |
| RecipesRoute.SortByName | app/api/recipes/route.ts:128-129 | the result is sorted ascending by name and is a permutation of the input; recipes of the same name keep their input order, as the stable array sort keeps them |
| RecipesRoute.SortedStableUnique | app/api/recipes/route.ts:128-129 | two name-sorted sequences holding the recipes of every name in the same order are equal, so the stable sort leaves GET's body no freedom |
| RecipesRoute.Get | app/api/recipes/route.ts:47-135 | the gate's answer when it denies; otherwise the 400 error of the loop, or 200 with the collected views sorted by name, same-named recipes in collected order |
| RecipesRoute.GetServesKeptRecipes | app/api/recipes/route.ts:87-131 | a successful answer holds a recipe exactly when it is the view of a document of the target that the search keeps |
| RecipesRoute.Post | app/api/recipes/route.ts:138-160 | the new response and collection are those of the POST transition, and document ids stay unique |
| RecipesRoute.PostStores | app/api/recipes/route.ts:141-156 | unauthenticated: 400 and nothing stored; otherwise the body's fields are stored with `createdBy` set to the caller, at the end of the collection, answered 201 with the new id |
| RecipesRoute.PostThenGetSees | app/api/recipes/route.ts:143-151 | a recipe the caller has just stored appears in the caller's unfiltered listing, provided the gate lets the caller through and every recipe of the caller has ids on its lines |
| InviteLinksRoute.LinksFor | app/api/inviteLinks/route.ts:17-22 | exactly the links for the recipe id; empty exactly when there is none; its head is the first such link |
| InviteLinksRoute.FirstLinkUnique | app/api/inviteLinks/route.ts:24-26 | the first matching link is unique |
| InviteLinksRoute.FirstLinkFound | app/api/inviteLinks/route.ts:24-26 | the query's first document is the collection's first link for the recipe id |
| InviteLinksRoute.Post | app/api/inviteLinks/route.ts:10-43 | the new response and collection are those of the POST transition, and link ids stay unique |
| InviteLinksRoute.PostUnauthenticated | app/api/inviteLinks/route.ts:13-42 | an unauthenticated POST answers 400 and leaves the collection as it was |
| InviteLinksRoute.PostExisting | app/api/inviteLinks/route.ts:17-28 | when a link for the recipe id exists, the answer is 200 with the first such link's id and the collection is unchanged |
| InviteLinksRoute.PostCreates | app/api/inviteLinks/route.ts:30-39 | when none exists, a link with an empty roster, the caller as creator and the timestamp is stored at the end of the collection and its id answered with 201 |
| InviteLinksRoute.PostIdempotent | app/api/inviteLinks/route.ts:18-28 | a second POST for the same recipe id, by any signed-in caller, answers 200 with the id of the first and adds nothing |
| InviteLinksRoute.PostNeverDuplicates | app/api/inviteLinks/route.ts:18-36 | afterwards there are as many links for the recipe id as before, or one if there were none; the links of other recipe ids are untouched |
| InviteLinksRoute.LinksBy | app/api/inviteLinks/route.ts:53-56 | exactly the links created by the user |
| InviteLinksRoute.GetOwnLinks | app/api/inviteLinks/route.ts:45-72 | unauthenticated: 400; otherwise 200 with an order-preserving subsequence holding exactly the caller's links |
| InvitedRoute.GetRequiresUserId | app/api/inviteLinks/invited/route.ts:16-22 | a missing or empty `userId` parameter answers 400 "User ID is required" |
| InvitedRoute.GetSharedLinks | app/api/inviteLinks/invited/route.ts:28-49 | 200 with an order-preserving subsequence of all links, holding a link exactly when some roster entry has the parameter's id and `accessRevoked` exactly false |
| InvitedRoute.NoRosterExcluded | app/api/inviteLinks/invited/route.ts:45 | a link without a roster is never listed |
| InvitedRoute.GetIgnoresCaller | app/api/inviteLinks/invited/route.ts:13-49 | any two signed-in callers get the same answer; only the parameter matters |
| InvitationsRoute.InvitationsFor | app/api/invitations/route.ts:49-55 | exactly the invitations by the inviter for the recipe; empty exactly when none; its head is the first such invitation |
| InvitationsRoute.Post | app/api/invitations/route.ts:36-80 | the new response and collection are those of the POST transition, and invitation ids stay unique |
| InvitationsRoute.PostRejects | app/api/invitations/route.ts:41-46 | unauthenticated: 400 with the guard's message whatever the body; signed in without a recipe id: 400 "Missing recipe ID"; neither changes anything |
| InvitationsRoute.PostGetOrCreate | app/api/invitations/route.ts:48-76 | either the first invitation by the caller for the recipe is answered with 200 and nothing changes, or none exists and a pending one is appended and answered 201 |
| InvitationsRoute.PostIdempotent | app/api/invitations/route.ts:50-64 | a repeated POST answers 200 with the same id and adds nothing, so there is at most one invitation per caller and recipe |
| InvitationsRoute.CreatedHasNoTimestamp | app/api/invitations/route.ts:67-71 | a created invitation has no `createdAt`, so GET shows it without one |
| InvitationsRoute.GetOwnInvitations | app/api/invitations/route.ts:10-33 | 200 with exactly the caller's invitations in store order, each projected to id, recipe id, status and `createdAt` |
| UsersRoute.NewUser | app/api/users/route.ts:32-39 | the first-sign-in document carries the caller's id and the timestamp; a missing or empty profile field becomes "" |
| UsersRoute.Post | app/api/users/route.ts:11-53 | the new response and users map are those of the POST transition, and the other collections' id uniqueness is kept |
| UsersRoute.PostExisting | app/api/users/route.ts:17-26 | an existing document is returned with 200, unchanged and without a write, whatever the identity provider would answer |
| UsersRoute.PostFirstSignIn | app/api/users/route.ts:27-48 | unauthenticated: 400, no write; first sign-in: the profile document is stored under the caller's id and returned with 200; a failing profile lookup: 400, no write |
| UsersRoute.PostIdempotent | app/api/users/route.ts:20-26 | a second POST writes nothing and returns the same data, whatever the profile and clock then are |
| UsersRoute.PostWritesOnlyCaller | app/api/users/route.ts:14-41 | every other key keeps its document, and no key except the caller's appears |
| UsersRoute.GetAllUsers | app/api/users/route.ts:56-79 | unauthenticated: 400; otherwise 200 with every user document exactly once, each with its key |
| IngredientsRoute.Catch | app/api/ingredients/route.ts:31-42 | the route's catch block answers exactly what the shared helper does: status 400 |
| IngredientsRoute.GetOwnIngredients | app/api/ingredients/route.ts:8-30 | unauthenticated: 401 "User not authenticated"; otherwise 200 with an order-preserving subsequence holding exactly the caller's ingredients |
| IngredientsRoute.Post | app/api/ingredients/route.ts:46-82 | the new response and collection are those of the POST transition, and ingredient ids stay unique |
| IngredientsRoute.PostAddsOne | app/api/ingredients/route.ts:53-69 | unauthenticated: 401 and nothing added; otherwise `{ name, createdBy: caller }` is stored under the new id at the end of the collection, answered 201 with it |
| IngredientsRoute.PostThenGetSees | app/api/ingredients/route.ts:19-69 | with the new document at the end of query order, the caller's next listing is the previous one followed by the new ingredient |
| IngredientsRoute.PostThenGetSeesAnyOrder | app/api/ingredients/route.ts:19-69 | in whatever order the store lists the collection after the POST, the caller's next listing holds the previous listing's ingredients, each as often, and the new one once more |
| RecipeForm.ParseLine | components/RecipeForm.tsx:38-59 | a line is accepted exactly when its id is non-empty, its quantity is at least 0 and its unit is one of the eleven names; the output keeps only those three fields |
| RecipeForm.ParseLines | components/RecipeForm.tsx:70-71 | the list is accepted exactly when every line is, with the lines parsed in order |
| RecipeForm.Parse | components/RecipeForm.tsx:61-81 | accepted exactly when the name, note and lines are valid, the list is non-empty and some line has a positive quantity; name and note pass through unchanged |
| RecipeForm.ParseAccepts | components/RecipeForm.tsx:61-81 | the same acceptance condition written over the raw values: name of 1 to 30 characters, note absent or at most 200, non-empty well-formed lines, one with quantity above 0 |
| RecipeForm.AllZeroRejected | components/RecipeForm.tsx:73-80 | a list whose quantities are all 0 is rejected |
| RecipeForm.EveryUnitAccepted | components/RecipeForm.tsx:43-58 | each of the eleven unit names, "fruit" included, is accepted in a line |
| RecipeForm.OnSubmit | components/RecipeForm.tsx:126-140 | an edit of the given id exactly when an id is given, an addition otherwise, carrying the validated values unchanged |
| RecipeForm.SubmitDispatch | components/RecipeForm.tsx:126-140 | a submission happens exactly when the values are valid; it keeps name and note and the lines' id, quantity and unit, and is an edit exactly when an id is given |
| IngredientForm.OnSubmit | components/IngredientForm.tsx:70-83 | an edit exactly when an id is given, an addition otherwise, with the trimmed name |
| IngredientForm.SubmitTrims | components/IngredientForm.tsx:27-77 | a submission happens exactly when the raw name has 1 to 30 characters; the submitted name is a slice of the raw one with only white space cut off and none left at either end |
| IngredientForm.BlankNameSubmitsEmpty | components/IngredientForm.tsx:27-74 | a name of white space only passes the check and is submitted as "" |
| IngredientForm.ResubmitStable | components/IngredientForm.tsx:74 | submitting the submitted name again gives the same submission |
| IngredientList.QuantityChanged | components/IngredientList.tsx:141-171 | the handler's result is the line list with the quantity set for the row's name |
| IngredientList.UnitChanged | components/IngredientList.tsx:185-212 | the handler's result is the line list with the unit set for the row's name |
| IngredientList.QuantityChangeShape | components/IngredientList.tsx:144-169 | for a name present, same length and only the first line with that name gets the new quantity; for an absent name a line with the name, the quantity and unit "ml" is appended |
| IngredientList.UnitChangeShape | components/IngredientList.tsx:186-210 | for a name present, same length and only the first line with that name gets the new unit; for an absent name a line with the name, quantity 1 and the unit is appended |
| IngredientList.DisplayedQuantity | components/IngredientList.tsx:134-140 | the quantity of the first line with the row's name, and nothing when there is no such line or it has no quantity |
| IngredientList.DisplayedUnit | components/IngredientList.tsx:178-184 | the unit of the first line with the row's name, and nothing otherwise |
| IngredientList.QuantityChangeDisplayed | components/IngredientList.tsx:134-169 | after a quantity change the row shows the new quantity, and its unit is unchanged (or "ml" for a new line) |
| IngredientList.UnitChangeDisplayed | components/IngredientList.tsx:178-210 | after a unit change the row shows the new unit, and its quantity is unchanged (or 1 for a new line) |
| IngredientList.AppendedLineRejected | components/IngredientList.tsx:150-154 | a line either handler appends has no id, so the recipe form rejects it and any values holding it |
| RecipeList.MlNeverPlural | components/RecipeList.tsx:99-100 | "ml" is shown as is, whatever the quantity |
| RecipeList.OtherUnitLabel | components/RecipeList.tsx:101-105 | another unit gets an "s" above 1, stays unchanged for another non-zero quantity, and shows nothing for 0 or a missing quantity |
| RecipeList.LabelForms | components/RecipeList.tsx:98-105 | the label is always "", the unit, or the unit with "s" |
| RecipeList.MissingUnitLabel | components/RecipeList.tsx:101-105 | a line without a unit shows nothing, except above 1, where the concatenation gives "undefineds" |
| RecipeStore.Store.constructor | stores/recipeStore.ts:22-24 | no recipes, not loading, no error |
| RecipeStore.Store.AddRecipe | stores/recipeStore.ts:25-28 | appends at the end, keeping the old prefix; loading flag and error untouched |
| RecipeStore.Store.SetRecipes | stores/recipeStore.ts:29 | replaces the recipes and nothing else |
| RecipeStore.Store.SetLoading | stores/recipeStore.ts:30 | sets the loading flag and nothing else |
| RecipeStore.Store.SetError | stores/recipeStore.ts:31 | sets the error and nothing else |
| Greeting.Buckets | hooks/useGreeting.tsx:7-15 | hours 5-11 morning, 12-17 afternoon, 18-21 evening, 0-4 and 22-23 night, each hour in exactly one bucket |

## Left out

- Firestore and the identity provider are not modelled; the model stands in for each with something simpler:
  - a collection is an in-memory sequence, or a map keyed by user id;
  - the signed-in user is an optional id;
  - the profile lookup is a parameter that may be a thrown value;
  - generated document ids are parameters not yet used in their collection;
  - timestamps are parameters.
- Store and network failures (a rejected query or write) are not modelled. The catch blocks are modelled as functions from the thrown value to the response.
- A request body that cannot be parsed as JSON is not modelled. Parsing happens outside the handler's `try`. Also, body fields the handlers forward unchecked are typed as present, with two exceptions that are optional: the invitations route's recipe id, which that handler checks, and a recipe's `note`, which the recipes POST stores as it comes. A write with an undefined field, which the store rejects unless configured otherwise, falls under the rejected writes above.
- Concurrency is not modelled: each request is one atomic step, so the race between the existence query and the insert is not modelled.
- Roster mutation (accept, revoke, restore) and the routes for single documents are not part of this model.
- The name order is lexicographic order on characters, not locale collation. Case folding covers ASCII letters only. Lengths count characters, not UTF-16 code units.
- A new document is placed at the end of its collection's query order. Firestore orders a query without `orderBy` by document id, and a generated id is random, so in the source a new document may come anywhere in the next listing. RecipesRoute.PostStores, InviteLinksRoute.PostCreates, InvitationsRoute.PostGetOrCreate and IngredientsRoute.PostAddsOne state that end position. IngredientsRoute.PostThenGetSees relies on it; IngredientsRoute.PostThenGetSeesAnyOrder states what holds for any position. The recipes GET sorts by name, so there the position only orders recipes of the same name.
- RecipesRoute.View: the source spreads every stored field of a recipe document into the response, and a stored `id` field would override the document id. The model returns the five fields a POST writes, with the document id.
- InviteLinksRoute.PostEffect: the answer's body `{ inviteLinkId }` is modelled as the bare id.
- UsersRoute.Get: the order in which the store lists user documents is a parameter. The model states every document appears once, not in which order.
- Quantities are real numbers. NaN, infinities and the number input's floating-point stepping are not modelled.
- UI rendering, navigation, dialogs, translations and the client fetch stores are not modelled. Neither are the ingredient catalogue rows outside their `name`.
- Greeting.Buckets: the current hour is a parameter instead of a clock reading.
