/** The document store the API routes read and write: the collections
    `inviteLinks`, `invitations`, `recipes`, `ingredients` (each a sequence
    of documents in the order a query returns them) and `users` (documents
    keyed by the user id). */
module Store {
  import opened Wrappers
  import opened Types

  /** One entry of an invite link's roster. `accessRevoked` is optional
      because nothing forces a stored entry to carry the field. */
  datatype InvitedUser = InvitedUser(userId: string, invited: bool, accessRevoked: Option<bool>)

  /** An invite link document. `invitedUsers` is optional for the same
      reason: a document may lack the roster field. */
  datatype InviteLink = InviteLink(
    id: string,
    recipeId: string,
    invitedUsers: Option<seq<InvitedUser>>,
    createdAt: string,
    createdBy: string)

  datatype InvitationStatus = Pending | Accepted | Declined

  /** A (legacy) invitation document; `createdAt` is optional because the
      route that creates invitations does not write it. */
  datatype Invitation = Invitation(
    id: string,
    invitedBy: string,
    recipeId: string,
    status: InvitationStatus,
    createdAt: Option<string>)

  /** A recipe document. */
  datatype RecipeDoc = RecipeDoc(
    id: string,
    name: string,
    note: Option<string>,
    ingredients: seq<Ingredient>,
    createdBy: string)

  /** An ingredient document. */
  datatype IngredientDoc = IngredientDoc(id: string, name: string, createdBy: string)

  /** A user document; its key in the collection is `userId`. */
  datatype UserDoc = UserDoc(
    userId: string,
    firstName: string,
    lastName: string,
    email: string,
    avatar: string,
    createdAt: string)

  /** The store. Generated document ids are supplied by the caller of each
      insert, with the store's promise that they are not yet in use. */
  class Db {
    var inviteLinks: seq<InviteLink>
    var invitations: seq<Invitation>
    var recipes: seq<RecipeDoc>
    var ingredients: seq<IngredientDoc>
    var users: map<string, UserDoc>

    /** Document ids are unique within each collection. */
    ghost predicate Valid()
      reads this
    {
      LinkIdsUnique(inviteLinks) && InvitationIdsUnique(invitations) &&
      RecipeIdsUnique(recipes) && IngredientIdsUnique(ingredients)
    }

    predicate FreshLinkId(id: string)
      reads this
    {
      forall i :: 0 <= i < |inviteLinks| ==> inviteLinks[i].id != id
    }

    predicate FreshInvitationId(id: string)
      reads this
    {
      forall i :: 0 <= i < |invitations| ==> invitations[i].id != id
    }

    predicate FreshRecipeId(id: string)
      reads this
    {
      forall i :: 0 <= i < |recipes| ==> recipes[i].id != id
    }

    predicate FreshIngredientId(id: string)
      reads this
    {
      forall i :: 0 <= i < |ingredients| ==> ingredients[i].id != id
    }

    /** An empty store. */
    constructor ()
      ensures Valid()
      ensures inviteLinks == [] && invitations == [] && recipes == [] && ingredients == []
      ensures users == map[]
    {
      inviteLinks, invitations, recipes, ingredients := [], [], [], [];
      users := map[];
    }
  }

  ghost predicate LinkIdsUnique(s: seq<InviteLink>) {
    forall i, j :: 0 <= i < j < |s| ==> s[i].id != s[j].id
  }

  ghost predicate InvitationIdsUnique(s: seq<Invitation>) {
    forall i, j :: 0 <= i < j < |s| ==> s[i].id != s[j].id
  }

  ghost predicate RecipeIdsUnique(s: seq<RecipeDoc>) {
    forall i, j :: 0 <= i < j < |s| ==> s[i].id != s[j].id
  }

  ghost predicate IngredientIdsUnique(s: seq<IngredientDoc>) {
    forall i, j :: 0 <= i < j < |s| ==> s[i].id != s[j].id
  }

  /** Appending a document under an unused id keeps ids unique. */
  lemma LinkIdsSnoc(s: seq<InviteLink>, d: InviteLink)
    requires LinkIdsUnique(s) && forall i :: 0 <= i < |s| ==> s[i].id != d.id
    ensures LinkIdsUnique(s + [d])
  {
  }

  lemma InvitationIdsSnoc(s: seq<Invitation>, d: Invitation)
    requires InvitationIdsUnique(s) && forall i :: 0 <= i < |s| ==> s[i].id != d.id
    ensures InvitationIdsUnique(s + [d])
  {
  }

  lemma RecipeIdsSnoc(s: seq<RecipeDoc>, d: RecipeDoc)
    requires RecipeIdsUnique(s) && forall i :: 0 <= i < |s| ==> s[i].id != d.id
    ensures RecipeIdsUnique(s + [d])
  {
  }

  lemma IngredientIdsSnoc(s: seq<IngredientDoc>, d: IngredientDoc)
    requires IngredientIdsUnique(s) && forall i :: 0 <= i < |s| ==> s[i].id != d.id
    ensures IngredientIdsUnique(s + [d])
  {
  }
}
