/** The invite-link registry route: POST creates the link for a recipe, or
    returns the one that already exists; GET lists the caller's links. */
module InviteLinksRoute {
  import opened Wrappers
  import opened Seqs
  import opened ApiUtils
  import opened Store

  /** `links[i]` is the first link whose `recipeId` equals `recipeId`. */
  predicate FirstLinkAt(links: seq<InviteLink>, recipeId: string, i: int) {
    0 <= i < |links| && links[i].recipeId == recipeId &&
    forall j :: 0 <= j < i ==> links[j].recipeId != recipeId
  }

  /** There is only one first matching link. */
  lemma FirstLinkUnique(links: seq<InviteLink>, recipeId: string, i: int, j: int)
    requires FirstLinkAt(links, recipeId, i) && FirstLinkAt(links, recipeId, j)
    ensures i == j
  {
  }

  /** The links whose `recipeId` equals `recipeId`, in store order (the
      equality query on `recipeId`); its first document is the first
      matching link of the collection. */
  function LinksFor(links: seq<InviteLink>, recipeId: string): (r: seq<InviteLink>)
    ensures forall l :: l in r <==> l in links && l.recipeId == recipeId
    ensures r == [] <==> forall j :: 0 <= j < |links| ==> links[j].recipeId != recipeId
    ensures r != [] ==> exists i :: FirstLinkAt(links, recipeId, i) && r[0] == links[i]
  {
    var p := (l: InviteLink) => l.recipeId == recipeId;
    FilterEmpty(links, p);
    if Filter(links, p) == [] then [] else FilterHeadIsFind(links, p); Filter(links, p)
  }

  /** The query's first document is the first matching link. */
  lemma FirstLinkFound(links: seq<InviteLink>, recipeId: string, i: int)
    requires FirstLinkAt(links, recipeId, i)
    ensures LinksFor(links, recipeId) != [] && LinksFor(links, recipeId)[0] == links[i]
  {
    var r := LinksFor(links, recipeId);
    var j :| FirstLinkAt(links, recipeId, j) && r[0] == links[j];
    FirstLinkUnique(links, recipeId, i, j);
  }

  /** The links created by `userId`, in store order. */
  function LinksBy(links: seq<InviteLink>, userId: string): (r: seq<InviteLink>)
    ensures forall l :: l in r <==> l in links && l.createdBy == userId
  {
    Filter(links, (l: InviteLink) => l.createdBy == userId)
  }

  /** The response and the new `inviteLinks` collection of one POST. */
  datatype PostOutcome = PostOutcome(response: Response<string>, links: seq<InviteLink>)

  /** What POST does to the collection `links`. `userId` is the identity
      provider's answer, `createdAt` the clock and `newId` the id the store
      generates for an insert. */
  function PostEffect(links: seq<InviteLink>, userId: Option<string>, recipeId: string,
                      createdAt: string, newId: string): PostOutcome
  {
    match AuthenticateUser(userId)
    case Err(e) => PostOutcome(HandleErrorAndRespond(e), links)
    case Ok(caller) =>
      var existing := LinksFor(links, recipeId);
      if existing != [] then
        PostOutcome(CreateResponse(Data(existing[0].id), 200), links)
      else
        PostOutcome(CreateResponse(Data(newId), 201),
                    links + [InviteLink(newId, recipeId, Some([]), createdAt, caller)])
  }

  /** POST /api/inviteLinks on the store `db`. */
  method Post(db: Db, userId: Option<string>, recipeId: string, createdAt: string, newId: string)
    returns (response: Response<string>)
    requires db.Valid() && db.FreshLinkId(newId)
    modifies db`inviteLinks
    ensures db.Valid()
    ensures PostOutcome(response, db.inviteLinks) ==
            PostEffect(old(db.inviteLinks), userId, recipeId, createdAt, newId)
  {
    var auth := AuthenticateUser(userId);
    if auth.Err? {
      return HandleErrorAndRespond(auth.error);
    }
    var caller := auth.value;
    var snapshot := LinksFor(db.inviteLinks, recipeId);
    if snapshot != [] {
      return CreateResponse(Data(snapshot[0].id), 200);
    }
    LinkIdsSnoc(db.inviteLinks, InviteLink(newId, recipeId, Some([]), createdAt, caller));
    db.inviteLinks := db.inviteLinks + [InviteLink(newId, recipeId, Some([]), createdAt, caller)];
    response := CreateResponse(Data(newId), 201);
  }

  /** An unauthenticated POST answers 400 and leaves the collection as it was. */
  lemma PostUnauthenticated(links: seq<InviteLink>, userId: Option<string>, recipeId: string,
                            createdAt: string, newId: string)
    requires !Truthy(userId)
    ensures PostEffect(links, userId, recipeId, createdAt, newId) ==
            PostOutcome(Response(400, ErrorBody(NotAuthenticated)), links)
  {
  }

  /** When a link for `recipeId` exists, POST answers 200 with the id of the
      first such link and changes nothing. */
  lemma PostExisting(links: seq<InviteLink>, userId: Option<string>, recipeId: string,
                     createdAt: string, newId: string, i: nat)
    requires Truthy(userId)
    requires i < |links| && links[i].recipeId == recipeId
    ensures exists k :: 0 <= k < |links| && links[k].recipeId == recipeId &&
                        (forall j :: 0 <= j < k ==> links[j].recipeId != recipeId) &&
                        PostEffect(links, userId, recipeId, createdAt, newId) ==
                        PostOutcome(Response(200, Data(links[k].id)), links)
  {
    assert links[i] in LinksFor(links, recipeId);
  }

  /** When no link for `recipeId` exists, POST appends one with an empty
      roster, created by the caller, and answers 201 with its id. */
  lemma PostCreates(links: seq<InviteLink>, userId: Option<string>, recipeId: string,
                    createdAt: string, newId: string)
    requires Truthy(userId)
    requires forall j :: 0 <= j < |links| ==> links[j].recipeId != recipeId
    ensures PostEffect(links, userId, recipeId, createdAt, newId) ==
            PostOutcome(Response(201, Data(newId)),
                        links + [InviteLink(newId, recipeId, Some([]), createdAt, userId.value)])
  {
  }

  /** A second POST for the same recipe, by any signed-in caller, answers 200
      with the id the first one answered and adds no document. */
  lemma PostIdempotent(links: seq<InviteLink>, userId: Option<string>, recipeId: string,
                       createdAt: string, newId: string,
                       userId2: Option<string>, createdAt2: string, newId2: string)
    requires Truthy(userId) && Truthy(userId2)
    ensures var first := PostEffect(links, userId, recipeId, createdAt, newId);
            var second := PostEffect(first.links, userId2, recipeId, createdAt2, newId2);
            second.links == first.links &&
            second.response == Response(200, first.response.body)
  {
    var p := (l: InviteLink) => l.recipeId == recipeId;
    var first := PostEffect(links, userId, recipeId, createdAt, newId);
    if LinksFor(links, recipeId) == [] {
      var created := InviteLink(newId, recipeId, Some([]), createdAt, userId.value);
      FilterAppend(links, [created], p);
      assert Filter([created], p) == [created];
      assert LinksFor(first.links, recipeId) == [created];
    }
  }

  /** POST never makes a second link for a recipe: afterwards there are as
      many links for `recipeId` as before, or one if there were none, and
      the links of every other recipe are untouched. */
  lemma PostNeverDuplicates(links: seq<InviteLink>, userId: Option<string>, recipeId: string,
                            createdAt: string, newId: string, other: string)
    requires Truthy(userId) && other != recipeId
    ensures var after := PostEffect(links, userId, recipeId, createdAt, newId).links;
            |LinksFor(after, recipeId)| ==
              (if LinksFor(links, recipeId) == [] then 1 else |LinksFor(links, recipeId)|) &&
            LinksFor(after, other) == LinksFor(links, other)
  {
    if LinksFor(links, recipeId) == [] {
      var created := InviteLink(newId, recipeId, Some([]), createdAt, userId.value);
      FilterAppend(links, [created], (l: InviteLink) => l.recipeId == recipeId);
      FilterAppend(links, [created], (l: InviteLink) => l.recipeId == other);
      assert Filter([created], (l: InviteLink) => l.recipeId == other) == [];
    }
  }

  /** GET /api/inviteLinks over the snapshot `links`: the caller's links. */
  function Get(links: seq<InviteLink>, userId: Option<string>): Response<seq<InviteLink>> {
    match AuthenticateUser(userId)
    case Err(e) => HandleErrorAndRespond(e)
    case Ok(caller) => CreateResponse(Data(LinksBy(links, caller)), 200)
  }

  /** GET answers 400 to an unauthenticated caller, and otherwise 200 with
      exactly the links the caller created, in store order. */
  lemma GetOwnLinks(links: seq<InviteLink>, userId: Option<string>)
    ensures !Truthy(userId) ==> Get(links, userId) == Response(400, ErrorBody(NotAuthenticated))
    ensures Truthy(userId) ==>
              Get(links, userId).status == 200 && Get(links, userId).body.Data? &&
              var r := Get(links, userId).body.data;
              IsSubsequence(r, links) &&
              forall l :: l in r <==> l in links && l.createdBy == userId.value
  {
    if Truthy(userId) {
      FilterIsSubsequence(links, (l: InviteLink) => l.createdBy == userId.value);
    }
  }
}
