/** The legacy invitations route: POST creates a pending invitation for a
    recipe, or returns the caller's existing one; GET lists the caller's
    invitations. */
module InvitationsRoute {
  import opened Wrappers
  import opened Seqs
  import opened ApiUtils
  import opened Store

  const MissingRecipeId: string := "Missing recipe ID"
  const AlreadyExists: string := "Invitation already exists"
  const Sent: string := "Invitation sent successfully"

  /** Invitation `v` was sent by `userId` for `recipeId`. */
  predicate SentFor(v: Invitation, userId: string, recipeId: string) {
    v.invitedBy == userId && v.recipeId == recipeId
  }

  /** Index `i` holds the first invitation by `userId` for `recipeId`. */
  predicate FirstSentAt(invitations: seq<Invitation>, userId: string, recipeId: string, i: int) {
    && 0 <= i < |invitations| && SentFor(invitations[i], userId, recipeId)
    && forall j :: 0 <= j < i ==> !SentFor(invitations[j], userId, recipeId)
  }

  /** The invitations sent by `userId` for `recipeId` (the compound equality
      query), in store order. */
  function InvitationsFor(invitations: seq<Invitation>, userId: string, recipeId: string)
    : (r: seq<Invitation>)
    ensures forall v :: v in r <==> v in invitations && SentFor(v, userId, recipeId)
    ensures r == [] <==> forall j :: 0 <= j < |invitations| ==> !SentFor(invitations[j], userId, recipeId)
    ensures r != [] ==> exists i :: FirstSentAt(invitations, userId, recipeId, i) && r[0] == invitations[i]
  {
    var p := (v: Invitation) => SentFor(v, userId, recipeId);
    FilterEmpty(invitations, p);
    if Filter(invitations, p) == [] then [] else FilterHeadIsFind(invitations, p); Filter(invitations, p)
  }

  /** The response and the new `invitations` collection of one POST. */
  datatype PostOutcome = PostOutcome(response: Response<Created>, invitations: seq<Invitation>)

  /** What POST does. `recipeId` is the body's field (`None` when absent);
      authentication is checked before it is. */
  function PostEffect(invitations: seq<Invitation>, userId: Option<string>, recipeId: Option<string>,
                      newId: string): PostOutcome
  {
    match AuthenticateUser(userId)
    case Err(e) => PostOutcome(HandleErrorAndRespond(e), invitations)
    case Ok(caller) =>
      if !Truthy(recipeId) then PostOutcome(CreateResponse(ErrorBody(MissingRecipeId), 400), invitations)
      else
        var existing := InvitationsFor(invitations, caller, recipeId.value);
        if existing != [] then
          PostOutcome(CreateResponse(Data(Created(existing[0].id, AlreadyExists)), 200), invitations)
        else
          PostOutcome(CreateResponse(Data(Created(newId, Sent)), 201),
                      invitations + [Invitation(newId, caller, recipeId.value, Pending, None)])
  }

  /** POST /api/invitations on the store `db`. */
  method Post(db: Db, userId: Option<string>, recipeId: Option<string>, newId: string)
    returns (response: Response<Created>)
    requires db.Valid() && db.FreshInvitationId(newId)
    modifies db`invitations
    ensures db.Valid()
    ensures PostOutcome(response, db.invitations) == PostEffect(old(db.invitations), userId, recipeId, newId)
  {
    var auth := AuthenticateUser(userId);
    if auth.Err? {
      return HandleErrorAndRespond(auth.error);
    }
    var caller := auth.value;
    if !Truthy(recipeId) {
      return CreateResponse(ErrorBody(MissingRecipeId), 400);
    }
    var snapshot := InvitationsFor(db.invitations, caller, recipeId.value);
    if snapshot != [] {
      return CreateResponse(Data(Created(snapshot[0].id, AlreadyExists)), 200);
    }
    InvitationIdsSnoc(db.invitations, Invitation(newId, caller, recipeId.value, Pending, None));
    db.invitations := db.invitations + [Invitation(newId, caller, recipeId.value, Pending, None)];
    response := CreateResponse(Data(Created(newId, Sent)), 201);
  }

  /** Without a signed-in caller POST answers the guard's 400, whatever the
      body holds; a signed-in caller without `recipeId` gets the validation
      400. Neither changes the collection. */
  lemma PostRejects(invitations: seq<Invitation>, userId: Option<string>, recipeId: Option<string>,
                    newId: string)
    ensures !Truthy(userId) ==>
              PostEffect(invitations, userId, recipeId, newId) ==
              PostOutcome(Response(400, ErrorBody(NotAuthenticated)), invitations)
    ensures Truthy(userId) && !Truthy(recipeId) ==>
              PostEffect(invitations, userId, recipeId, newId) ==
              PostOutcome(Response(400, ErrorBody(MissingRecipeId)), invitations)
  {
  }

  /** When the caller already invited for `recipeId`, POST answers 200 with
      the first such invitation's id and changes nothing; otherwise it
      appends a pending invitation by the caller and answers 201. */
  lemma PostGetOrCreate(invitations: seq<Invitation>, userId: Option<string>, recipeId: Option<string>,
                        newId: string)
    requires Truthy(userId) && Truthy(recipeId)
    ensures var o := PostEffect(invitations, userId, recipeId, newId);
            || (exists i :: && FirstSentAt(invitations, userId.value, recipeId.value, i)
                            && o == PostOutcome(Response(200, Data(Created(invitations[i].id, AlreadyExists))),
                                                invitations))
            || (&& (forall j :: 0 <= j < |invitations| ==> !SentFor(invitations[j], userId.value, recipeId.value))
                && o == PostOutcome(Response(201, Data(Created(newId, Sent))),
                                    invitations + [Invitation(newId, userId.value, recipeId.value, Pending, None)]))
  {
    var existing := InvitationsFor(invitations, userId.value, recipeId.value);
    if existing != [] {
      var i :| FirstSentAt(invitations, userId.value, recipeId.value, i) && existing[0] == invitations[i];
      assert PostEffect(invitations, userId, recipeId, newId) ==
             PostOutcome(Response(200, Data(Created(invitations[i].id, AlreadyExists))), invitations);
    }
  }

  /** Repeating a POST answers 200 with the id of the first answer and adds
      nothing; so the route creates at most one invitation per caller and
      recipe. */
  lemma PostIdempotent(invitations: seq<Invitation>, userId: Option<string>, recipeId: Option<string>,
                       newId: string, newId2: string)
    requires Truthy(userId) && Truthy(recipeId)
    ensures var first := PostEffect(invitations, userId, recipeId, newId);
            var second := PostEffect(first.invitations, userId, recipeId, newId2);
            second.invitations == first.invitations &&
            second.response.status == 200 && second.response.body.Data? && first.response.body.Data? &&
            second.response.body.data.id == first.response.body.data.id
    ensures var after := PostEffect(invitations, userId, recipeId, newId).invitations;
            |InvitationsFor(after, userId.value, recipeId.value)| ==
              if InvitationsFor(invitations, userId.value, recipeId.value) == [] then 1
              else |InvitationsFor(invitations, userId.value, recipeId.value)|
  {
    var caller, rid := userId.value, recipeId.value;
    var p := (v: Invitation) => SentFor(v, caller, rid);
    if InvitationsFor(invitations, caller, rid) == [] {
      var created := Invitation(newId, caller, rid, Pending, None);
      FilterAppend(invitations, [created], p);
      assert Filter([created], p) == [created];
      assert InvitationsFor(invitations + [created], caller, rid) == [created];
    }
  }

  /** One entry of GET's answer: an invitation without `invitedBy`. */
  datatype InvitationView = InvitationView(id: string, recipeId: string, status: InvitationStatus,
                                           createdAt: Option<string>)

  function ViewOf(v: Invitation): InvitationView {
    InvitationView(v.id, v.recipeId, v.status, v.createdAt)
  }

  /** GET /api/invitations over the snapshot `invitations`. */
  function Get(invitations: seq<Invitation>, userId: Option<string>): Response<seq<InvitationView>> {
    match AuthenticateUser(userId)
    case Err(e) => HandleErrorAndRespond(e)
    case Ok(caller) =>
      var mine := Filter(invitations, (v: Invitation) => v.invitedBy == caller);
      CreateResponse(Data(seq(|mine|, k requires 0 <= k < |mine| => ViewOf(mine[k]))), 200)
  }

  /** GET answers 200 with the projections of exactly the caller's
      invitations, in store order. */
  lemma GetOwnInvitations(invitations: seq<Invitation>, userId: Option<string>)
    requires Truthy(userId)
    ensures var r := Get(invitations, userId);
            r.status == 200 && r.body.Data? &&
            var mine := Filter(invitations, (v: Invitation) => v.invitedBy == userId.value);
            IsSubsequence(mine, invitations) &&
            (forall v :: v in mine <==> v in invitations && v.invitedBy == userId.value) &&
            |r.body.data| == |mine| &&
            forall k :: 0 <= k < |mine| ==>
              r.body.data[k] == InvitationView(mine[k].id, mine[k].recipeId, mine[k].status, mine[k].createdAt)
  {
    FilterIsSubsequence(invitations, (v: Invitation) => v.invitedBy == userId.value);
  }

  /** An invitation this route creates has no `createdAt`, so GET reports
      it without one. */
  lemma CreatedHasNoTimestamp(invitations: seq<Invitation>, userId: Option<string>, recipeId: Option<string>,
                              newId: string)
    requires Truthy(userId) && Truthy(recipeId)
    requires InvitationsFor(invitations, userId.value, recipeId.value) == []
    ensures var after := PostEffect(invitations, userId, recipeId, newId).invitations;
            |after| == |invitations| + 1 &&
            ViewOf(after[|invitations|]) == InvitationView(newId, recipeId.value, Pending, None)
  {
  }
}
