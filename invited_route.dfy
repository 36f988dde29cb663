/** The "shared with me" query: the invite links on whose roster a given
    user has an entry whose access is not revoked. */
module InvitedRoute {
  import opened Wrappers
  import opened Seqs
  import opened ApiUtils
  import opened Store

  const UserIdRequired: string := "User ID is required"

  /** Some roster entry of `link` has `userId` and an `accessRevoked` field
      that is exactly `false`. A link without a roster has no such entry. */
  predicate SharedWith(link: InviteLink, userId: string) {
    link.invitedUsers.Some? &&
    Any(link.invitedUsers.value,
        (u: InvitedUser) => u.userId == userId && u.accessRevoked == Some(false))
  }

  /** GET /api/inviteLinks/invited?userId=... over the snapshot of all links.
      `authUserId` is the identity provider's answer, `userIdParam` the query
      parameter (`None` when absent). */
  function Get(links: seq<InviteLink>, authUserId: Option<string>, userIdParam: Option<string>)
    : Response<seq<InviteLink>>
  {
    match AuthenticateUser(authUserId)
    case Err(e) => HandleErrorAndRespond(e)
    case Ok(_) =>
      if !Truthy(userIdParam) then CreateResponse(ErrorBody(UserIdRequired), 400)
      else
        var u := userIdParam.value;
        CreateResponse(Data(Filter(links, (l: InviteLink) => SharedWith(l, u))), 200)
  }

  /** A missing or empty `userId` parameter answers 400 to a signed-in caller. */
  lemma GetRequiresUserId(links: seq<InviteLink>, authUserId: Option<string>, userIdParam: Option<string>)
    requires Truthy(authUserId) && !Truthy(userIdParam)
    ensures Get(links, authUserId, userIdParam) == Response(400, ErrorBody(UserIdRequired))
  {
  }

  /** With a parameter, GET answers 200 with an order-preserving subsequence
      of the stored links, holding a link exactly when some entry of its
      roster names the user with `accessRevoked` equal to `false`. */
  lemma GetSharedLinks(links: seq<InviteLink>, authUserId: Option<string>, userIdParam: Option<string>)
    requires Truthy(authUserId) && Truthy(userIdParam)
    ensures var r := Get(links, authUserId, userIdParam);
            r.status == 200 && r.body.Data? &&
            IsSubsequence(r.body.data, links) &&
            forall l :: l in r.body.data <==>
              l in links && l.invitedUsers.Some? &&
              exists k :: 0 <= k < |l.invitedUsers.value| &&
                          l.invitedUsers.value[k].userId == userIdParam.value &&
                          l.invitedUsers.value[k].accessRevoked == Some(false)
  {
    var u := userIdParam.value;
    FilterIsSubsequence(links, (l: InviteLink) => SharedWith(l, u));
  }

  /** A link with no roster field is never returned. */
  lemma NoRosterExcluded(links: seq<InviteLink>, authUserId: Option<string>, userIdParam: Option<string>,
                         l: InviteLink)
    requires Truthy(authUserId) && Truthy(userIdParam)
    requires l.invitedUsers.None?
    ensures Get(links, authUserId, userIdParam).body.Data?
    ensures l !in Get(links, authUserId, userIdParam).body.data
  {
  }

  /** The answer depends on the parameter only: any two signed-in callers
      get the same response. */
  lemma GetIgnoresCaller(links: seq<InviteLink>, a: Option<string>, b: Option<string>,
                         userIdParam: Option<string>)
    requires Truthy(a) && Truthy(b)
    ensures Get(links, a, userIdParam) == Get(links, b, userIdParam)
  {
  }
}
