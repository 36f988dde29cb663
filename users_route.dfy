/** The users route: POST stores the signed-in user's profile on first
    sign-in and returns the stored document afterwards; GET lists every user
    document. */
module UsersRoute {
  import opened Wrappers
  import opened ApiUtils
  import opened Store

  const Stored: string := "User information stored successfully"

  /** What the identity provider reports about a user; every field may be
      missing. */
  datatype Profile = Profile(
    firstName: Option<string>,
    lastName: Option<string>,
    primaryEmail: Option<string>,
    imageUrl: Option<string>)

  /** POST's payload: the message and the user document. */
  datatype UserReply = UserReply(message: string, user: UserDoc)

  /** The document built for a first sign-in: missing or empty profile
      fields become `""`. */
  function NewUser(userId: string, p: Profile, now: string): (u: UserDoc)
    ensures u.userId == userId && u.createdAt == now
    ensures u.firstName == (if Truthy(p.firstName) then p.firstName.value else "")
    ensures u.lastName == (if Truthy(p.lastName) then p.lastName.value else "")
    ensures u.email == (if Truthy(p.primaryEmail) then p.primaryEmail.value else "")
    ensures u.avatar == (if Truthy(p.imageUrl) then p.imageUrl.value else "")
  {
    UserDoc(userId, OrElse(p.firstName, ""), OrElse(p.lastName, ""), OrElse(p.primaryEmail, ""),
            OrElse(p.imageUrl, ""), now)
  }

  /** The response and the new `users` collection of one POST. */
  datatype PostOutcome = PostOutcome(response: Response<UserReply>, users: map<string, UserDoc>)

  /** What POST does. `profile` is the identity provider's answer for the
      caller (it is asked only when no document exists, and may throw);
      `now` is the creation timestamp. */
  function PostEffect(users: map<string, UserDoc>, userId: Option<string>,
                      profile: Result<Profile, Thrown>, now: string): PostOutcome
  {
    match AuthenticateUser(userId)
    case Err(e) => PostOutcome(HandleErrorAndRespond(e), users)
    case Ok(caller) =>
      if caller in users then
        PostOutcome(CreateResponse(Data(UserReply(Stored, users[caller])), 200), users)
      else
        match profile
        case Err(e) => PostOutcome(HandleErrorAndRespond(e), users)
        case Ok(p) =>
          var u := NewUser(caller, p, now);
          PostOutcome(CreateResponse(Data(UserReply(Stored, u)), 200), users[caller := u])
  }

  /** POST /api/users on the store `db`. */
  method Post(db: Db, userId: Option<string>, profile: Result<Profile, Thrown>, now: string)
    returns (response: Response<UserReply>)
    requires db.Valid()
    modifies db`users
    ensures db.Valid()
    ensures PostOutcome(response, db.users) == PostEffect(old(db.users), userId, profile, now)
  {
    var auth := AuthenticateUser(userId);
    if auth.Err? {
      return HandleErrorAndRespond(auth.error);
    }
    var caller := auth.value;
    var userData: UserDoc;
    if caller in db.users {
      userData := db.users[caller];
    } else {
      if profile.Err? {
        return HandleErrorAndRespond(profile.error);
      }
      userData := NewUser(caller, profile.value, now);
      db.users := db.users[caller := userData];
    }
    response := CreateResponse(Data(UserReply(Stored, userData)), 200);
  }

  /** A caller who already has a document gets it back with 200 and nothing
      is written, whatever the identity provider would answer. */
  lemma PostExisting(users: map<string, UserDoc>, userId: Option<string>,
                     profile: Result<Profile, Thrown>, now: string)
    requires Truthy(userId) && userId.value in users
    ensures PostEffect(users, userId, profile, now) ==
            PostOutcome(Response(200, Data(UserReply(Stored, users[userId.value]))), users)
  {
  }

  /** A first sign-in stores the profile under the caller's id and answers
      200 with it; if the identity provider throws, the answer is the 400
      error response and nothing is written. An unauthenticated call is the
      guard's 400 and writes nothing. */
  lemma PostFirstSignIn(users: map<string, UserDoc>, userId: Option<string>,
                        profile: Result<Profile, Thrown>, now: string)
    ensures !Truthy(userId) ==>
              PostEffect(users, userId, profile, now) ==
              PostOutcome(Response(400, ErrorBody(NotAuthenticated)), users)
    ensures Truthy(userId) && userId.value !in users && profile.Ok? ==>
              var o := PostEffect(users, userId, profile, now);
              o.users == users[userId.value := NewUser(userId.value, profile.value, now)] &&
              o.response == Response(200, Data(UserReply(Stored, NewUser(userId.value, profile.value, now))))
    ensures Truthy(userId) && userId.value !in users && profile.Err? ==>
              var o := PostEffect(users, userId, profile, now);
              o.users == users && o.response.status == 400 && o.response.body.ErrorBody?
  {
  }

  /** Repeating POST writes nothing and answers with the same user data,
      even if the profile or the clock differ. */
  lemma PostIdempotent(users: map<string, UserDoc>, userId: Option<string>,
                       profile: Result<Profile, Thrown>, now: string,
                       profile2: Result<Profile, Thrown>, now2: string)
    requires Truthy(userId)
    requires PostEffect(users, userId, profile, now).response.status == 200
    ensures var first := PostEffect(users, userId, profile, now);
            var second := PostEffect(first.users, userId, profile2, now2);
            second.users == first.users
            && second.response == first.response
  {
  }

  /** Only the document keyed by the caller's own id can be written, and only
      when it did not exist: every other key keeps its document. */
  lemma PostWritesOnlyCaller(users: map<string, UserDoc>, userId: Option<string>,
                             profile: Result<Profile, Thrown>, now: string)
    ensures var after := PostEffect(users, userId, profile, now).users;
            && (forall k :: k in after && !(Truthy(userId) && k == userId.value) ==> k in users)
            && (forall k :: k in users ==> k in after && after[k] == users[k])
  {
  }

  /** One entry of GET's answer: a document with its key. */
  datatype UserEntry = UserEntry(id: string, user: UserDoc)

  /** `order` lists each key of the collection exactly once, in the order
      the store enumerates them. */
  ghost predicate Enumerates(order: seq<string>, users: map<string, UserDoc>) {
    && (forall k :: k in order <==> k in users)
    && (forall i, j :: 0 <= i < j < |order| ==> order[i] != order[j])
  }

  /** GET /api/users, with the store enumerating its keys as `order`. */
  function Get(users: map<string, UserDoc>, order: seq<string>, userId: Option<string>)
    : Response<seq<UserEntry>>
    requires Enumerates(order, users)
  {
    match AuthenticateUser(userId)
    case Err(e) => HandleErrorAndRespond(e)
    case Ok(_) => CreateResponse(Data(seq(|order|, i requires 0 <= i < |order| => UserEntry(order[i], users[order[i]]))), 200)
  }

  /** GET answers the guard's 400 to an unauthenticated caller; otherwise
      200 with every user document exactly once, each with its key. */
  lemma GetAllUsers(users: map<string, UserDoc>, order: seq<string>, userId: Option<string>)
    requires Enumerates(order, users)
    ensures !Truthy(userId) ==> Get(users, order, userId) == Response(400, ErrorBody(NotAuthenticated))
    ensures Truthy(userId) ==>
              var r := Get(users, order, userId);
              && r.status == 200 && r.body.Data?
              && |r.body.data| == |order|
              && (forall k :: k in users <==> exists i :: 0 <= i < |r.body.data| && r.body.data[i].id == k)
              && (forall i :: 0 <= i < |r.body.data| ==> r.body.data[i].id in users && r.body.data[i].user == users[r.body.data[i].id])
              && (forall i, j :: 0 <= i < j < |r.body.data| ==> r.body.data[i].id != r.body.data[j].id)
  {
    if Truthy(userId) {
      var r := Get(users, order, userId);
      forall k | k in users
        ensures exists i :: 0 <= i < |r.body.data| && r.body.data[i].id == k
      {
        var i :| 0 <= i < |order| && order[i] == k;
        assert r.body.data[i].id == k;
      }
    }
  }
}
