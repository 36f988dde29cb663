/** The recipe read path with its access gate, and recipe creation.
    GET serves the recipes of a target user (the caller by default) after an
    access check against the first invite link whose `recipeId` equals the
    target user's id; it filters by a case-insensitive name search, projects
    each ingredient line to its id, quantity and unit, and sorts by name. */
module RecipesRoute {
  import opened Wrappers
  import opened Seqs
  import opened Text
  import opened Types
  import opened ApiUtils
  import opened Store
  import InviteLinksRoute
  import InvitedRoute

  const NotInvitedMessage: string := "User not found in invited list."
  const RevokedMessage: string := "Access has been revoked for this user."
  const GrantedMessage: string := "Access granted."
  const NoAccessMessage: string := "No access to this recipe"
  const DeniedMessage: string := "Access to this recipe has been revoked"
  const CreatedMessage: string := "Recipe created successfully"
  /** What the engine throws when `.find` is called on a missing roster. */
  const MissingRosterMessage: string := "Cannot read properties of undefined (reading 'find')"

  /** The message thrown for a kept recipe with an ingredient line that has no id. */
  function MissingIdMessage(recipeId: string): string {
    "Ingredient ID is missing for recipe ID: " + recipeId
  }

  /** The decision of `checkAccessForUser`. */
  datatype AccessResult = AccessResult(access: bool, message: string)

  /** The roster entry `userId` at index `i` is the first entry with that id. */
  predicate FirstEntryAt(roster: seq<InvitedUser>, userId: string, i: int) {
    0 <= i < |roster| && roster[i].userId == userId &&
    forall j :: 0 <= j < i ==> roster[j].userId != userId
  }

  /** Roster entries are matched on `userId`. */
  function IsUser(userId: string): InvitedUser -> bool {
    (u: InvitedUser) => u.userId == userId
  }

  /** The index `find` stops at is the first entry with the user's id. */
  lemma FoundIsFirstEntry(roster: seq<InvitedUser>, userId: string)
    ensures forall i :: FirstEntryAt(roster, userId, i) <==> FindIndex(roster, IsUser(userId)) == Some(i)
  {
    var found := FindIndex(roster, IsUser(userId));
    forall i | FirstEntryAt(roster, userId, i)
      ensures found == Some(i)
    {
      assert IsUser(userId)(roster[i]);
    }
  }

  /** Decides access from the roster of `link`: it looks at the FIRST entry
      with `userId` only. No entry: denied; that entry revoked: denied;
      otherwise granted. A link without a roster makes `.find` throw. */
  function CheckAccessForUser(link: InviteLink, userId: string): (r: Result<AccessResult, Thrown>)
    ensures r.Err? <==> link.invitedUsers.None?
    ensures r.Err? ==> r.error == ErrorValue(MissingRosterMessage)
    ensures r.Ok? ==> (r.value.access <==> r.value == AccessResult(true, GrantedMessage))
    ensures r.Ok? ==> var roster := link.invitedUsers.value;
      && ((forall j :: 0 <= j < |roster| ==> roster[j].userId != userId) <==>
          r.value == AccessResult(false, NotInvitedMessage))
      && ((exists i :: FirstEntryAt(roster, userId, i) && roster[i].accessRevoked == Some(true)) <==>
          r.value == AccessResult(false, RevokedMessage))
      && ((exists i :: FirstEntryAt(roster, userId, i) && roster[i].accessRevoked != Some(true)) <==>
          r.value == AccessResult(true, GrantedMessage))
  {
    if link.invitedUsers.None? then Err(ErrorValue(MissingRosterMessage))
    else
      var roster := link.invitedUsers.value;
      var found := FindIndex(roster, IsUser(userId));
      FoundIsFirstEntry(roster, userId);
      if found.None? then Ok(AccessResult(false, NotInvitedMessage))
      else if roster[found.value].accessRevoked == Some(true) then Ok(AccessResult(false, RevokedMessage))
      else Ok(AccessResult(true, GrantedMessage))
  }

  /** The outcome of the access gate: an early response, or leave to serve
      the recipes of `target` with the search text `search`. */
  datatype Gate = Deny(response: Response<seq<Recipe>>) | Allow(target: string, search: string)

  /** The part of GET before the recipes are read: authentication, the
      defaults of the query parameters, the invite-link lookup (on
      `recipeId == target`) and, for a caller who is not the target, the
      roster check on the first link found. */
  function AccessGate(authUserId: Option<string>, userIdParam: Option<string>,
                      searchParam: Option<string>, links: seq<InviteLink>): Gate
  {
    match AuthenticateUser(authUserId)
    case Err(e) => Deny(HandleErrorAndRespond(e))
    case Ok(caller) =>
      var search := OrElse(searchParam, "");
      var target := OrElse(userIdParam, caller);
      var found := InviteLinksRoute.LinksFor(links, target);
      if found == [] then Deny(CreateResponse(MessageBody(NoAccessMessage), 403))
      else if target == caller then Allow(target, search)
      else Decide(CheckAccessForUser(found[0], caller), target, search)
  }

  /** The gate's answer to a caller who is not the target, from the roster
      check on the first link: a thrown error is answered 400, any denial
      the same 403. */
  function Decide(c: Result<AccessResult, Thrown>, target: string, search: string): (g: Gate)
    ensures g.Allow? <==> c.Ok? && c.value.access
    ensures g.Allow? ==> g == Allow(target, search)
    ensures c.Err? ==> g == Deny(Response(400, ErrorBody(if c.error.ErrorValue? then c.error.message else UnexpectedError)))
    ensures c.Ok? && !c.value.access ==> g == Deny(Response(403, MessageBody(DeniedMessage)))
  {
    match c
    case Err(e) => Deny(HandleErrorAndRespond(e))
    case Ok(result) =>
      if !result.access then Deny(CreateResponse(MessageBody(DeniedMessage), 403))
      else Allow(target, search)
  }

  /** The recipes of `target` (the equality query on `createdBy`). */
  function OwnedBy(recipes: seq<RecipeDoc>, target: string): (r: seq<RecipeDoc>)
    ensures forall d :: d in r <==> d in recipes && d.createdBy == target
    ensures IsSubsequence(r, recipes)
  {
    FilterIsSubsequence(recipes, (d: RecipeDoc) => d.createdBy == target);
    Filter(recipes, (d: RecipeDoc) => d.createdBy == target)
  }

  /** The search filter: an empty search keeps everything, otherwise the
      lower-cased name must contain the lower-cased search text. */
  predicate MatchesSearch(name: string, search: string) {
    search == "" || Contains(Lower(name), Lower(search))
  }

  /** Every ingredient line of `d` has a non-empty id. */
  predicate AllLinesHaveIds(d: RecipeDoc) {
    forall k :: 0 <= k < |d.ingredients| ==> Truthy(d.ingredients[k].id)
  }

  /** The projection of one ingredient line: only its id, quantity and unit. */
  function ProjectLine(line: Ingredient): (r: Ingredient)
    ensures r.id == line.id && r.quantity == line.quantity && r.unit == line.unit
    ensures r.name.None? && r.createdBy.None?
  {
    Ingredient(line.id, None, line.quantity, line.unit, None)
  }

  /** A recipe document as GET returns it: its id, fields and projected lines. */
  function View(d: RecipeDoc): (r: Recipe)
    ensures r.id == Some(d.id) && r.name == d.name && r.note == d.note && r.createdBy == Some(d.createdBy)
    ensures |r.ingredients| == |d.ingredients|
    ensures forall k :: 0 <= k < |d.ingredients| ==> r.ingredients[k] == ProjectLine(d.ingredients[k])
  {
    Recipe(Some(d.id), d.name, d.note,
           seq(|d.ingredients|, k requires 0 <= k < |d.ingredients| => ProjectLine(d.ingredients[k])),
           Some(d.createdBy))
  }

  /** The documents `docs` after the search filter and the projection, as
      the for-loop of GET builds them: the first kept document with a line
      lacking an id makes the whole result an error. */
  function Collect(docs: seq<RecipeDoc>, search: string): Result<seq<Recipe>, Thrown>
    decreases |docs|
  {
    if docs == [] then Ok([])
    else
      var d := docs[|docs| - 1];
      match Collect(docs[..|docs| - 1], search)
      case Err(e) => Err(e)
      case Ok(acc) =>
        if !MatchesSearch(d.name, search) then Ok(acc)
        else if !AllLinesHaveIds(d) then Err(ErrorValue(MissingIdMessage(d.id)))
        else Ok(acc + [View(d)])
  }

  /** The documents the search keeps, in order. */
  function Kept(docs: seq<RecipeDoc>, search: string): seq<RecipeDoc> {
    Filter(docs, (d: RecipeDoc) => MatchesSearch(d.name, search))
  }

  /** The kept documents are exactly those the search matches. */
  lemma KeptMembers(docs: seq<RecipeDoc>, search: string)
    ensures forall d :: d in Kept(docs, search) <==> d in docs && MatchesSearch(d.name, search)
  {
  }

  /** The recipes of `s` called `name`, in their order in `s`. */
  function WithName(s: seq<Recipe>, name: string): seq<Recipe> {
    Filter(s, NameIs(name))
  }

  function NameIs(name: string): Recipe -> bool {
    (d: Recipe) => d.name == name
  }

  /** Names in ascending order of the collation. */
  predicate SortedByName(s: seq<Recipe>) {
    forall i, j :: 0 <= i < j < |s| ==> Le(s[i].name, s[j].name)
  }

  /** GET /api/recipes?userId=...&search=... over the snapshots `links`
      (all invite links) and `recipes` (all recipe documents). */
  method Get(authUserId: Option<string>, userIdParam: Option<string>, searchParam: Option<string>,
             links: seq<InviteLink>, recipes: seq<RecipeDoc>)
    returns (response: Response<seq<Recipe>>)
    ensures match AccessGate(authUserId, userIdParam, searchParam, links)
      case Deny(r) => response == r
      case Allow(target, search) =>
        match Collect(OwnedBy(recipes, target), search)
        case Err(e) => response == HandleErrorAndRespond(e)
        case Ok(views) =>
          response.status == 200 && response.body.Data? &&
          SortedByName(response.body.data) && multiset(response.body.data) == multiset(views) &&
          forall name :: WithName(response.body.data, name) == WithName(views, name)
  {
    var auth := AuthenticateUser(authUserId);
    if auth.Err? {
      return HandleErrorAndRespond(auth.error);
    }
    var caller := auth.value;
    var searchName := OrElse(searchParam, "");
    var targetUserId := OrElse(userIdParam, caller);
    var isOwner := targetUserId == caller;

    var linkSnapshot := InviteLinksRoute.LinksFor(links, targetUserId);
    if linkSnapshot == [] {
      return CreateResponse(MessageBody(NoAccessMessage), 403);
    }
    if !isOwner {
      var result := CheckAccessForUser(linkSnapshot[0], caller);
      if result.Err? {
        return HandleErrorAndRespond(result.error);
      }
      if !result.value.access {
        return CreateResponse(MessageBody(DeniedMessage), 403);
      }
    }
    assert AccessGate(authUserId, userIdParam, searchParam, links) == Allow(targetUserId, searchName);

    var snapshot := OwnedBy(recipes, targetUserId);
    var collected := CollectRecipes(snapshot, searchName);
    if collected.Err? {
      return HandleErrorAndRespond(collected.error);
    }
    var sorted := SortByName(collected.value);
    response := CreateResponse(Data(sorted), 200);
  }

  /** The for-loop of GET over the recipe snapshot: keeps the documents the
      search matches and projects their ingredient lines. A thrown error is
      returned as `Err`. */
  method CollectRecipes(snapshot: seq<RecipeDoc>, searchName: string)
    returns (result: Result<seq<Recipe>, Thrown>)
    ensures result == Collect(snapshot, searchName)
  {
    var recipesWithIngredients: seq<Recipe> := [];
    for i := 0 to |snapshot|
      invariant Collect(snapshot[..i], searchName) == Ok(recipesWithIngredients)
    {
      var d := snapshot[i];
      assert snapshot[..i + 1][..i] == snapshot[..i];
      if searchName == "" || Contains(Lower(d.name), Lower(searchName)) {
        var ingredients := ProjectIngredients(d);
        if ingredients.None? {
          CollectErrorSticks(snapshot, i + 1, searchName);
          assert snapshot[..|snapshot|] == snapshot;
          return Err(ErrorValue(MissingIdMessage(d.id)));
        }
        recipesWithIngredients :=
          recipesWithIngredients + [Recipe(Some(d.id), d.name, d.note, ingredients.value, Some(d.createdBy))];
      }
    }
    assert snapshot[..|snapshot|] == snapshot;
    result := Ok(recipesWithIngredients);
  }

  /** The inner for-loop of GET: the projected ingredient lines of `d`, or
      `None` where the source throws because a line has no id. */
  method ProjectIngredients(d: RecipeDoc) returns (r: Option<seq<Ingredient>>)
    ensures r.Some? <==> AllLinesHaveIds(d)
    ensures r.Some? ==> r.value == View(d).ingredients
  {
    var ingredients: seq<Ingredient> := [];
    for j := 0 to |d.ingredients|
      invariant |ingredients| == j
      invariant forall k :: 0 <= k < j ==> Truthy(d.ingredients[k].id)
      invariant forall k :: 0 <= k < j ==> ingredients[k] == ProjectLine(d.ingredients[k])
    {
      var line := d.ingredients[j];
      if !Truthy(line.id) {
        return None;
      }
      ingredients := ingredients + [Ingredient(line.id, None, line.quantity, line.unit, None)];
    }
    return Some(ingredients);
  }

  /** Once the loop has thrown, later documents do not matter. */
  lemma {:induction false} CollectErrorSticks(docs: seq<RecipeDoc>, i: nat, search: string)
    requires i <= |docs| && Collect(docs[..i], search).Err?
    ensures Collect(docs, search) == Collect(docs[..i], search)
    decreases |docs| - i
  {
    if i < |docs| {
      assert docs[..i + 1][..i] == docs[..i];
      CollectErrorSticks(docs, i + 1, search);
    } else {
      assert docs[..i] == docs;
    }
  }

  /** Sorts by name: the array sort of GET with the name collation as its
      comparator. The array sort is stable: recipes with the same name keep
      their order, which the insertion after every element that is not
      greater preserves. */
  method SortByName(s: seq<Recipe>) returns (r: seq<Recipe>)
    ensures SortedByName(r)
    ensures multiset(r) == multiset(s)
    ensures forall name :: WithName(r, name) == WithName(s, name)
  {
    r := [];
    for i := 0 to |s|
      invariant SortedByName(r)
      invariant multiset(r) == multiset(s[..i])
      invariant forall name :: WithName(r, name) == WithName(s[..i], name)
    {
      var x := s[i];
      var k := |r|;
      while k > 0 && !Le(r[k - 1].name, x.name)
        invariant 0 <= k <= |r|
        invariant forall m :: k <= m < |r| ==> !Le(r[m].name, x.name)
        decreases k
      {
        k := k - 1;
      }
      InsertKeepsSorted(r, k, x);
      assert r == r[..k] + r[k..];
      assert s[..i + 1] == s[..i] + [x];
      forall m | k <= m < |r| ensures r[m].name != x.name {
        LeTotal(x.name, x.name);
      }
      forall name ensures WithName(r[..k] + [x] + r[k..], name) == WithName(s[..i + 1], name) {
        InsertWithName(r, k, x, name);
        FilterAppend(s[..i], [x], NameIs(name));
      }
      r := r[..k] + [x] + r[k..];
    }
    assert s[..|s|] == s;
  }

  /** Inserting `x` after the elements not greater than it and before the
      greater ones keeps a sorted sequence sorted. */
  lemma InsertKeepsSorted(r: seq<Recipe>, k: nat, x: Recipe)
    requires SortedByName(r) && k <= |r|
    requires k > 0 ==> Le(r[k - 1].name, x.name)
    requires forall m :: k <= m < |r| ==> !Le(r[m].name, x.name)
    ensures SortedByName(r[..k] + [x] + r[k..])
  {
    var t := r[..k] + [x] + r[k..];
    forall i, j | 0 <= i < j < |t| ensures Le(t[i].name, t[j].name) {
      if j < k {
        assert t[i] == r[i] && t[j] == r[j];
      } else if j == k {
        if i < k - 1 { LeTransitive(r[i].name, r[k - 1].name, x.name); }
      } else if i == k {
        LeTotal(r[j - 1].name, x.name);
      } else if i < k {
        assert t[i] == r[i] && t[j] == r[j - 1];
      } else {
        assert t[i] == r[i - 1] && t[j] == r[j - 1];
      }
    }
  }

  /** Inserting `x` before elements of other names adds `x` to the end of the
      recipes called `name` when it has that name, and nothing otherwise. */
  lemma InsertWithName(r: seq<Recipe>, k: nat, x: Recipe, name: string)
    requires k <= |r|
    requires forall m :: k <= m < |r| ==> r[m].name != x.name
    ensures WithName(r[..k] + [x] + r[k..], name) == WithName(r, name) + WithName([x], name)
  {
    assert r == r[..k] + r[k..];
    FilterInsert(r[..k], x, r[k..], NameIs(name));
  }

  /** Sorting by name stably leaves no choice: two name-sorted sequences that
      hold the recipes of every name in the same order are equal. So GET's
      body is determined by the collected views. */
  lemma {:induction false} SortedStableUnique(a: seq<Recipe>, b: seq<Recipe>)
    requires SortedByName(a) && SortedByName(b)
    requires forall name :: WithName(a, name) == WithName(b, name)
    ensures a == b
    decreases |a|
  {
    if a == [] || b == [] {
      if a != [] { NotInOther(a, b); }
      if b != [] { NotInOther(b, a); }
    } else {
      var n := a[0].name;
      SortedHeadFirst(a, b);
      SortedHeadFirst(b, a);
      LeAntisymmetric(a[0].name, b[0].name);
      assert WithName(a, n)[0] == a[0] && WithName(b, n)[0] == b[0];
      forall name ensures WithName(a[1..], name) == WithName(b[1..], name) {
        TailWithName(a, b, name);
      }
      SortedByNameTail(a);
      SortedByNameTail(b);
      SortedStableUnique(a[1..], b[1..]);
      assert a == [a[0]] + a[1..] && b == [b[0]] + b[1..];
    }
  }

  /** Dropping the same head from both sides keeps the recipes of a name
      in the same order. */
  lemma TailWithName(a: seq<Recipe>, b: seq<Recipe>, name: string)
    requires a != [] && b != [] && a[0] == b[0]
    requires WithName(a, name) == WithName(b, name)
    ensures WithName(a[1..], name) == WithName(b[1..], name)
  {
    assert a == [a[0]] + a[1..] && b == [b[0]] + b[1..];
    FilterAppend([a[0]], a[1..], NameIs(name));
    FilterAppend([b[0]], b[1..], NameIs(name));
    var h := WithName([a[0]], name);
    assert WithName(a[1..], name) == (h + WithName(a[1..], name))[|h|..];
    assert WithName(b[1..], name) == (h + WithName(b[1..], name))[|h|..];
  }

  /** A non-empty sequence has a recipe of some name the other lacks unless
      the other is non-empty too. */
  lemma NotInOther(a: seq<Recipe>, b: seq<Recipe>)
    requires a != [] && b == []
    ensures WithName(a, a[0].name) != WithName(b, a[0].name)
  {
    assert a[0] in WithName(a, a[0].name);
  }

  /** The head of a name-sorted `b` comes no later than any recipe of `a`
      whose name occurs in `b`, in particular than `a[0]`. */
  lemma SortedHeadFirst(a: seq<Recipe>, b: seq<Recipe>)
    requires a != [] && b != [] && SortedByName(b)
    requires WithName(a, a[0].name) == WithName(b, a[0].name)
    ensures Le(b[0].name, a[0].name)
  {
    assert a[0] in WithName(a, a[0].name);
    var j :| 0 <= j < |b| && b[j] == a[0];
    if j == 0 { LeTotal(b[0].name, b[0].name); }
  }

  lemma SortedByNameTail(s: seq<Recipe>)
    requires s != [] && SortedByName(s)
    ensures SortedByName(s[1..])
  {
    forall i, j | 0 <= i < j < |s| - 1 ensures Le(s[1..][i].name, s[1..][j].name) {
      assert s[1..][i] == s[i + 1] && s[1..][j] == s[j + 1];
    }
  }

  // ----- properties of the access gate -----

  /** The target user defaults to the caller when the `userId` parameter is
      absent or empty, the search text to "" when `search` is. */
  lemma GateTarget(authUserId: Option<string>, userIdParam: Option<string>,
                   searchParam: Option<string>, links: seq<InviteLink>)
    requires Truthy(authUserId)
    ensures var g := AccessGate(authUserId, userIdParam, searchParam, links);
            g.Allow? ==> g.target == (if Truthy(userIdParam) then userIdParam.value else authUserId.value)
    ensures var g := AccessGate(authUserId, userIdParam, searchParam, links);
            g.Allow? ==> g.search == (if Truthy(searchParam) then searchParam.value else "")
  {
  }

  /** An unauthenticated GET answers 400 with the guard's message. */
  lemma GateUnauthenticated(authUserId: Option<string>, userIdParam: Option<string>,
                            searchParam: Option<string>, links: seq<InviteLink>)
    requires !Truthy(authUserId)
    ensures AccessGate(authUserId, userIdParam, searchParam, links) ==
            Deny(Response(400, ErrorBody(NotAuthenticated)))
  {
  }

  /** Without an invite link whose `recipeId` is the target's id, GET answers
      403 -- also to the owner, because this check comes first. */
  lemma NoLinkForbidsEvenOwner(authUserId: Option<string>, userIdParam: Option<string>,
                               searchParam: Option<string>, links: seq<InviteLink>)
    requires Truthy(authUserId)
    requires forall j :: 0 <= j < |links| ==> links[j].recipeId != OrElse(userIdParam, authUserId.value)
    ensures AccessGate(authUserId, userIdParam, searchParam, links) ==
            Deny(Response(403, MessageBody(NoAccessMessage)))
  {
  }

  /** The owner is let through as soon as a link exists, whatever its roster
      holds (even no roster at all). */
  lemma OwnerSkipsRoster(authUserId: Option<string>, userIdParam: Option<string>,
                         searchParam: Option<string>, links: seq<InviteLink>, i: nat)
    requires Truthy(authUserId)
    requires OrElse(userIdParam, authUserId.value) == authUserId.value
    requires i < |links| && links[i].recipeId == authUserId.value
    ensures AccessGate(authUserId, userIdParam, searchParam, links) ==
            Allow(authUserId.value, OrElse(searchParam, ""))
  {
    assert links[i] in InviteLinksRoute.LinksFor(links, authUserId.value);
  }

  /** Another user is judged by the roster of the FIRST link for the target
      only: let through exactly when the first roster entry with the caller's
      id is not revoked; every such denial is the same 403 with one generic
      message; a first link without a roster answers 400. */
  lemma NonOwnerFirstLinkDecides(authUserId: Option<string>, userIdParam: Option<string>,
                                 searchParam: Option<string>, links: seq<InviteLink>, i: nat)
    requires Truthy(authUserId) && Truthy(userIdParam) && userIdParam.value != authUserId.value
    requires InviteLinksRoute.FirstLinkAt(links, userIdParam.value, i)
    ensures var g := AccessGate(authUserId, userIdParam, searchParam, links);
            var roster := links[i].invitedUsers;
            && (roster.None? ==> g == Deny(Response(400, ErrorBody(MissingRosterMessage))))
            && (roster.Some? ==>
                  (g == Allow(userIdParam.value, OrElse(searchParam, "")) <==>
                     exists k :: FirstEntryAt(roster.value, authUserId.value, k) &&
                                 roster.value[k].accessRevoked != Some(true)))
            && (roster.Some? && g.Deny? ==> g == Deny(Response(403, MessageBody(DeniedMessage))))
  {
    InviteLinksRoute.FirstLinkFound(links, userIdParam.value, i);
    var c := CheckAccessForUser(links[i], authUserId.value);
    assert AccessGate(authUserId, userIdParam, searchParam, links) ==
           Decide(c, userIdParam.value, OrElse(searchParam, ""));
    if links[i].invitedUsers.Some? {
      AccessGranted(links[i], authUserId.value);
    }
  }

  /** With a roster, access is granted exactly when the first entry with
      the user's id is not revoked. */
  lemma AccessGranted(link: InviteLink, userId: string)
    requires link.invitedUsers.Some?
    ensures var c := CheckAccessForUser(link, userId);
            c.Ok? && (c.value.access <==> exists k :: FirstEntryAt(link.invitedUsers.value, userId, k) &&
                                                     link.invitedUsers.value[k].accessRevoked != Some(true))
  {
  }

  /** Links after the first one for the target never change the decision. */
  lemma LaterLinksIgnored(authUserId: Option<string>, userIdParam: Option<string>,
                          searchParam: Option<string>, links: seq<InviteLink>, i: nat)
    requires Truthy(authUserId)
    requires InviteLinksRoute.FirstLinkAt(links, OrElse(userIdParam, authUserId.value), i)
    ensures AccessGate(authUserId, userIdParam, searchParam, links[..i + 1]) ==
            AccessGate(authUserId, userIdParam, searchParam, links)
  {
    var t := OrElse(userIdParam, authUserId.value);
    assert InviteLinksRoute.FirstLinkAt(links[..i + 1], t, i);
    InviteLinksRoute.FirstLinkFound(links[..i + 1], t, i);
    InviteLinksRoute.FirstLinkFound(links, t, i);
  }

  /** The roster check uses the first entry with the user's id, the
      "shared with me" query any entry: a roster whose first entry for `u`
      is revoked and whose second is active denies `u` here but lists the
      link there. */
  lemma FirstEntryVersusAnyEntry(u: string, link: InviteLink)
    requires link.invitedUsers == Some([InvitedUser(u, true, Some(true)), InvitedUser(u, true, Some(false))])
    ensures CheckAccessForUser(link, u) == Ok(AccessResult(false, RevokedMessage))
    ensures InvitedRoute.SharedWith(link, u)
  {
    var roster := link.invitedUsers.value;
    assert FirstEntryAt(roster, u, 0);
    assert roster[1].userId == u && roster[1].accessRevoked == Some(false);
  }

  /** An entry without an `accessRevoked` field is granted here (the field
      is falsy) but not listed by the "shared with me" query (it is not
      `=== false`). */
  lemma MissingRevokedFlag(u: string, link: InviteLink)
    requires link.invitedUsers == Some([InvitedUser(u, true, None)])
    ensures CheckAccessForUser(link, u) == Ok(AccessResult(true, GrantedMessage))
    ensures !InvitedRoute.SharedWith(link, u)
  {
    assert FirstEntryAt(link.invitedUsers.value, u, 0);
  }

  // ----- properties of the search filter and the projection -----

  /** An empty search keeps every document. */
  lemma {:induction false} EmptySearchKeepsAll(docs: seq<RecipeDoc>)
    ensures Kept(docs, "") == docs
    decreases |docs|
  {
    if docs != [] {
      EmptySearchKeepsAll(docs[1..]);
      assert docs == [docs[0]] + docs[1..];
    }
  }

  /** The search ignores the case of the search text and of the name. */
  lemma SearchIgnoresCase(name: string, search: string)
    ensures MatchesSearch(name, search) == MatchesSearch(Lower(name), Lower(search))
  {
    LowerIdempotent(name);
    LowerIdempotent(search);
  }

  /** The views of `kept`, in order. */
  function Views(kept: seq<RecipeDoc>): (r: seq<Recipe>)
    ensures |r| == |kept| && forall k :: 0 <= k < |kept| ==> r[k] == View(kept[k])
  {
    seq(|kept|, k requires 0 <= k < |kept| => View(kept[k]))
  }

  /** The loop of GET succeeds exactly when every kept document has an id on
      each line, and then returns the views of the kept documents, in store
      order. */
  lemma {:induction false} CollectMeaning(docs: seq<RecipeDoc>, search: string)
    ensures Collect(docs, search).Ok? <==> AllHaveIds(Kept(docs, search))
    ensures Collect(docs, search).Ok? ==> Collect(docs, search).value == Views(Kept(docs, search))
    decreases |docs|
  {
    if docs != [] {
      var init, d := docs[..|docs| - 1], docs[|docs| - 1];
      CollectMeaning(init, search);
      CollectSnoc(docs, search);
      var kept0 := Kept(init, search);
      if MatchesSearch(d.name, search) {
        assert Kept(docs, search) == kept0 + [d];
        AllHaveIdsSnoc(kept0, d);
        ViewsSnoc(kept0, d);
      } else {
        assert Kept(docs, search) == kept0;
      }
    }
  }

  /** When the loop of GET fails, its error names the first kept document
      that has a line without an id: every kept document before it has
      ids on all lines. */
  lemma {:induction false} CollectFailure(docs: seq<RecipeDoc>, search: string)
    ensures var kept := Kept(docs, search);
            Collect(docs, search).Err? ==>
              exists i :: 0 <= i < |kept| && !AllLinesHaveIds(kept[i]) &&
                          AllHaveIds(kept[..i]) &&
                          Collect(docs, search).error == ErrorValue(MissingIdMessage(kept[i].id))
    decreases |docs|
  {
    if docs != [] {
      var init, d := docs[..|docs| - 1], docs[|docs| - 1];
      CollectFailure(init, search);
      CollectMeaning(init, search);
      CollectSnoc(docs, search);
      var kept0 := Kept(init, search);
      var kept := Kept(docs, search);
      if MatchesSearch(d.name, search) {
        assert kept == kept0 + [d];
        if Collect(init, search).Err? {
          var i :| 0 <= i < |kept0| && !AllLinesHaveIds(kept0[i]) && AllHaveIds(kept0[..i]) &&
                   Collect(init, search).error == ErrorValue(MissingIdMessage(kept0[i].id));
          PrefixOfSnoc(kept0, d, i);
        } else if !AllLinesHaveIds(d) {
          PrefixOfSnoc(kept0, d, |kept0|);
        }
      } else {
        assert kept == kept0;
      }
    }
  }

  lemma ViewsSnoc(ds: seq<RecipeDoc>, d: RecipeDoc)
    ensures Views(ds + [d]) == Views(ds) + [View(d)]
  {
    assert Views(ds + [d]) == Views(ds) + [View(d)];
  }

  lemma PrefixOfSnoc(ds: seq<RecipeDoc>, d: RecipeDoc, i: nat)
    requires i <= |ds|
    ensures (ds + [d])[..i] == ds[..i] && (ds + [d])[|ds|] == d
    ensures i < |ds| ==> (ds + [d])[i] == ds[i]
  {
    assert (ds + [d])[..i] == ds[..i];
  }

  /** Every document in `ds` has ids on all its lines. */
  predicate AllHaveIds(ds: seq<RecipeDoc>) {
    forall k :: 0 <= k < |ds| ==> AllLinesHaveIds(ds[k])
  }

  lemma AllHaveIdsSnoc(ds: seq<RecipeDoc>, d: RecipeDoc)
    ensures AllHaveIds(ds + [d]) <==> AllHaveIds(ds) && AllLinesHaveIds(d)
  {
    if AllHaveIds(ds) && AllLinesHaveIds(d) {
      forall k | 0 <= k < |ds + [d]| ensures AllLinesHaveIds((ds + [d])[k]) {
        if k < |ds| { assert (ds + [d])[k] == ds[k]; }
      }
    }
    if AllHaveIds(ds + [d]) {
      assert (ds + [d])[|ds|] == d;
      forall k | 0 <= k < |ds| ensures AllLinesHaveIds(ds[k]) {
        assert (ds + [d])[k] == ds[k];
      }
    }
  }

  /** One step of the loop: how the last document changes the result and
      the kept documents. */
  lemma CollectSnoc(docs: seq<RecipeDoc>, search: string)
    requires docs != []
    ensures var init, d := docs[..|docs| - 1], docs[|docs| - 1];
            Kept(docs, search) == Kept(init, search) + (if MatchesSearch(d.name, search) then [d] else [])
  {
    var init, d := docs[..|docs| - 1], docs[|docs| - 1];
    assert docs == init + [d];
    FilterAppend(init, [d], (x: RecipeDoc) => MatchesSearch(x.name, search));
  }

  /** GET's result in one statement: when the gate lets the caller through
      to `target`, a 200 answer holds, sorted by name, exactly the projected
      documents of `target` that the search keeps, each as often as in the
      store. */
  lemma GetServesKeptRecipes(served: seq<Recipe>, views: seq<Recipe>,
                             recipes: seq<RecipeDoc>, target: string, search: string)
    requires Collect(OwnedBy(recipes, target), search) == Ok(views)
    requires multiset(served) == multiset(views)
    ensures forall r :: r in served <==>
              exists d :: d in recipes && d.createdBy == target && MatchesSearch(d.name, search) && r == View(d)
  {
    var kept := Kept(OwnedBy(recipes, target), search);
    KeptMembers(OwnedBy(recipes, target), search);
    CollectMeaning(OwnedBy(recipes, target), search);
    ViewsOfKept(views, kept);
    forall r ensures r in served <==> r in views {
      assert r in served <==> r in multiset(served);
      assert r in views <==> r in multiset(views);
    }
  }

  lemma ViewsOfKept(views: seq<Recipe>, kept: seq<RecipeDoc>)
    requires |views| == |kept| && forall k :: 0 <= k < |kept| ==> views[k] == View(kept[k])
    ensures forall r :: r in views <==> exists d :: d in kept && r == View(d)
  {
    forall r | r in views ensures exists d :: d in kept && r == View(d) {
      var k :| 0 <= k < |views| && views[k] == r;
      assert kept[k] in kept;
    }
    forall d | d in kept ensures View(d) in views {
      var k :| 0 <= k < |kept| && kept[k] == d;
      assert views[k] == View(d);
    }
  }

  // ----- POST -----

  /** The body of a POST: the recipe fields the form sends. */
  datatype RecipeInput = RecipeInput(name: string, note: Option<string>, ingredients: seq<Ingredient>)

  /** The response and the new `recipes` collection of one POST. */
  datatype PostOutcome = PostOutcome(response: Response<Created>, recipes: seq<RecipeDoc>)

  /** What POST does to the collection: store the fields with `createdBy`
      set to the caller and answer 201 with the generated id. */
  function PostEffect(recipes: seq<RecipeDoc>, authUserId: Option<string>, data: RecipeInput,
                      newId: string): PostOutcome
  {
    match AuthenticateUser(authUserId)
    case Err(e) => PostOutcome(HandleErrorAndRespond(e), recipes)
    case Ok(caller) =>
      PostOutcome(CreateResponse(Data(Created(newId, CreatedMessage)), 201),
                  recipes + [RecipeDoc(newId, data.name, data.note, data.ingredients, caller)])
  }

  /** POST /api/recipes on the store `db`. */
  method Post(db: Db, authUserId: Option<string>, data: RecipeInput, newId: string)
    returns (response: Response<Created>)
    requires db.Valid() && db.FreshRecipeId(newId)
    modifies db`recipes
    ensures db.Valid()
    ensures PostOutcome(response, db.recipes) == PostEffect(old(db.recipes), authUserId, data, newId)
  {
    var auth := AuthenticateUser(authUserId);
    if auth.Err? {
      return HandleErrorAndRespond(auth.error);
    }
    var userId := auth.value;
    RecipeIdsSnoc(db.recipes, RecipeDoc(newId, data.name, data.note, data.ingredients, userId));
    db.recipes := db.recipes + [RecipeDoc(newId, data.name, data.note, data.ingredients, userId)];
    response := CreateResponse(Data(Created(newId, CreatedMessage)), 201);
  }

  /** An unauthenticated POST answers the guard's 400 and stores nothing;
      otherwise POST appends the body's fields with `createdBy` set to the
      caller, under the generated id, and answers 201 with that id. */
  lemma PostStores(recipes: seq<RecipeDoc>, authUserId: Option<string>, data: RecipeInput, newId: string)
    ensures !Truthy(authUserId) ==>
              PostEffect(recipes, authUserId, data, newId) ==
              PostOutcome(Response(400, ErrorBody(NotAuthenticated)), recipes)
    ensures Truthy(authUserId) ==>
              var o := PostEffect(recipes, authUserId, data, newId);
              && o.response == Response(201, Data(Created(newId, "Recipe created successfully")))
              && |o.recipes| == |recipes| + 1 && o.recipes[..|recipes|] == recipes
              && o.recipes[|recipes|].id == newId
              && o.recipes[|recipes|].createdBy == authUserId.value
              && o.recipes[|recipes|].name == data.name && o.recipes[|recipes|].note == data.note
              && o.recipes[|recipes|].ingredients == data.ingredients
  {
  }

  /** A recipe the caller has just stored is served back to the caller by an
      unfiltered GET, provided the caller's recipes all have ids on their
      lines (otherwise GET fails as a whole). */
  lemma PostThenGetSees(recipes: seq<RecipeDoc>, authUserId: Option<string>, data: RecipeInput,
                        newId: string)
    requires Truthy(authUserId)
    requires forall d :: d in recipes && d.createdBy == authUserId.value ==> AllLinesHaveIds(d)
    requires forall k :: 0 <= k < |data.ingredients| ==> Truthy(data.ingredients[k].id)
    ensures var after := PostEffect(recipes, authUserId, data, newId);
            after.response.status == 201 &&
            var served := Collect(OwnedBy(after.recipes, authUserId.value), "");
            served.Ok? &&
            View(RecipeDoc(newId, data.name, data.note, data.ingredients, authUserId.value)) in served.value
  {
    var caller := authUserId.value;
    var doc := RecipeDoc(newId, data.name, data.note, data.ingredients, caller);
    var after := PostEffect(recipes, authUserId, data, newId).recipes;
    var owned := OwnedBy(after, caller);
    EmptySearchKeepsAll(owned);
    CollectMeaning(owned, "");
    assert doc in after;
    assert doc in owned;
    var k :| 0 <= k < |owned| && owned[k] == doc;
    assert Collect(owned, "").value[k] == View(doc);
  }
}
