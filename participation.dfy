/** Project participation in backend/server.js: joining a project, offering
    resources to it, the attendance and delivery marks its creator or an
    admin sets, the status endpoints with their allow-lists, the public
    listing filter, the admin user deletion with its cascade, and the
    profile update, over in-memory collections. */
module Participation {
  import opened Wrappers
  import opened Text
  import opened JsValues
  import opened Validation
  import opened Sanitization
  import opened Schemas
  import opened Profiles
  import DonationModel

  // ----- joining -----

  const AlreadyJoined := "Already joined this project"
  const OwnProject := "Cannot join your own project"
  const NoSlots := "No slots available"

  /** `project.participants.some(p => p.user.toString() === userId)`. */
  predicate IsParticipant(p: Project, user: Id) {
    exists i | 0 <= i < |p.participants| :: p.participants[i].user == user
  }

  /** The join guards, in the order the handler runs them; `None` lets the
      join go ahead. */
  function JoinCheck(p: Project, user: Id): (r: Option<string>)
    ensures r == None <==> !IsParticipant(p, user) && p.createdBy != user && p.slotsRemaining > 0
    ensures r == Some(AlreadyJoined) <==> IsParticipant(p, user)
    ensures r == Some(OwnProject) <==> !IsParticipant(p, user) && p.createdBy == user
  {
    if IsParticipant(p, user) then Some(AlreadyJoined)
    else if p.createdBy == user then Some(OwnProject)
    else if p.slotsRemaining <= 0 then Some(NoSlots)
    else None
  }

  /** `participants.push({user, joinedAt})` and `slotsRemaining -= 1`. */
  function Joined(p: Project, user: Id, now: int): Project {
    p.(participants := p.participants + [Participant(user, now)], slotsRemaining := p.slotsRemaining - 1)
  }

  /** A join that passes its guards keeps the project valid (no negative
      slots), adds exactly one participant and takes exactly one slot, so
      free slots plus participants stay the same; the same user cannot
      join again. */
  lemma JoinEffect(p: Project, user: Id, now: int)
    requires ProjectOk(p) && JoinCheck(p, user) == None
    ensures var q := Joined(p, user, now);
      && ProjectOk(q)
      && |q.participants| == |p.participants| + 1 && q.slotsRemaining == p.slotsRemaining - 1
      && q.slotsRemaining + |q.participants| == p.slotsRemaining + |p.participants|
      && q.participants[..|p.participants|] == p.participants
      && JoinCheck(q, user) == Some(AlreadyJoined)
  {
    var q := Joined(p, user, now);
    assert q.participants[|p.participants|].user == user;
  }

  /** Joins by distinct users never take more slots than the project had:
      starting from its free slots, a run of successful joins leaves a
      non-negative count and adds one participant per join. */
  lemma {:induction false} JoinsBounded(p: Project, users: seq<Id>, now: int)
    requires ProjectOk(p)
    requires forall i | 0 <= i < |users| :: JoinCheck(JoinAll(p, users[..i], now), users[i]) == None
    ensures ProjectOk(JoinAll(p, users, now))
    ensures |users| <= p.slotsRemaining
    ensures JoinAll(p, users, now).slotsRemaining == p.slotsRemaining - |users|
    ensures |JoinAll(p, users, now).participants| == |p.participants| + |users|
  {
    if users != [] {
      var init := users[..|users| - 1];
      var last := users[|users| - 1];
      forall i | 0 <= i < |init| ensures JoinCheck(JoinAll(p, init[..i], now), init[i]) == None {
        assert init[..i] == users[..i];
      }
      JoinsBounded(p, init, now);
      assert users[..|users| - 1] == init;
      var q := JoinAll(p, init, now);
      JoinEffect(q, last, now);
    }
  }

  /** The successive joins of `users`. */
  function JoinAll(p: Project, users: seq<Id>, now: int): Project
    decreases |users|
  {
    if users == [] then p else Joined(JoinAll(p, users[..|users| - 1], now), users[|users| - 1], now)
  }

  // ----- resource offers -----

  const FieldsRequired := "All fields are required"

  /** The resource the offer handler pushes, once `save()` has checked it:
      `resourceType` through the trimming String cast, `parseInt(quantity)`
      (at least 1), and `new Date(deliveryDate)`; `None` when a check or
      cast fails. */
  function OfferedResource(user: Id, b: Body, dateOf: JsValue -> Option<int>, now: int): (r: Option<Resource>)
    ensures r.Some? <==>
      && user != []
      && DonationModel.CastString(Field(b, "resourceType")).Text?
      && DonationModel.CastString(Field(b, "resourceType")).s != []
      && ParseIntValue(Field(b, "quantity")).Some? && ParseIntValue(Field(b, "quantity")).value >= 1
      && dateOf(Field(b, "deliveryDate")).Some?
    ensures r.Some? ==> ResourceOk(r.value) && r.value.status == "pending" && r.value.offeredBy == user
    ensures r.Some? ==> r.value.quantity == ParseIntValue(Field(b, "quantity")).value
  {
    var kind := DonationModel.CastString(Field(b, "resourceType"));
    var quantity := ParseIntValue(Field(b, "quantity"));
    var date := dateOf(Field(b, "deliveryDate"));
    if user != [] && kind.Text? && kind.s != [] && quantity.Some? && quantity.value >= 1 && date.Some? then
      Some(Resource(user, kind.s, quantity.value, date.value, "pending", now))
    else None
  }

  /** A quantity of `"0"` passes the handler's presence check, since a
      non-empty string is truthy, and then fails the schema minimum: the
      offer ends in a server error instead of a 400. */
  lemma ZeroQuantityPassesPresenceCheck(user: Id, b: Body, dateOf: JsValue -> Option<int>, now: int)
    requires Field(b, "quantity") == Str("0")
    ensures Truthy(Field(b, "quantity"))
    ensures OfferedResource(user, b, dateOf, now).None?
  {
    IntToStringZero();
    ParseIntOfIntToString(0);
  }

  lemma IntToStringZero()
    ensures IntToString(0) == "0"
  {
  }

  // ----- owner marks -----

  /** The checks of the creator's attendance and delivery marks, in order:
      no token (401), a rejected token (500), an unknown contributor (404),
      a project that no longer exists, whose populated `null` throws (500),
      a caller who is not its creator (403), and a contributor of the wrong
      type (400). `None` lets the mark go ahead. */
  function OwnerCheck(cs: map<nat, Contributor>, ps: map<Id, Project>, cid: nat, auth: Auth, kind: string): (r: Option<nat>)
    ensures r == None <==>
      && auth.Token? && cid in cs && cs[cid].project in ps
      && ps[cs[cid].project].createdBy == auth.userId && cs[cid].contributionType == kind
    ensures r == Some(403) <==>
      && auth.Token? && cid in cs && cs[cid].project in ps && ps[cs[cid].project].createdBy != auth.userId
  {
    if auth.NoToken? then Some(401)
    else if auth.BadToken? then Some(500)
    else if cid !in cs then Some(404)
    else if cs[cid].project !in ps then Some(500)
    else if ps[cs[cid].project].createdBy != auth.userId then Some(403)
    else if cs[cid].contributionType != kind then Some(400)
    else None
  }

  // ----- status allow-lists -----

  /** `[...].includes(status)` on the request value. */
  predicate Allowed(v: JsValue, list: set<string>) {
    v.Str? && v.s in list
  }

  /** What the owner endpoint lets a non-admin change: only a project the
      caller created. */
  predicate MayEdit(u: User, p: Project) {
    u.isAdmin || p.createdBy == u.id
  }

  // ----- public listing -----

  /** Who is asking for the public project list. */
  datatype Viewer = Anonymous | Member(id: Id) | Admin

  /** No token, a rejected token and an unknown user all read as anonymous. */
  function ViewerOf(users: map<Id, User>, auth: Auth): Viewer {
    if auth.Token? && auth.userId in users then
      if users[auth.userId].isAdmin then Admin else Member(auth.userId)
    else Anonymous
  }

  /** The status part of the listing query. */
  predicate Visible(p: Project, v: Viewer) {
    match v
    case Admin => true
    case Member(id) => p.status == "active" || (p.createdBy == id && p.status in {"pending", "completed"})
    case Anonymous => p.status == "active"
  }

  /** The whole listing query: the optional `type` and `sdg` filters, then
      visibility. Sorting and paging are not part of this model. */
  function Listing(ps: map<Id, Project>, v: Viewer, kind: string, sdg: string): (r: set<Id>)
    ensures forall id | id in r :: id in ps && Visible(ps[id], v)
    ensures forall id | id in r :: (kind != [] ==> ps[id].kind == kind) && (sdg != [] ==> sdg in ps[id].sdgs)
    ensures forall id | id in ps && Visible(ps[id], v) && (kind != [] ==> ps[id].kind == kind)
                        && (sdg != [] ==> sdg in ps[id].sdgs) :: id in r
  {
    set id | id in ps && Visible(ps[id], v) && (kind != [] ==> ps[id].kind == kind) && (sdg != [] ==> sdg in ps[id].sdgs)
  }

  /** Visitors see only active projects, members additionally their own
      pending and completed ones, and admins everything; nobody but an
      admin sees another user's non-active project, and even a creator
      does not see their own cancelled or rejected project. */
  lemma VisibilityRules(p: Project, id: Id)
    ensures Visible(p, Anonymous) ==> Visible(p, Member(id))
    ensures Visible(p, Member(id)) ==> Visible(p, Admin)
    ensures Visible(p, Anonymous) <==> p.status == "active"
    ensures p.createdBy != id ==> (Visible(p, Member(id)) <==> Visible(p, Anonymous))
    ensures p.status in {"cancelled", "rejected"} ==> !Visible(p, Member(id))
  {
  }

  /** A wider viewer gets a wider listing. */
  lemma ListingMonotone(ps: map<Id, Project>, id: Id, kind: string, sdg: string)
    ensures Listing(ps, Anonymous, kind, sdg) <= Listing(ps, Member(id), kind, sdg) <= Listing(ps, Admin, kind, sdg)
  {
    forall x | x in Listing(ps, Anonymous, kind, sdg) ensures x in Listing(ps, Member(id), kind, sdg) {
      VisibilityRules(ps[x], id);
    }
  }

  // ----- deleting a user -----

  /** `Contributor.deleteMany({user: id})`. */
  function DropContributions(cs: map<nat, Contributor>, user: Id): map<nat, Contributor> {
    map k | k in cs && cs[k].user != user :: cs[k]
  }

  /** `Project.deleteMany({createdBy: id})`. */
  function DropProjects(ps: map<Id, Project>, user: Id): map<Id, Project> {
    map k | k in ps && ps[k].createdBy != user :: ps[k]
  }

  /** After the cascade nothing the user contributed or created is left,
      everything else is kept as it was, and the contributions other users
      made to the user's projects stay behind without their project. */
  lemma DeleteCascade(cs: map<nat, Contributor>, ps: map<Id, Project>, user: Id)
    ensures var cs', ps' := DropContributions(cs, user), DropProjects(ps, user);
      && (forall k | k in cs' :: cs'[k].user != user)
      && (forall k | k in ps' :: ps'[k].createdBy != user)
      && (forall k | k in cs && cs[k].user != user :: k in cs' && cs'[k] == cs[k])
      && (forall k | k in ps && ps[k].createdBy != user :: k in ps' && ps'[k] == ps[k])
      && (forall k | k in cs && cs[k].user != user && cs[k].project in ps && ps[cs[k].project].createdBy == user ::
            k in cs' && cs'[k].project !in ps')
  {
  }

  // ----- the profile update, on a request -----

  /** The `sanitizeUserInput` middleware run on a fresh request. */
  method SanitizeRequest(raw: Body) returns (ok: bool, body: Body)
    ensures Run(body, ok) == SanitizeUser(raw)
  {
    var req := new Request(raw);
    ok := req.SanitizeUserInput();
    body := req.body;
  }

  /** The profile update is the middleware followed by the handler. */
  lemma UpdateProfileSteps(users: map<Id, User>, auth: Auth, raw: Body, picture: Option<string>,
                           dateOf: JsValue -> Option<int>, ok: bool, body: Body)
    requires Run(body, ok) == SanitizeUser(raw)
    ensures !ok ==> Profiles.UpdateProfile(users, auth, raw, picture, dateOf) == Refused(500, ServerError)
    ensures ok ==> Profiles.UpdateProfile(users, auth, raw, picture, dateOf) == Handle(users, auth, body, picture, dateOf)
  {
  }

  /** An accepted update replaces the caller's own record and keeps the
      users collection valid. */
  lemma UpdateFits(users: map<Id, User>, auth: Auth, raw: Body, picture: Option<string>,
                   dateOf: JsValue -> Option<int>)
    requires forall k | k in users :: users[k].id == k
    requires UniqueEmails(users)
    requires Profiles.UpdateProfile(users, auth, raw, picture, dateOf).Updated?
    ensures var u := Profiles.UpdateProfile(users, auth, raw, picture, dateOf).user;
      && auth.Token? && u.id == auth.userId && u.id in users && UserOk(u) && UniqueEmails(users[u.id := u])
  {
    UpdateKeepsEmailsUnique(users, auth, raw, picture, dateOf);
  }

  // ----- the store -----

  /** The users, projects, contributors and offers collections. */
  class ProjectStore {
    var users: map<Id, User>
    var projects: map<Id, Project>
    var contributors: map<nat, Contributor>
    var nextContributor: nat
    var offers: map<Id, Offer>

    /** Every document passed its schema checks when saved, each is stored
        under its own id, contributor ids come from a counter, and no two
        users share an e-mail; every project's creator is a stored user,
        since creation looks the user up and deleting a user deletes their
        projects. In particular no project has negative free slots. */
    predicate Valid()
      reads this
    {
      && (forall k | k in users :: users[k].id == k && UserOk(users[k]))
      && UniqueEmails(users)
      && (forall k | k in projects :: k != [] && projects[k].id == k && ProjectOk(projects[k]))
      && (forall k | k in projects :: projects[k].createdBy in users)
      && (forall k | k in contributors :: contributors[k].id == k && k < nextContributor && ContributorOk(contributors[k]))
      && (forall k | k in offers :: offers[k].id == k && OfferOk(offers[k]))
    }

    constructor ()
      ensures Valid() && users == map[] && projects == map[] && contributors == map[] && offers == map[]
    {
      users := map[];
      projects := map[];
      contributors := map[];
      nextContributor := 0;
      offers := map[];
    }

    /** `new Contributor({...}).save()`: stored under the next id when it
        passes its checks. */
    method AddContributor(c: Contributor) returns (saved: bool)
      requires Valid() && c.id == nextContributor
      modifies this
      ensures Valid()
      ensures users == old(users) && projects == old(projects) && offers == old(offers)
      ensures saved <==> ContributorOk(c)
      ensures saved ==> contributors == old(contributors)[c.id := c] && nextContributor == old(nextContributor) + 1
      ensures !saved ==> contributors == old(contributors) && nextContributor == old(nextContributor)
    {
      if !ContributorOk(c) {
        return false;
      }
      contributors := contributors[c.id := c];
      nextContributor := nextContributor + 1;
      saved := true;
    }

    /** `POST /api/projects/:id/join`. */
    method Join(pid: Id, auth: Auth, now: int) returns (code: nat, error: string)
      requires Valid()
      modifies this
      ensures Valid()
      ensures users == old(users) && offers == old(offers)
      ensures auth.NoToken? ==> code == 401 && unchanged(this)
      ensures auth.BadToken? ==> code == 500 && unchanged(this)
      ensures auth.Token? && pid !in old(projects) ==> code == 404 && unchanged(this)
      ensures auth.Token? && pid in old(projects) && JoinCheck(old(projects)[pid], auth.userId).Some? ==>
        code == 400 && error == JoinCheck(old(projects)[pid], auth.userId).value && unchanged(this)
      ensures auth.Token? && pid in old(projects) && JoinCheck(old(projects)[pid], auth.userId) == None ==>
        && projects == old(projects)[pid := Joined(old(projects)[pid], auth.userId, now)]
        && (code == 200 <==> auth.userId != [])
        && (code == 200 ==>
              contributors == old(contributors)[old(nextContributor) :=
                NewContributor(old(nextContributor), auth.userId, pid, "participant", None, None, None)])
        && (code != 200 ==> code == 500 && contributors == old(contributors))
    {
      error := "";
      if auth.NoToken? {
        return 401, error;
      }
      if auth.BadToken? {
        return 500, error;
      }
      if pid !in projects {
        return 404, "Project not found";
      }
      var p := projects[pid];
      var check := JoinCheck(p, auth.userId);
      if check.Some? {
        return 400, check.value;
      }
      JoinEffect(p, auth.userId, now);
      projects := projects[pid := Joined(p, auth.userId, now)];
      var c := NewContributor(nextContributor, auth.userId, pid, "participant", None, None, None);
      NewContributorOk(nextContributor, auth.userId, pid, "participant", None, None, None);
      var saved := AddContributor(c);
      code := if saved then 200 else 500;
    }

    /** `project.resources.push(r)` and `project.save()` for a resource
        that passed its checks. */
    method PushResource(pid: Id, r: Resource)
      requires Valid() && pid in projects && ResourceOk(r)
      modifies this
      ensures Valid()
      ensures projects == old(projects)[pid := old(projects)[pid].(resources := old(projects)[pid].resources + [r])]
      ensures users == old(users) && contributors == old(contributors) && offers == old(offers)
      ensures nextContributor == old(nextContributor)
    {
      var p := projects[pid];
      projects := projects[pid := p.(resources := p.resources + [r])];
    }

    /** `POST /api/projects/:id/resources`: the presence check runs before
        the token is verified; the resource is pushed only once it passes
        the schema checks, and the contributor record follows. */
    method OfferResource(pid: Id, auth: Auth, b: Body, dateOf: JsValue -> Option<int>, now: int) returns (code: nat)
      requires Valid()
      modifies this
      ensures Valid()
      ensures users == old(users) && offers == old(offers)
      ensures auth.NoToken? ==> code == 401 && unchanged(this)
      ensures !auth.NoToken? && !(Truthy(Field(b, "resourceType")) && Truthy(Field(b, "quantity")) && Truthy(Field(b, "deliveryDate"))) ==>
        code == 400 && unchanged(this)
      ensures auth.Token? && pid in old(projects)
              && Truthy(Field(b, "resourceType")) && Truthy(Field(b, "quantity")) && Truthy(Field(b, "deliveryDate")) ==>
        var r := OfferedResource(auth.userId, b, dateOf, now);
        && (r.None? ==> code == 500 && unchanged(this))
        && (r.Some? ==> code == 200 && projects == old(projects)[pid := old(projects)[pid].(resources := old(projects)[pid].resources + [r.value])])
      ensures code == 200 ==> auth.Token? && pid in old(projects) && nextContributor == old(nextContributor) + 1
      ensures code == 200 ==>
        && OfferedResource(auth.userId, b, dateOf, now).Some?
        && var r := OfferedResource(auth.userId, b, dateOf, now).value;
           contributors == old(contributors)[old(nextContributor) :=
             NewContributor(old(nextContributor), auth.userId, pid, "resource_provider",
                            Some(r.resourceType), Some(r.quantity), Some(r.deliveryDate))]
      ensures code != 200 ==> contributors == old(contributors) && projects == old(projects)
                              && nextContributor == old(nextContributor)
    {
      if auth.NoToken? {
        return 401;
      }
      if !(Truthy(Field(b, "resourceType")) && Truthy(Field(b, "quantity")) && Truthy(Field(b, "deliveryDate"))) {
        return 400;
      }
      if auth.BadToken? {
        return 500;
      }
      if pid !in projects {
        return 404;
      }
      var r := OfferedResource(auth.userId, b, dateOf, now);
      if r.None? {
        return 500;
      }
      PushResource(pid, r.value);
      var c := NewContributor(nextContributor, auth.userId, pid, "resource_provider",
                              Some(r.value.resourceType), Some(r.value.quantity), Some(r.value.deliveryDate));
      NewContributorOk(nextContributor, auth.userId, pid, "resource_provider",
                       Some(r.value.resourceType), Some(r.value.quantity), Some(r.value.deliveryDate));
      var saved := AddContributor(c);
      assert saved;
      code := 200;
    }

    /** `PUT /api/contributors/:id/attend`: the project's creator marks a
        participant as attended. */
    method MarkAttended(cid: nat, auth: Auth) returns (code: nat)
      requires Valid()
      modifies this
      ensures Valid()
      ensures users == old(users) && projects == old(projects) && offers == old(offers)
      ensures nextContributor == old(nextContributor)
      ensures var check := OwnerCheck(old(contributors), old(projects), cid, auth, "participant");
        && (check.Some? ==> code == check.value && contributors == old(contributors))
        && (check.None? ==> code == 200 && contributors == old(contributors)[cid := old(contributors)[cid].(attended := "yes")])
    {
      var check := OwnerCheck(contributors, projects, cid, auth, "participant");
      if check.Some? {
        return check.value;
      }
      contributors := contributors[cid := contributors[cid].(attended := "yes")];
      code := 200;
    }

    /** `PUT /api/contributors/:id/deliver`: the project's creator marks a
        resource provider's contribution as delivered. */
    method MarkDelivered(cid: nat, auth: Auth) returns (code: nat)
      requires Valid()
      modifies this
      ensures Valid()
      ensures users == old(users) && projects == old(projects) && offers == old(offers)
      ensures nextContributor == old(nextContributor)
      ensures var check := OwnerCheck(old(contributors), old(projects), cid, auth, "resource_provider");
        && (check.Some? ==> code == check.value && contributors == old(contributors))
        && (check.None? ==> code == 200 && contributors == old(contributors)[cid :=
              old(contributors)[cid].(status := "delivered", resourcesDelivered := "delivered")])
    {
      var check := OwnerCheck(contributors, projects, cid, auth, "resource_provider");
      if check.Some? {
        return check.value;
      }
      contributors := contributors[cid := contributors[cid].(status := "delivered", resourcesDelivered := "delivered")];
      code := 200;
    }

    /** `PUT /api/admin/contributors/:id/status`. */
    method AdminContributorStatus(cid: nat, status: JsValue) returns (code: nat)
      requires Valid()
      modifies this
      ensures Valid()
      ensures users == old(users) && projects == old(projects) && offers == old(offers)
      ensures nextContributor == old(nextContributor)
      ensures !Allowed(status, ContributorStatuses) ==> code == 400 && contributors == old(contributors)
      ensures Allowed(status, ContributorStatuses) && cid !in old(contributors) ==> code == 404 && contributors == old(contributors)
      ensures Allowed(status, ContributorStatuses) && cid in old(contributors) ==>
        code == 200 && contributors == old(contributors)[cid := old(contributors)[cid].(status := status.s)]
    {
      if !Allowed(status, ContributorStatuses) {
        return 400;
      }
      if cid !in contributors {
        return 404;
      }
      contributors := contributors[cid := contributors[cid].(status := status.s)];
      code := 200;
    }

    /** `PUT /api/admin/contributors/:id/attend`. */
    method AdminAttend(cid: nat, attended: JsValue) returns (code: nat)
      requires Valid()
      modifies this
      ensures Valid()
      ensures users == old(users) && projects == old(projects) && offers == old(offers)
      ensures nextContributor == old(nextContributor)
      ensures !Allowed(attended, AttendanceValues) ==> code == 400 && contributors == old(contributors)
      ensures Allowed(attended, AttendanceValues) && cid !in old(contributors) ==> code == 404 && contributors == old(contributors)
      ensures Allowed(attended, AttendanceValues) && cid in old(contributors) ==>
        if old(contributors)[cid].contributionType != "participant" then code == 400 && contributors == old(contributors)
        else code == 200 && contributors == old(contributors)[cid := old(contributors)[cid].(attended := attended.s)]
    {
      if !Allowed(attended, AttendanceValues) {
        return 400;
      }
      if cid !in contributors {
        return 404;
      }
      if contributors[cid].contributionType != "participant" {
        return 400;
      }
      contributors := contributors[cid := contributors[cid].(attended := attended.s)];
      code := 200;
    }

    /** `PUT /api/admin/contributors/:id/deliver`. */
    method AdminDeliver(cid: nat) returns (code: nat)
      requires Valid()
      modifies this
      ensures Valid()
      ensures users == old(users) && projects == old(projects) && offers == old(offers)
      ensures nextContributor == old(nextContributor)
      ensures cid !in old(contributors) ==> code == 404 && contributors == old(contributors)
      ensures cid in old(contributors) ==>
        if old(contributors)[cid].contributionType != "resource_provider" then code == 400 && contributors == old(contributors)
        else code == 200 && contributors == old(contributors)[cid :=
          old(contributors)[cid].(status := "delivered", resourcesDelivered := "delivered")]
    {
      if cid !in contributors {
        return 404;
      }
      if contributors[cid].contributionType != "resource_provider" {
        return 400;
      }
      contributors := contributors[cid := contributors[cid].(status := "delivered", resourcesDelivered := "delivered")];
      code := 200;
    }

    /** `PUT /api/admin/projects/:id/status`: any of the five statuses. */
    method AdminProjectStatus(pid: Id, status: JsValue) returns (code: nat)
      requires Valid()
      modifies this
      ensures Valid()
      ensures users == old(users) && contributors == old(contributors) && offers == old(offers)
      ensures nextContributor == old(nextContributor)
      ensures !Allowed(status, ProjectStatuses) ==> code == 400 && projects == old(projects)
      ensures Allowed(status, ProjectStatuses) && pid !in old(projects) ==> code == 404 && projects == old(projects)
      ensures Allowed(status, ProjectStatuses) && pid in old(projects) ==>
        code == 200 && projects == old(projects)[pid := old(projects)[pid].(status := status.s)]
    {
      if !Allowed(status, ProjectStatuses) {
        return 400;
      }
      if pid !in projects {
        return 404;
      }
      projects := projects[pid := projects[pid].(status := status.s)];
      code := 200;
    }

    /** `PUT /api/projects/:id/status`: active, completed or cancelled, by an
        admin or by the project's creator; a project the caller may not
        edit reads as not found. */
    method OwnerProjectStatus(pid: Id, auth: Auth, status: JsValue) returns (code: nat)
      requires Valid()
      modifies this
      ensures Valid()
      ensures users == old(users) && contributors == old(contributors) && offers == old(offers)
      ensures nextContributor == old(nextContributor)
      ensures code == 200 <==>
        && auth.Token? && Allowed(status, OwnerProjectStatuses) && auth.userId in users
        && pid in old(projects) && MayEdit(users[auth.userId], old(projects)[pid])
      ensures code == 200 ==> projects == old(projects)[pid := old(projects)[pid].(status := status.s)]
      ensures code != 200 ==> projects == old(projects)
      ensures auth.NoToken? ==> code == 401
      ensures !auth.NoToken? && !Allowed(status, OwnerProjectStatuses) ==> code == 400
    {
      if auth.NoToken? {
        return 401;
      }
      if !Allowed(status, OwnerProjectStatuses) {
        return 400;
      }
      if auth.BadToken? {
        return 500;
      }
      if auth.userId !in users {
        return 404;
      }
      if pid !in projects || !MayEdit(users[auth.userId], projects[pid]) {
        return 404;
      }
      OwnerStatusesNarrower();
      projects := projects[pid := projects[pid].(status := status.s)];
      code := 200;
    }

    /** `PUT /api/admin/offers/:id`. */
    method AdminOfferStatus(oid: Id, status: JsValue) returns (code: nat)
      requires Valid()
      modifies this
      ensures Valid()
      ensures users == old(users) && projects == old(projects) && contributors == old(contributors)
      ensures nextContributor == old(nextContributor)
      ensures !Allowed(status, OfferStatuses) ==> code == 400 && offers == old(offers)
      ensures Allowed(status, OfferStatuses) && oid !in old(offers) ==> code == 404 && offers == old(offers)
      ensures Allowed(status, OfferStatuses) && oid in old(offers) ==>
        code == 200 && offers == old(offers)[oid := old(offers)[oid].(status := status.s)]
    {
      if !Allowed(status, OfferStatuses) {
        return 400;
      }
      if oid !in offers {
        return 404;
      }
      offers := offers[oid := offers[oid].(status := status.s)];
      code := 200;
    }

    /** `DELETE /api/admin/users/:id`: admins cannot be deleted; otherwise
        the user's contributions and projects go first, then the user. */
    method DeleteUser(uid: Id) returns (code: nat)
      requires Valid()
      modifies this
      ensures Valid()
      ensures offers == old(offers) && nextContributor == old(nextContributor)
      ensures uid !in old(users) ==> code == 404 && unchanged(this)
      ensures uid in old(users) && old(users)[uid].isAdmin ==> code == 400 && unchanged(this)
      ensures uid in old(users) && !old(users)[uid].isAdmin ==>
        && code == 200
        && contributors == DropContributions(old(contributors), uid)
        && projects == DropProjects(old(projects), uid)
        && users == old(users) - {uid}
    {
      if uid !in users {
        return 404;
      }
      if users[uid].isAdmin {
        return 400;
      }
      contributors := DropContributions(contributors, uid);
      projects := DropProjects(projects, uid);
      users := users - {uid};
      code := 200;
    }

    /** `PUT /api/profile`: the sanitiser runs on the request first, then
        the handler; an accepted update replaces the stored user. */
    method UpdateProfile(auth: Auth, raw: Body, picture: Option<string>, dateOf: JsValue -> Option<int>)
      returns (reply: ProfileReply)
      requires Valid()
      modifies this
      ensures Valid()
      ensures projects == old(projects) && contributors == old(contributors) && offers == old(offers)
      ensures nextContributor == old(nextContributor)
      ensures reply == Profiles.UpdateProfile(old(users), auth, raw, picture, dateOf)
      ensures reply.Updated? ==> auth.Token? && users == old(users)[auth.userId := reply.user]
      ensures !reply.Updated? ==> users == old(users)
    {
      var ok, body := SanitizeRequest(raw);
      UpdateProfileSteps(users, auth, raw, picture, dateOf, ok, body);
      if !ok {
        return Refused(500, ServerError);
      }
      reply := Handle(users, auth, body, picture, dateOf);
      if reply.Updated? {
        UpdateFits(users, auth, raw, picture, dateOf);
        SaveUser(reply.user);
      }
    }

    /** `user.save()` of an existing user that passed its checks. */
    method SaveUser(u: User)
      requires Valid() && u.id in users && UserOk(u) && UniqueEmails(users[u.id := u])
      modifies this
      ensures Valid()
      ensures users == old(users)[u.id := u]
      ensures projects == old(projects) && contributors == old(contributors) && offers == old(offers)
      ensures nextContributor == old(nextContributor)
    {
      users := users[u.id := u];
    }
  }
}
