/** The project, contributor and offer documents of backend/models/Project.js,
    backend/models/Contributor.js and backend/models/Offer.js: their fields,
    the allow-lists behind their `enum` validators, their defaults and the
    checks `save()` runs. Enumerated fields stay strings, as in the source,
    because the request handlers compare raw request strings against the
    same lists. */
module Schemas {
  import opened Wrappers
  import opened Text

  type Id = string

  /** What a handler learns from the `Authorization` header: no token, a
      token `jwt.verify` rejects (it throws inside the handler's `try`), or
      the user id a valid token carries. */
  datatype Auth = NoToken | BadToken | Token(userId: Id)

  // ----- allow-lists -----

  const ProjectTypes: set<string> := {"project", "event"}
  const ProjectStatuses: set<string> := {"pending", "active", "completed", "cancelled", "rejected"}
  /** What a project's creator may set through the owner endpoint. */
  const OwnerProjectStatuses: set<string> := {"active", "completed", "cancelled"}
  const ResourceStatuses: set<string> := {"pending", "confirmed", "delivered"}
  const ContributionTypes: set<string> := {"participant", "resource_provider", "donor"}
  const ContributorStatuses: set<string> := {"pending", "confirmed", "delivered", "completed", "cancelled"}
  const DeliveryStates: set<string> := {"Not delivered", "delivered"}
  /** What the admin attendance endpoint accepts; the schema itself leaves
      `attended` unconstrained. */
  const AttendanceValues: set<string> := {"pending", "yes", "no"}
  const Categories: set<string> :=
    {"food-perishables", "clothing-bedding", "home-furniture", "money", "skills-time", "other"}
  const Logistics: set<string> := {"delivery", "pickup"}
  const Methods: set<string> := {"online", "in-person"}
  const OfferStatuses: set<string> := {"pending", "approved", "rejected"}

  /** The owner's choices are a strict part of the admin's. */
  lemma OwnerStatusesNarrower()
    ensures OwnerProjectStatuses < ProjectStatuses
    ensures "pending" in ProjectStatuses - OwnerProjectStatuses
    ensures "rejected" in ProjectStatuses - OwnerProjectStatuses
  {
  }

  // ----- Project -----

  /** An entry of `participants`. */
  datatype Participant = Participant(user: Id, joinedAt: int)

  /** An entry of `resources`. */
  datatype Resource = Resource(offeredBy: Id, resourceType: string, quantity: int,
                               deliveryDate: int, status: string, offeredAt: int)

  datatype Project = Project(
    id: Id,
    kind: string,                 // `type`
    title: string,
    sdgs: seq<string>,
    startDate: int,
    country: Option<string>,
    city: Option<string>,
    exactLocation: Option<string>,
    briefInfo: string,
    peopleRequired: Option<int>,
    slotsRemaining: int,
    createdBy: Id,
    participants: seq<Participant>,
    resources: seq<Resource>,
    status: string,
    createdAt: int)

  predicate ResourceOk(r: Resource) {
    r.offeredBy != [] && r.resourceType != [] && r.quantity >= 1 && r.status in ResourceStatuses
  }

  /** What `save()` checks of a project: the `type` and `status` enums, the
      required title, brief and creator (a trimmed required string must not
      be empty), the minimum 0 of `peopleRequired` and `slotsRemaining`, and
      each embedded resource. */
  predicate ProjectOk(p: Project) {
    && p.kind in ProjectTypes
    && p.title != [] && p.briefInfo != [] && p.createdBy != []
    && (p.peopleRequired.Some? ==> p.peopleRequired.value >= 0)
    && p.slotsRemaining >= 0
    && (forall i | 0 <= i < |p.resources| :: ResourceOk(p.resources[i]))
    && p.status in ProjectStatuses
  }

  /** The `slotsRemaining` default: `this.peopleRequired || 0`, so a missing
      or zero requirement gives no slots and any other gives that many. */
  function DefaultSlots(peopleRequired: Option<int>): (n: int)
    ensures peopleRequired.None? ==> n == 0
    ensures peopleRequired.Some? ==> n == peopleRequired.value
  {
    if peopleRequired.Some? && peopleRequired.value != 0 then peopleRequired.value else 0
  }

  /** The `trim` setter on an optional String field. */
  function TrimOpt(v: Option<string>): (r: Option<string>)
    ensures r.Some? <==> v.Some?
    ensures r.Some? ==> Trim(r.value) == r.value
  {
    TrimIdempotent(if v.Some? then v.value else []);
    if v.Some? then Some(Trim(v.value)) else None
  }

  /** `new Project({...})`: trimmed strings, the location as given (trimmed),
      no participants or resources yet, status `pending` and the slots
      defaulted from the requirement. */
  function NewProject(id: Id, kind: string, title: string, sdgs: seq<string>, startDate: int,
                      country: Option<string>, city: Option<string>, exactLocation: Option<string>,
                      briefInfo: string, peopleRequired: Option<int>, createdBy: Id, now: int): (p: Project)
    ensures p.status == "pending" && p.participants == [] && p.resources == []
    ensures p.slotsRemaining == (if peopleRequired.Some? then peopleRequired.value else 0)
    ensures Trim(p.title) == p.title && Trim(p.briefInfo) == p.briefInfo
    ensures p.country.Some? <==> country.Some?
    ensures p.city.Some? <==> city.Some?
    ensures p.exactLocation.Some? <==> exactLocation.Some?
    ensures p.country.Some? ==> p.country.value == Trim(country.value)
    ensures p.city.Some? ==> p.city.value == Trim(city.value)
    ensures p.exactLocation.Some? ==> p.exactLocation.value == Trim(exactLocation.value)
    ensures |p.sdgs| == |sdgs| && forall i | 0 <= i < |sdgs| :: p.sdgs[i] == Trim(sdgs[i])
  {
    TrimIdempotent(title);
    TrimIdempotent(briefInfo);
    var trimmed := seq(|sdgs|, i requires 0 <= i < |sdgs| => Trim(sdgs[i]));
    var c, t, x := TrimOpt(country), TrimOpt(city), TrimOpt(exactLocation);
    Project(id, kind, Trim(title), trimmed, startDate, c, t, x, Trim(briefInfo), peopleRequired,
            DefaultSlots(peopleRequired), createdBy, [], [], "pending", now)
  }

  /** A new project passes `save()` exactly when its type is known, its
      trimmed title and brief are not empty, it has a creator and its
      requirement is not negative; it then starts with as many free slots
      as people required. */
  lemma NewProjectOk(id: Id, kind: string, title: string, sdgs: seq<string>, startDate: int,
                     country: Option<string>, city: Option<string>, exactLocation: Option<string>,
                     briefInfo: string, peopleRequired: Option<int>, createdBy: Id, now: int)
    ensures var p := NewProject(id, kind, title, sdgs, startDate, country, city, exactLocation,
                                briefInfo, peopleRequired, createdBy, now);
      && (ProjectOk(p) <==>
            kind in ProjectTypes && Trim(title) != [] && Trim(briefInfo) != [] && createdBy != []
            && (peopleRequired.Some? ==> peopleRequired.value >= 0))
      && (ProjectOk(p) && peopleRequired.Some? ==> p.slotsRemaining == p.peopleRequired.value >= 0)
  {
  }

  // ----- Contributor -----

  datatype Contributor = Contributor(
    id: nat,
    user: Id,
    project: Id,
    contributionType: string,
    resourceType: Option<string>,
    quantity: Option<int>,
    deliveryDate: Option<int>,
    donationCategory: Option<string>,
    status: string,
    resourcesDelivered: string,
    attended: string)

  /** What `save()` checks of a contributor: the required user, project and
      contribution type, the enums, and a quantity of at least 0. */
  predicate ContributorOk(c: Contributor) {
    && c.user != [] && c.project != []
    && c.contributionType in ContributionTypes
    && (c.quantity.Some? ==> c.quantity.value >= 0)
    && (c.donationCategory.Some? ==> c.donationCategory.value in Categories)
    && c.status in ContributorStatuses
    && c.resourcesDelivered in DeliveryStates
  }

  /** `new Contributor({...})` with the defaults: status `confirmed`,
      `Not delivered`, attendance `pending`. */
  function NewContributor(id: nat, user: Id, project: Id, contributionType: string,
                          resourceType: Option<string>, quantity: Option<int>, deliveryDate: Option<int>): (c: Contributor)
    ensures c.status == "confirmed" && c.resourcesDelivered == "Not delivered" && c.attended == "pending"
    ensures c.user == user && c.project == project && c.contributionType == contributionType
  {
    Contributor(id, user, project, contributionType,
                if resourceType.Some? then Some(Trim(resourceType.value)) else None,
                quantity, deliveryDate, None, "confirmed", "Not delivered", "pending")
  }

  /** A new contributor passes `save()` exactly when it names a user and a
      project, its type is one of the three, and its quantity, if any, is
      not negative. */
  lemma NewContributorOk(id: nat, user: Id, project: Id, contributionType: string,
                         resourceType: Option<string>, quantity: Option<int>, deliveryDate: Option<int>)
    ensures ContributorOk(NewContributor(id, user, project, contributionType, resourceType, quantity, deliveryDate))
      <==> user != [] && project != [] && contributionType in ContributionTypes
           && (quantity.Some? ==> quantity.value >= 0)
  {
  }

  /** The `participantsAttending` and `resourcesPromised` virtuals: the
      contributors of a project with the given contribution type. */
  function ContributorsOf(cs: map<nat, Contributor>, project: Id, contributionType: string): (r: set<Contributor>)
    ensures forall c | c in r :: c in cs.Values && c.project == project && c.contributionType == contributionType
    ensures forall k | k in cs && cs[k].project == project && cs[k].contributionType == contributionType :: cs[k] in r
  {
    set k | k in cs && cs[k].project == project && cs[k].contributionType == contributionType :: cs[k]
  }

  /** The two virtuals never share a record. */
  lemma VirtualsDisjoint(cs: map<nat, Contributor>, project: Id)
    ensures ContributorsOf(cs, project, "participant") !! ContributorsOf(cs, project, "resource_provider")
  {
  }

  // ----- Offer -----

  datatype Offer = Offer(
    id: Id,
    user: Option<Id>,
    category: string,
    donorName: Option<string>,
    contact: string,
    isAnonymous: bool,
    quantity: Option<string>,
    logistics: Option<string>,
    delivery: Option<string>,     // `method`
    status: string)

  /** The `method` validator: an absent or empty value passes, otherwise it
      must be `online` or `in-person`. */
  predicate MethodOk(m: Option<string>) {
    m.None? || m.value == [] || m.value in Methods
  }

  /** What `save()` checks of an offer. */
  predicate OfferOk(o: Offer) {
    && o.category in Categories
    && o.contact != []
    && (o.logistics.Some? ==> o.logistics.value in Logistics)
    && MethodOk(o.delivery)
    && o.status in OfferStatuses
  }

  /** `new Offer({...})`: strings trimmed, status `pending`, and
      `isAnonymous` false unless given. */
  function NewOffer(id: Id, user: Option<Id>, category: string, donorName: Option<string>, contact: string,
                    isAnonymous: Option<bool>, quantity: Option<string>, logistics: Option<string>,
                    delivery: Option<string>): (o: Offer)
    ensures o.status == "pending"
    ensures o.isAnonymous <==> isAnonymous == Some(true)
    ensures o.delivery.Some? <==> delivery.Some?
  {
    Offer(id, user, category, if donorName.Some? then Some(Trim(donorName.value)) else None,
          Trim(contact), if isAnonymous.Some? then isAnonymous.value else false,
          if quantity.Some? then Some(Trim(quantity.value)) else None, logistics,
          if delivery.Some? then Some(Trim(delivery.value)) else None, "pending")
  }

  /** The method check after the trim setter: a blank method passes, and a
      non-blank one passes exactly when it is `online` or `in-person` once
      trimmed. */
  lemma OfferMethodRule(id: Id, user: Option<Id>, category: string, donorName: Option<string>, contact: string,
                        isAnonymous: Option<bool>, quantity: Option<string>, logistics: Option<string>, m: string)
    ensures var o := NewOffer(id, user, category, donorName, contact, isAnonymous, quantity, logistics, Some(m));
      && (AllSpace(m) ==> MethodOk(o.delivery))
      && (!AllSpace(m) ==> (MethodOk(o.delivery) <==> Trim(m) in Methods))
  {
    TrimShape(m);
  }

  /** A new offer passes `save()` exactly when its category is known, its
      trimmed contact is not empty, its logistics is `delivery` or `pickup`
      if given, and its method passes. */
  lemma NewOfferOk(id: Id, user: Option<Id>, category: string, donorName: Option<string>, contact: string,
                   isAnonymous: Option<bool>, quantity: Option<string>, logistics: Option<string>,
                   delivery: Option<string>)
    ensures var o := NewOffer(id, user, category, donorName, contact, isAnonymous, quantity, logistics, delivery);
      OfferOk(o) <==> category in Categories && Trim(contact) != []
                      && (logistics.Some? ==> logistics.value in Logistics) && MethodOk(o.delivery)
  {
  }
}
