/** The project details view of
    frontend/components/modal/ProjectDetailsModal.jsx: the location line,
    the participant and resource selections, and the two mark actions,
    which send one owner mark per selected contributor and then clear the
    selection; the delivery action also updates the view's own copy of the
    promised resources. */
module ProjectDetails {
  import opened Wrappers
  import opened Text
  import opened Schemas
  import opened Selection
  import Participation

  /** A location value `if (value)` lets through. */
  predicate Given(o: Option<string>) {
    o.Some? && o.value != []
  }

  /** The parts `getLocationString` pushes, in order. */
  function Parts(p: Project): (r: seq<string>)
    ensures |r| <= 3
    ensures forall i | 0 <= i < |r| :: r[i] != []
  {
    (if Given(p.country) then [p.country.value] else [])
    + (if Given(p.city) then [p.city.value] else [])
    + (if Given(p.exactLocation) then [p.exactLocation.value] else [])
  }

  /** `getLocationString`: the given parts, pushed one by one, joined with
      `, `. */
  method LocationString(p: Project) returns (s: string)
    ensures s == Join(Parts(p), ", ")
    ensures Given(p.country) && Given(p.city) && Given(p.exactLocation) ==>
      s == p.country.value + ", " + p.city.value + ", " + p.exactLocation.value
    ensures !Given(p.country) && !Given(p.city) && !Given(p.exactLocation) ==> s == []
    ensures !Given(p.country) && Given(p.city) && !Given(p.exactLocation) ==> s == p.city.value
  {
    var parts: seq<string> := [];
    if Given(p.country) {
      parts := parts + [p.country.value];
    }
    if Given(p.city) {
      parts := parts + [p.city.value];
    }
    if Given(p.exactLocation) {
      parts := parts + [p.exactLocation.value];
    }
    assert parts == Parts(p);
    s := Join(parts, ", ");
    if |parts| == 3 {
      assert parts[1..][1..] == [parts[2]];
      assert Join(parts[1..], ", ") == parts[1] + ", " + parts[2];
      assert s == parts[0] + ", " + (parts[1] + ", " + parts[2]);
    }
  }

  /** `resourcesPromised?.map(...) || []`: the selected records read as
      delivered, the others stay, and a missing list becomes empty. */
  function LocalDelivered(promised: Option<seq<Contributor>>, selected: seq<nat>): (r: seq<Contributor>)
    ensures promised.None? ==> r == []
    ensures promised.Some? ==> |r| == |promised.value|
    ensures promised.Some? ==> forall i | 0 <= i < |r| ::
      r[i] == (if promised.value[i].id in selected then promised.value[i].(resourcesDelivered := "delivered") else promised.value[i])
  {
    if promised.None? then []
    else
      var xs := promised.value;
      seq(|xs|, i requires 0 <= i < |xs| =>
        if xs[i].id in selected then xs[i].(resourcesDelivered := "delivered") else xs[i])
  }

  /** Updating twice with the same selection changes nothing more, and an
      empty selection changes nothing. */
  lemma LocalDeliveredLaws(promised: Option<seq<Contributor>>, selected: seq<nat>)
    ensures LocalDelivered(Some(LocalDelivered(promised, selected)), selected) == LocalDelivered(promised, selected)
    ensures promised.Some? ==> LocalDelivered(promised, []) == promised.value
  {
  }

  /** The record fields a mark never touches. */
  predicate SameLinks(a: Contributor, b: Contributor) {
    a.id == b.id && a.user == b.user && a.project == b.project && a.contributionType == b.contributionType
  }

  /** The owner check reads only what marks never touch. */
  lemma OwnerCheckStable(a: map<nat, Contributor>, b: map<nat, Contributor>, ps: map<Id, Project>,
                         id: nat, auth: Auth, kind: string)
    requires a.Keys == b.Keys
    requires forall k | k in a :: SameLinks(a[k], b[k])
    ensures Participation.OwnerCheck(a, ps, id, auth, kind) == Participation.OwnerCheck(b, ps, id, auth, kind)
  {
  }

  /** What a mark of the given kind leaves in a record. */
  predicate Marked(c: Contributor, kind: string) {
    if kind == "participant" then c.attended == "yes"
    else c.resourcesDelivered == "delivered" && c.status == "delivered"
  }

  /** The change one owner mark makes to a record: attendance for a
      participant, delivery for a resource provider. */
  function Mark(c: Contributor, kind: string): (r: Contributor)
    ensures Marked(r, kind) && SameLinks(r, c)
    ensures Marked(c, kind) ==> r == c
  {
    if kind == "participant" then c.(attended := "yes")
    else c.(status := "delivered", resourcesDelivered := "delivered")
  }

  /** The records after one owner mark request for `id`: the record is
      marked when the owner check lets it through, and nothing changes
      otherwise. */
  function Step(cs: map<nat, Contributor>, ps: map<Id, Project>, id: nat, auth: Auth, kind: string)
    : (r: map<nat, Contributor>)
    ensures r.Keys == cs.Keys
    ensures Participation.OwnerCheck(cs, ps, id, auth, kind) == None ==> Marked(r[id], kind)
    ensures forall k | k in r && k != id :: r[k] == cs[k]
  {
    if Participation.OwnerCheck(cs, ps, id, auth, kind) == None then cs[id := Mark(cs[id], kind)] else cs
  }

  /** The records after one owner mark request per selected id, in order. */
  function Marks(cs: map<nat, Contributor>, ps: map<Id, Project>, ids: seq<nat>, auth: Auth, kind: string)
    : (r: map<nat, Contributor>)
    ensures r.Keys == cs.Keys
    decreases |ids|
  {
    if ids == [] then cs
    else Step(Marks(cs, ps, ids[..|ids| - 1], auth, kind), ps, ids[|ids| - 1], auth, kind)
  }

  /** What the requests leave behind does not depend on their order: a
      selected record the owner check lets through on the original records
      is marked, a record that is not selected or that the check refuses
      stays as it was, and no record changes its links. */
  lemma {:induction false} MarksEffect(cs: map<nat, Contributor>, ps: map<Id, Project>, ids: seq<nat>, auth: Auth, kind: string)
    ensures var r := Marks(cs, ps, ids, auth, kind);
      && (forall k | k in r :: SameLinks(r[k], cs[k]))
      && (forall k | k in ids && Participation.OwnerCheck(cs, ps, k, auth, kind) == None :: k in r && Marked(r[k], kind))
      && (forall k | k in r && Participation.OwnerCheck(cs, ps, k, auth, kind) != None :: r[k] == cs[k])
      && (forall k | k in r && k !in ids :: r[k] == cs[k])
    decreases |ids|
  {
    if ids != [] {
      var pre, id := ids[..|ids| - 1], ids[|ids| - 1];
      MarksEffect(cs, ps, pre, auth, kind);
      var cur := Marks(cs, ps, pre, auth, kind);
      OwnerCheckStable(cs, cur, ps, id, auth, kind);
      assert ids == pre + [id];
      assert forall k :: k in ids <==> k in pre || k == id;
    }
  }

  /** One owner mark request, of the kind the view sends. */
  method SendMark(store: Participation.ProjectStore, id: nat, auth: Auth, kind: string)
    requires store.Valid()
    requires kind == "participant" || kind == "resource_provider"
    modifies store
    ensures store.Valid()
    ensures store.users == old(store.users) && store.projects == old(store.projects) && store.offers == old(store.offers)
    ensures store.contributors == Step(old(store.contributors), store.projects, id, auth, kind)
  {
    if kind == "participant" {
      var code := store.MarkAttended(id, auth);
    } else {
      var code := store.MarkDelivered(id, auth);
    }
  }

  /** The owner marks of the selected ids, one request each, leave the
      records as `Marks` says and change nothing else in the store. */
  method SendMarks(store: Participation.ProjectStore, ids: seq<nat>, auth: Auth, kind: string)
    requires store.Valid()
    requires kind == "participant" || kind == "resource_provider"
    modifies store
    ensures store.Valid()
    ensures store.users == old(store.users) && store.projects == old(store.projects) && store.offers == old(store.offers)
    ensures store.contributors == Marks(old(store.contributors), store.projects, ids, auth, kind)
  {
    var i := 0;
    while i < |ids|
      invariant 0 <= i <= |ids|
      invariant store.Valid()
      invariant store.users == old(store.users) && store.projects == old(store.projects) && store.offers == old(store.offers)
      invariant store.contributors == Marks(old(store.contributors), store.projects, ids[..i], auth, kind)
    {
      assert ids[..i + 1][..i] == ids[..i];
      SendMark(store, ids[i], auth, kind);
      i := i + 1;
    }
    assert ids[..i] == ids;
  }

  /** The view's state. */
  class DetailsView {
    var selectedParticipants: seq<nat>
    var selectedResources: seq<nat>
    var promised: Option<seq<Contributor>>      // `currentProject.resourcesPromised`

    constructor (promised: Option<seq<Contributor>>)
      ensures selectedParticipants == [] && selectedResources == [] && this.promised == promised
    {
      selectedParticipants := [];
      selectedResources := [];
      this.promised := promised;
    }

    /** `handleParticipantSelect`. */
    method SelectParticipant(id: nat)
      modifies this
      ensures selectedParticipants == Toggle(old(selectedParticipants), id)
      ensures selectedResources == old(selectedResources) && promised == old(promised)
    {
      selectedParticipants := Toggle(selectedParticipants, id);
    }

    /** `handleResourceSelect`. */
    method SelectResource(id: nat)
      modifies this
      ensures selectedResources == Toggle(old(selectedResources), id)
      ensures selectedParticipants == old(selectedParticipants) && promised == old(promised)
    {
      selectedResources := Toggle(selectedResources, id);
    }

    /** `markParticipantsAttended`: nothing without a selection; otherwise
        the attendance marks are sent and the selection is cleared. */
    method MarkParticipantsAttended(store: Participation.ProjectStore, auth: Auth)
      requires store.Valid()
      modifies this, store
      ensures store.Valid()
      ensures old(selectedParticipants) == [] ==> unchanged(this) && unchanged(store)
      ensures selectedParticipants == [] && selectedResources == old(selectedResources) && promised == old(promised)
      ensures store.users == old(store.users) && store.projects == old(store.projects) && store.offers == old(store.offers)
      ensures store.contributors == Marks(old(store.contributors), store.projects, old(selectedParticipants), auth, "participant")
    {
      if selectedParticipants == [] {
        return;
      }
      SendMarks(store, selectedParticipants, auth, "participant");
      selectedParticipants := [];
    }

    /** `markResourcesDelivered`: nothing without a selection; otherwise the
        delivery marks are sent, the view's own copy marks the selected
        records delivered, and the selection is cleared. Every record the
        owner check let through then reads the same in the view as in the
        store. */
    method MarkResourcesDelivered(store: Participation.ProjectStore, auth: Auth)
      requires store.Valid()
      modifies this, store
      ensures store.Valid()
      ensures old(selectedResources) == [] ==> unchanged(this) && unchanged(store)
      ensures old(selectedResources) != [] ==> promised == Some(LocalDelivered(old(promised), old(selectedResources)))
      ensures selectedResources == [] && selectedParticipants == old(selectedParticipants)
      ensures store.users == old(store.users) && store.projects == old(store.projects) && store.offers == old(store.offers)
      ensures store.contributors == Marks(old(store.contributors), store.projects, old(selectedResources), auth, "resource_provider")
      ensures old(selectedResources) != [] ==> forall i | 0 <= i < |promised.value| ::
                var k := promised.value[i].id;
                k in old(selectedResources)
                && Participation.OwnerCheck(old(store.contributors), store.projects, k, auth, "resource_provider") == None
                ==> promised.value[i].resourcesDelivered == store.contributors[k].resourcesDelivered
    {
      if selectedResources == [] {
        return;
      }
      var ids := selectedResources;
      SendMarks(store, ids, auth, "resource_provider");
      MarksEffect(old(store.contributors), store.projects, ids, auth, "resource_provider");
      promised := Some(LocalDelivered(promised, ids));
      selectedResources := [];
    }
  }
}
