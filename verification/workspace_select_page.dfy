/** frontend src/pages/WorkspaceSelectPage.tsx: the workspaces a user can
    open. Projects and hackathons are tagged with their kind; the user's own
    items and the projects with an active membership are merged and
    de-duplicated by id, keeping the first record of each id. */
module WorkspaceSelectPage {
  import opened Common
  import opened Lists
  import Store

  /** A listed project or hackathon, with the kind the page tags it with. */
  datatype Item = Item(id: int, title: string, kind: string, createdBy: Option<int>)

  /** A fetched record before tagging. */
  datatype Raw = Raw(id: int, title: string, createdBy: Option<int>)

  function ItemId(x: Item): int { x.id }

  /** Every fetched record, tagged with `kind`, in the fetched order. */
  function Tagged(raws: seq<Raw>, kind: string): (r: seq<Item>)
    ensures |r| == |raws|
    ensures forall i :: 0 <= i < |r| ==>
      r[i].kind == kind && r[i].id == raws[i].id && r[i].title == raws[i].title && r[i].createdBy == raws[i].createdBy
  {
    Map(raws, (x: Raw) => Item(x.id, x.title, kind, x.createdBy))
  }

  function CreatedBy(userId: int): Item -> bool {
    (x: Item) => x.createdBy == Some(userId)
  }

  /** The items the user created. */
  function Created(items: seq<Item>, userId: int): (r: seq<Item>)
    ensures forall x :: x in r <==> x in items && x.createdBy == Some(userId)
  {
    Filter(items, CreatedBy(userId))
  }

  predicate ActiveFor(memberships: seq<Store.Membership>, projectId: int) {
    exists i :: 0 <= i < |memberships| && memberships[i].projectId == projectId && memberships[i].status == "active"
  }

  /** The projects the user's memberships make them an active member of. */
  function Joined(projects: seq<Item>, memberships: seq<Store.Membership>): (r: seq<Item>)
    ensures forall x :: x in r <==> x in projects && ActiveFor(memberships, x.id)
  {
    Filter(projects, (p: Item) => Any(memberships, (m: Store.Membership) => m.projectId == p.id && m.status == "active"))
  }

  /** `uniqueAccessible…`: the created items and then the joined ones, each
      id once, each id carried by its first record. */
  function Accessible(created: seq<Item>, joined: seq<Item>): (r: seq<Item>)
    ensures forall i :: 0 <= i < |r| ==> r[i] in created + joined
    ensures forall i :: 0 <= i < |r| ==> Some(r[i]) == FindBy(created + joined, ItemId, r[i].id)
  {
    DedupeBy(created + joined, ItemId)
  }

  /** Each id appears once, and every id of the merged lists appears. */
  lemma AccessibleUnique(created: seq<Item>, joined: seq<Item>)
    ensures NoDuplicates(Map(Accessible(created, joined), ItemId))
    ensures forall x :: x in created + joined ==> exists y :: y in Accessible(created, joined) && y.id == x.id
  {
    DedupeByKeys(created + joined, ItemId);
  }

  /** With distinct ids among the created items, they come first and
      unchanged; a project both created and joined is listed as created. */
  lemma CreatedFirst(created: seq<Item>, joined: seq<Item>)
    requires NoDuplicates(Map(created, ItemId))
    ensures |created| <= |Accessible(created, joined)|
    ensures Accessible(created, joined)[..|created|] == created
  {
    DedupeByKeepsFront(created, joined, ItemId);
  }

  /** The page's two lists. Joined hackathons are always empty, so the
      hackathons offered are the user's own. */
  function AccessibleProjects(projects: seq<Raw>, memberships: seq<Store.Membership>, userId: int): seq<Item> {
    var all := Tagged(projects, "project");
    Accessible(Created(all, userId), Joined(all, memberships))
  }

  function AccessibleHackathons(hackathons: seq<Raw>, userId: int): seq<Item> {
    Accessible(Created(Tagged(hackathons, "hackathon"), userId), [])
  }

  /** Every hackathon offered is one the user created, tagged "hackathon";
      a hackathon the user only joined is never offered. */
  lemma HackathonsAreOwnOnly(hackathons: seq<Raw>, userId: int, x: Item)
    requires x in AccessibleHackathons(hackathons, userId)
    ensures x.createdBy == Some(userId) && x.kind == "hackathon"
  {
    var created := Created(Tagged(hackathons, "hackathon"), userId);
    assert created + [] == created;
  }

  /** Every project offered is tagged "project" and is the user's own or
      one with an active membership. */
  lemma ProjectsAreAccessible(projects: seq<Raw>, memberships: seq<Store.Membership>, userId: int, x: Item)
    requires x in AccessibleProjects(projects, memberships, userId)
    ensures x.kind == "project"
    ensures x.createdBy == Some(userId) || ActiveFor(memberships, x.id)
  {
    var all := Tagged(projects, "project");
    var c := Created(all, userId);
    var j := Joined(all, memberships);
    assert x in c + j;
  }
}
