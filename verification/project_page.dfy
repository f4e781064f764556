/** frontend src/pages/ProjectPage.tsx: the project catalogue. Projects from
    the server are normalised for display, filtered, shown six per page, and
    the page's handlers join a project, decide on an application, add a
    project and delete one. Each request's outcome is a parameter. */
module ProjectPage {
  import opened Common
  import opened Lists
  import opened Strings
  import Store
  import ProjectsApi
  import ApplicationsApi
  import Routing

  datatype CardApplication = CardApplication(id: string, applicantId: int, status: string)

  /** A project as the server (or the fallback list) sends it; a field that
      is missing or, for the lists, not an array is None. */
  datatype RawProject = RawProject(
    id: int, title: string, description: string, tags: Option<seq<string>>, status: Option<string>,
    format: Option<string>, location: Option<string>, joinedUsers: Option<seq<int>>,
    applications: Option<seq<CardApplication>>, projectId: Option<int>, ownerId: int, authorId: Option<int>)

  /** A project card after normalisation. */
  datatype Card = Card(
    id: int, title: string, description: string, tags: seq<string>, status: string,
    format: string, location: string, joinedUsers: seq<int>, applications: seq<CardApplication>,
    projectId: Option<int>, authorId: int, alreadyApplied: bool, alreadyJoined: bool)

  datatype Viewer = Viewer(id: int, name: string, email: string, role: string)

  predicate AppliedBy(apps: seq<CardApplication>, userId: int) {
    exists i :: 0 <= i < |apps| && apps[i].applicantId == userId
  }

  /** The normalisation after loading: defaults for the missing fields, and
      whether the signed-in user has applied to or joined each project. */
  function Normalise(p: RawProject, user: Option<Viewer>): (c: Card)
    ensures c.alreadyApplied <==> user.Some? && p.applications.Some? && AppliedBy(p.applications.value, user.value.id)
    ensures c.alreadyJoined <==> user.Some? && p.joinedUsers.Some? && user.value.id in p.joinedUsers.value
    ensures c.tags == (if p.tags.Some? then p.tags.value else ["General"])
    ensures c.applications == (if p.applications.Some? then p.applications.value else [])
    ensures c.format == p.format.GetOr("online") && c.location == p.location.GetOr("TBA")
    ensures c.status == p.status.GetOr("upcoming")
    ensures c.id == p.id && c.title == p.title && c.description == p.description
  {
    Card(p.id, p.title, p.description, p.tags.GetOr(["General"]), p.status.GetOr("upcoming"),
         p.format.GetOr("online"), p.location.GetOr("TBA"), p.joinedUsers.GetOr([]),
         p.applications.GetOr([]), p.projectId, p.authorId.GetOr(p.ownerId),
         user.Some? && p.applications.Some? && AppliedBy(p.applications.value, user.value.id),
         user.Some? && p.joinedUsers.Some? && user.value.id in p.joinedUsers.value)
  }

  /** Without a signed-in user nothing is marked applied or joined. */
  lemma AnonymousSeesNothingApplied(p: RawProject)
    ensures !Normalise(p, None).alreadyApplied && !Normalise(p, None).alreadyJoined
  {
  }

  // ---------------------------------------------------------------- filter

  datatype CatalogueFilter = CatalogueFilter(status: string, themes: seq<string>, format: string, location: string, search: string)

  const DefaultFilter := CatalogueFilter("all", [], "", "", "")
  const PerPage: nat := 6

  predicate SharesTheme(themes: seq<string>, tags: seq<string>) {
    exists i :: 0 <= i < |themes| && themes[i] in tags
  }

  /** The callback of `filteredProjects`. */
  predicate Kept(p: Card, f: CatalogueFilter) {
    (f.search == "" || Contains(Lower(p.title), Lower(f.search)) || Contains(Lower(p.description), Lower(f.search))) &&
    (f.status == "all" || p.status == f.status) &&
    (f.themes == [] || SharesTheme(f.themes, p.tags)) &&
    (f.format == "" || p.format == f.format) &&
    (f.location == "" || Contains(Lower(p.location), Lower(f.location)))
  }

  function KeptBy(f: CatalogueFilter): Card -> bool {
    (p: Card) => Kept(p, f)
  }

  function Filtered(projects: seq<Card>, f: CatalogueFilter): (r: seq<Card>)
    ensures forall p :: p in r <==> p in projects && Kept(p, f)
  {
    Filter(projects, KeptBy(f))
  }

  /** The default filter (what `resetFilters` restores) shows every project. */
  lemma DefaultFilterShowsAll(projects: seq<Card>)
    ensures Filtered(projects, DefaultFilter) == projects
  {
    forall i | 0 <= i < |projects| ensures KeptBy(DefaultFilter)(projects[i]) {
    }
    FilterAll(projects, KeptBy(DefaultFilter));
  }

  /** A theme filter keeps exactly the projects tagged with one of the
      selected themes. */
  lemma ThemeFilter(projects: seq<Card>, theme: string, p: Card)
    requires p in projects
    ensures p in Filtered(projects, CatalogueFilter("all", [theme], "", "", "")) <==> theme in p.tags
  {
    assert SharesTheme([theme], p.tags) <==> theme in p.tags by {
      if theme in p.tags {
        assert [theme][0] in p.tags;
      }
    }
  }

  /** `currentProjects`: page `p` of the filtered list, six at most. */
  function CurrentProjects(filtered: seq<Card>, p: int): (r: seq<Card>)
    ensures |r| <= PerPage
    ensures p >= 1 && (p - 1) * PerPage < |filtered| ==> r != []
    ensures p >= 1 ==>
      var lo := if (p - 1) * PerPage <= |filtered| then (p - 1) * PerPage else |filtered|;
      var hi := if p * PerPage <= |filtered| then p * PerPage else |filtered|;
      r == filtered[lo..hi]
  {
    var r := Page(filtered, p, PerPage);
    if p >= 1 then
      assert r == Slice(filtered, (p - 1) * PerPage, p * PerPage);
      assert (p - 1) * PerPage >= 0 && p * PerPage == (p - 1) * PerPage + PerPage;
      r
    else r
  }

  // ---------------------------------------------------------------- join button

  datatype JoinButton = JoinButton(text: string, disabled: bool)

  /** `renderJoinButton`: only a signed-in student sees it; it is disabled
      once the student has applied or joined, and says so, "Joined" first. */
  function RenderJoinButton(user: Option<Viewer>, p: Card): (b: Option<JoinButton>)
    ensures b.Some? <==> user.Some? && user.value.id != 0 && user.value.role == "student"
    ensures b.Some? ==> (b.value.disabled <==> AppliedBy(p.applications, user.value.id) || user.value.id in p.joinedUsers)
    ensures b.Some? ==>
      (b.value.text ==
        if user.value.id in p.joinedUsers then "Joined"
        else if AppliedBy(p.applications, user.value.id) then "Already applied" else "Join")
  {
    if user.None? || user.value.id == 0 || user.value.role != "student" then None
    else
      var applied := AppliedBy(p.applications, user.value.id);
      var joined := user.value.id in p.joinedUsers;
      Some(JoinButton(if joined then "Joined" else if applied then "Already applied" else "Join", applied || joined))
  }

  /** The button can be pressed only while it reads "Join". */
  lemma EnabledOnlyWhenJoin(user: Option<Viewer>, p: Card)
    requires RenderJoinButton(user, p).Some?
    ensures !RenderJoinButton(user, p).value.disabled <==> RenderJoinButton(user, p).value.text == "Join"
  {
  }

  // ---------------------------------------------------------------- handlers

  /** The HTTP request a handler sends. */
  datatype Request = Request(verb: string, path: string)

  /** `handleApplication`'s request: PATCH, although the backend serves
      these two paths with POST only. */
  function DecisionRequest(applicationId: string, approve: bool): (r: Request)
    ensures r.verb == "PATCH"
    ensures r.path == ApplicationsApi.DecisionPath(applicationId, approve)
  {
    Request("PATCH", "/applications/" + applicationId + (if approve then "/approve" else "/reject"))
  }

  /** Against the backend's application routes the decision request is
      always refused with 405, so with the backend as written a decision
      made on this page never succeeds. */
  lemma DecisionRequestRefused(applicationId: string, approve: bool)
    requires applicationId != "" && '/' !in applicationId
    ensures var r := DecisionRequest(applicationId, approve);
      Routing.Dispatch(ApplicationsApi.Routes, r.verb, r.path) == Routing.MethodNotAllowed
  {
    ApplicationsApi.DecisionServedByPostOnly(applicationId, approve, "PATCH");
  }

  /** One card after a successful decision: its applications with that id
      take the new status, and an approved applicant joins the card's users
      once. A card without that application is unchanged. */
  function Decided(p: Card, applicationId: string, status: string): (c: Card)
    ensures !(exists i :: 0 <= i < |p.applications| && p.applications[i].id == applicationId) ==> c == p
    ensures |c.applications| == |p.applications|
    ensures forall i :: 0 <= i < |p.applications| ==>
      c.applications[i] == (if p.applications[i].id == applicationId then p.applications[i].(status := status)
                            else p.applications[i])
    ensures NoDuplicates(c.joinedUsers) || c.joinedUsers == p.joinedUsers
    ensures forall u :: u in p.joinedUsers ==> u in c.joinedUsers
    ensures forall u :: u in c.joinedUsers && u !in p.joinedUsers ==>
      status == "approved" && u != 0 && exists i :: 0 <= i < |p.applications| && p.applications[i].id == applicationId && p.applications[i].applicantId == u
    ensures c.(applications := p.applications, joinedUsers := p.joinedUsers) == p
  {
    var hit := FirstIndex(p.applications, (a: CardApplication) => a.id == applicationId);
    if hit.None? then p
    else
      var apps := Map(p.applications, (a: CardApplication) => if a.id == applicationId then a.(status := status) else a);
      var applicantId := apps[hit.value].applicantId;
      var joined := if status == "approved" && applicantId != 0 then Distinct(p.joinedUsers + [applicantId]) else p.joinedUsers;
      p.(applications := apps, joinedUsers := joined)
  }

  /** An approval adds the applicant, and nobody else, without duplicates. */
  lemma ApprovalAddsApplicant(p: Card, applicationId: string, i: nat)
    requires i < |p.applications| && p.applications[i].id == applicationId
    requires forall j :: 0 <= j < i ==> p.applications[j].id != applicationId
    requires p.applications[i].applicantId != 0
    ensures var c := Decided(p, applicationId, "approved");
      NoDuplicates(c.joinedUsers) && (forall u :: u in c.joinedUsers <==> u in p.joinedUsers || u == p.applications[i].applicantId)
  {
  }

  /** A rejection never changes who has joined. */
  lemma RejectionKeepsJoined(p: Card, applicationId: string)
    ensures Decided(p, applicationId, "rejected").joinedUsers == p.joinedUsers
  {
  }

  /** The delete button: shown to signed-in admins and mentors, compared
      after lower-casing only. */
  predicate ShowsDelete(user: Option<Viewer>) {
    user.Some? && user.value.role != "" && Lower(user.value.role) in ["admin", "mentor"]
  }

  /** The backend also lets a project's creator delete it, but the page does
      not offer the button to a creator who is a student. */
  lemma CreatorWithoutDeleteButton(p: Card, u: Store.User)
    requires u.role == "student" && p.authorId == u.id
    ensures ProjectsApi.DeleteAllowed(p.authorId, u)
    ensures !ShowsDelete(Some(Viewer(u.id, u.name, u.email, u.role)))
  {
    assert Lower("student") == "student";
  }

  /** The path the delete button sends its DELETE to. */
  function DeletePath(projectId: int): string {
    "/projects/" + Decimal(projectId)
  }

  /** The delete button's request reaches `delete_project`, for every id. */
  lemma DeleteRequestReachesRoute(projectId: int)
    ensures Routing.Dispatch(ProjectsApi.Routes, "DELETE", DeletePath(projectId)) == Routing.Handled("delete_project")
  {
    var x := Decimal(projectId);
    DecimalIsPiece(projectId);
    ProjectsApi.PiecesUnderPrefix(x);
    assert Split(x, '/') == [x];
    Routing.FirstServes(ProjectsApi.Routes, "DELETE", DeletePath(projectId), 4);
  }

  /** The page's state. */
  class State {
    var projects: seq<Card>
    var filter: CatalogueFilter
    var currentPage: int

    constructor (projects: seq<Card>)
      ensures this.projects == projects && filter == DefaultFilter && currentPage == 1
    {
      this.projects := projects;
      filter := DefaultFilter;
      currentPage := 1;
    }

    /** `resetFilters`. */
    method ResetFilters()
      modifies this`filter, this`currentPage
      ensures filter == DefaultFilter && currentPage == 1
    {
      filter := DefaultFilter;
      currentPage := 1;
    }

    /** `handleJoin`: without a signed-in user and a token, or when the
        project is marked applied, nothing is sent. Otherwise an application
        to `project_id ?? id` is sent; on success the returned application
        is appended to that project's card, which is marked applied. */
    method HandleJoin(project: Card, user: Option<Viewer>, token: Option<string>, response: Option<CardApplication>)
      returns (target: Option<int>)
      modifies this`projects
      ensures target.Some? <==> user.Some? && user.value.id != 0 && TruthyStr(token) && !project.alreadyApplied
      ensures target.Some? ==> target.value == project.projectId.GetOr(project.id)
      ensures target.None? || response.None? ==> projects == old(projects)
      ensures target.Some? && response.Some? ==>
        |projects| == |old(projects)| &&
        forall i :: 0 <= i < |projects| ==>
          projects[i] == (if old(projects)[i].id == project.id
                          then old(projects)[i].(applications := old(projects)[i].applications + [response.value], alreadyApplied := true)
                          else old(projects)[i])
    {
      if user.None? || user.value.id == 0 || !TruthyStr(token) {
        return None;
      }
      if project.alreadyApplied {
        return None;
      }
      target := Some(project.projectId.GetOr(project.id));
      if response.Some? {
        projects := Map(projects, (p: Card) =>
          if p.id == project.id then p.(applications := p.applications + [response.value], alreadyApplied := true) else p);
      }
    }

    /** `handleApplication`: on success every card is updated by `Decided`;
        on failure nothing changes. */
    method HandleApplication(applicationId: string, approve: bool, succeeds: bool) returns (request: Request)
      modifies this`projects
      ensures request == DecisionRequest(applicationId, approve)
      ensures !succeeds ==> projects == old(projects)
      ensures succeeds ==> projects == Map(old(projects), (p: Card) => Decided(p, applicationId, if approve then "approved" else "rejected"))
    {
      request := DecisionRequest(applicationId, approve);
      if succeeds {
        var status := if approve then "approved" else "rejected";
        projects := Map(projects, (p: Card) => Decided(p, applicationId, status));
      }
    }

    /** `handleAddProject`: a title or description that is blank after
        trimming, a missing token or a missing user sends nothing; otherwise
        the body of `ProjectBodyOf` is posted, and a created project is put
        first. */
    method HandleAddProject(title: string, description: string, token: Option<string>, user: Option<Viewer>,
                            roles: seq<string>, prize: string, deadline: string, maxParticipants: string,
                            isoOf: string -> string, createdId: Option<int>)
      returns (sent: Option<ProjectBody>)
      modifies this`projects
      ensures sent.Some? <==> Strip(title) != "" && Strip(description) != "" && TruthyStr(token) && user.Some?
      ensures sent.Some? ==>
        sent.value == ProjectBodyOf(title, description, roles, user.value, prize, deadline, maxParticipants, isoOf)
      ensures sent.Some? && createdId.Some? ==>
        projects == [NewCard(createdId.value, title, description, user.value)] + old(projects)
      ensures sent.None? || createdId.None? ==> projects == old(projects)
    {
      if Strip(title) == "" || Strip(description) == "" {
        return None;
      }
      if !TruthyStr(token) || user.None? {
        return None;
      }
      sent := Some(ProjectBodyOf(title, description, roles, user.value, prize, deadline, maxParticipants, isoOf));
      if createdId.Some? {
        projects := [NewCard(createdId.value, title, description, user.value)] + projects;
      }
    }

    /** The delete button's handler: offered to admins and mentors only;
        once the dialog is confirmed the DELETE is sent to the project's
        path, and on success every card with that id leaves the list. */
    method DeleteProject(user: Option<Viewer>, card: Card, confirmed: bool, succeeds: bool)
      returns (request: Option<string>)
      modifies this`projects
      ensures request.Some? <==> ShowsDelete(user) && confirmed
      ensures request.Some? ==> request.value == DeletePath(card.id)
      ensures request.Some? && succeeds ==> projects == Filter(old(projects), (p: Card) => p.id != card.id)
      ensures request.None? || !succeeds ==> projects == old(projects)
    {
      if !ShowsDelete(user) || !confirmed {
        return None;
      }
      request := Some(DeletePath(card.id));
      if succeeds {
        projects := Filter(projects, (p: Card) => p.id != card.id);
      }
    }
  }

  /** A text field that is sent only when filled in. */
  function IfFilled(s: string): (r: Option<string>)
    ensures r.Some? <==> s != ""
    ensures r.Some? ==> r.value == s
  {
    if s == "" then None else Some(s)
  }

  /** A number field that is sent only when filled in, as `parseInt` of its
      text; a text that is not a number is NaN, which is sent as null
      (`Some(None)`). */
  function IfFilledNumber(s: string): (r: Option<Option<int>>)
    ensures r.Some? <==> s != ""
    ensures r.Some? ==> r.value == ParseInt(s)
  {
    if s == "" then None else Some(ParseInt(s))
  }

  /** The body `handleAddProject` posts. */
  datatype ProjectBody = ProjectBody(
    title: string, description: string, techStack: seq<string>, authorEmail: string,
    prize: Option<string>, deadline: Option<string>, maxParticipants: Option<Option<int>>)

  /** The project body: title and description as typed, the required roles'
      names as the technologies, the signed-in user's email, and the three
      optional fields only when filled in. `isoOf` is `new Date(text)
      .toISOString()`, which reads the text as a local time of the browser's
      time zone; the deadline is the last second of its day. */
  function ProjectBodyOf(title: string, description: string, roles: seq<string>, user: Viewer,
                         prize: string, deadline: string, maxParticipants: string, isoOf: string -> string)
    : (b: ProjectBody)
    ensures b.title == title && b.description == description
    ensures b.techStack == roles && b.authorEmail == user.email
    ensures b.prize == IfFilled(prize)
    ensures b.deadline.Some? <==> deadline != ""
    ensures b.deadline.Some? ==> b.deadline.value == isoOf(deadline + "T23:59:59")
    ensures b.maxParticipants.Some? <==> maxParticipants != ""
    ensures b.maxParticipants.Some? ==> b.maxParticipants.value == ParseInt(maxParticipants)
  {
    ProjectBody(title, description, roles, user.email, IfFilled(prize),
                if deadline == "" then None else Some(isoOf(deadline + "T23:59:59")),
                IfFilledNumber(maxParticipants))
  }

  /** A participant limit typed as a whole number is sent as that number. */
  lemma TypedLimitIsSent(title: string, description: string, roles: seq<string>, user: Viewer,
                         prize: string, deadline: string, n: int, isoOf: string -> string)
    ensures ProjectBodyOf(title, description, roles, user, prize, deadline, Decimal(n), isoOf).maxParticipants
         == Some(Some(n))
  {
    ParseIntOfDecimal(n, "");
    assert Decimal(n) + "" == Decimal(n);
  }

  /** The card the page shows for a project it has just created. */
  function NewCard(id: int, title: string, description: string, user: Viewer): (c: Card)
    ensures c.id == id && c.title == title && c.description == description && c.authorId == user.id
    ensures c.tags == ["General"] && c.status == "upcoming" && c.format == "online" && c.location == "TBA"
    ensures c.joinedUsers == [] && c.applications == [] && !c.alreadyApplied && !c.alreadyJoined
  {
    Card(id, title, description, ["General"], "upcoming", "online", "TBA", [], [], None, user.id, false, false)
  }
}
