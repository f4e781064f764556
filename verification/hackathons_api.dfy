/** api/v1/hackathons.py: creating, reading, joining and deleting
    hackathons. */
module HackathonsApi {
  import opened Common
  import opened Lists
  import opened Store
  import Deps
  import ProjectsApi
  import ApplicationService
  import opened Strings
  import Routing

  const NotFoundError := HttpError(404, "Hackathon not found")
  const AlreadyExistsError := HttpError(400, "Application already exists")

  /** The `HackathonCreate` body. */
  datatype HackathonCreate = HackathonCreate(
    title: string, description: string, startAt: int, endAt: int,
    prize: Option<string>, maxParticipants: Option<int>)

  /** `create_hackathon`: admins and mentors only; the hackathon holds the
      submitted fields and the caller as creator. */
  method CreateHackathon(db: Db, data: HackathonCreate, caller: User) returns (r: Result<Hackathon>)
    requires db.Valid()
    modifies db`hackathons, db`nextId
    ensures db.Valid()
    ensures r.Ok? <==> caller.role == "admin" || caller.role == "mentor"
    ensures r.Err? ==> r.error == Deps.CreationDeniedError && unchanged(db)
    ensures r.Ok? ==>
      r.value == Hackathon(old(db.nextId), data.title, Some(data.description), data.startAt, data.endAt,
                           data.prize, data.maxParticipants, caller.id) &&
      db.hackathons == old(db.hackathons) + [r.value]
  {
    var gate := Deps.RequireProjectCreationPermission(caller);
    if gate.Err? {
      return Err(gate.error);
    }
    var h := db.AddHackathon(Hackathon(0, data.title, Some(data.description), data.startAt, data.endAt,
                                       data.prize, data.maxParticipants, caller.id));
    r := Ok(h);
  }

  /** `get_hackathon`. */
  function GetHackathon(hackathons: seq<Hackathon>, id: int): (r: Result<Hackathon>)
    ensures r.Err? <==> forall i :: 0 <= i < |hackathons| ==> hackathons[i].id != id
    ensures r.Err? ==> r.error == NotFoundError
    ensures r.Ok? ==> r.value in hackathons && r.value.id == id
  {
    match HackathonAt(hackathons, id)
    case None => Err(NotFoundError)
    case Some(i) => Ok(hackathons[i])
  }

  function RunningAt(now: int): Hackathon -> bool {
    (h: Hackathon) => h.startAt <= now <= h.endAt
  }

  /** `list_active_hackathons`: the hackathons running at `now`, both ends
      included. */
  function ListActive(hackathons: seq<Hackathon>, now: int): (r: seq<Hackathon>)
    ensures forall h :: h in r <==> h in hackathons && h.startAt <= now && now <= h.endAt
    ensures |r| <= |hackathons|
  {
    Filter(hackathons, RunningAt(now))
  }

  function ApplicationTo(hackathonId: int, userId: int): Application -> bool {
    (a: Application) => a.kind == "hackathon" && a.targetId == hackathonId && a.applicantId == userId
  }

  /** The checks of `join_hackathon`: 404 for an unknown hackathon, then 400
      when the caller has any application to it, whatever its status. */
  function JoinError(hackathons: seq<Hackathon>, apps: seq<Application>, hackathonId: int, userId: int)
    : (e: Option<HttpError>)
    ensures e.None? <==> ((exists i :: 0 <= i < |hackathons| && hackathons[i].id == hackathonId) &&
                          forall i :: 0 <= i < |apps| ==> !ApplicationTo(hackathonId, userId)(apps[i]))
    ensures HackathonAt(hackathons, hackathonId).None? ==> e == Some(NotFoundError)
  {
    if HackathonAt(hackathons, hackathonId).None? then Some(NotFoundError)
    else if FirstIndex(apps, ApplicationTo(hackathonId, userId)).Some? then Some(AlreadyExistsError)
    else None
  }

  datatype JoinResult = JoinResult(id: nat, status: string, message: string)

  /** `join_hackathon`: after the checks, exactly one pending "hackathon"
      application without a message. */
  method JoinHackathon(db: Db, hackathonId: int, callerId: int, now: int) returns (r: Result<JoinResult>)
    requires db.Valid()
    modifies db`applications, db`nextId
    ensures db.Valid()
    ensures var e := JoinError(old(db.hackathons), old(db.applications), hackathonId, callerId);
      (e.Some? ==> r == Err(e.value) && unchanged(db)) &&
      (e.None? ==>
        r == Ok(JoinResult(old(db.nextId), "pending", "Application submitted successfully")) &&
        db.applications == old(db.applications) +
          [Application(old(db.nextId), "hackathon", hackathonId, callerId, None, "pending", now)] &&
        db.nextId == old(db.nextId) + 1)
  {
    var e := JoinError(db.hackathons, db.applications, hackathonId, callerId);
    if e.Some? {
      return Err(e.value);
    }
    var a := db.AddApplication(Application(0, "hackathon", hackathonId, callerId, None, "pending", now));
    r := Ok(JoinResult(a.id, "pending", "Application submitted successfully"));
  }

  /** An application the join route accepts is never a pending duplicate
      for the application service. */
  lemma {:induction false} JoinImpliesNoPendingDuplicate(hackathons: seq<Hackathon>, apps: seq<Application>,
                                                         hackathonId: int, userId: int)
    requires JoinError(hackathons, apps, hackathonId, userId).None?
    ensures !ApplicationService.PendingDuplicate(apps, "hackathon", hackathonId, userId)
  {
    forall i | 0 <= i < |apps|
      ensures !ApplicationService.PendingSameTarget("hackathon", hackathonId, userId)(apps[i])
    {
      assert !ApplicationTo(hackathonId, userId)(apps[i]);
      assert ApplicationService.SameTarget("hackathon", hackathonId, userId)(apps[i])
          == ApplicationTo(hackathonId, userId)(apps[i]);
    }
  }

  /** The converse fails: an approved or rejected application blocks a join,
      though the application service would accept the same application. */
  lemma {:induction false} DecidedApplicationBlocksOnlyJoin(hackathons: seq<Hackathon>, apps: seq<Application>,
                                                            hackathonId: int, userId: int)
    requires exists i :: 0 <= i < |apps| && ApplicationTo(hackathonId, userId)(apps[i])
    requires forall i :: 0 <= i < |apps| && ApplicationTo(hackathonId, userId)(apps[i]) ==> apps[i].status != "pending"
    ensures JoinError(hackathons, apps, hackathonId, userId).Some?
    ensures !ApplicationService.PendingDuplicate(apps, "hackathon", hackathonId, userId)
  {
    forall i | 0 <= i < |apps|
      ensures !ApplicationService.PendingSameTarget("hackathon", hackathonId, userId)(apps[i])
    {
      assert ApplicationService.SameTarget("hackathon", hackathonId, userId)(apps[i])
          == ApplicationTo(hackathonId, userId)(apps[i]);
      if ApplicationTo(hackathonId, userId)(apps[i]) {
        assert apps[i].status != "pending";
      }
    }
  }

  function Detached(hackathonId: int, p: Project): Project {
    if p.hackathonId == Some(hackathonId) then p.(hackathonId := None) else p
  }

  /** The projects after a hackathon is deleted: a project that pointed at
      it no longer points anywhere (`ON DELETE SET NULL`). */
  function DetachProjects(projects: seq<Project>, hackathonId: int): (r: seq<Project>)
    ensures |r| == |projects|
    ensures forall i :: 0 <= i < |r| ==> r[i].id == projects[i].id && r[i].hackathonId != Some(hackathonId)
    ensures forall i :: 0 <= i < |r| ==>
      r[i] == (if projects[i].hackathonId == Some(hackathonId) then projects[i].(hackathonId := None) else projects[i])
  {
    seq(|projects|, i requires 0 <= i < |projects| => Detached(hackathonId, projects[i]))
  }

  function NotHackathon(hackathonId: int): Hackathon -> bool {
    (h: Hackathon) => h.id != hackathonId
  }

  function NotParticipantOf(hackathonId: int): Participant -> bool {
    (p: Participant) => p.hackathonId != hackathonId
  }

  /** `delete_hackathon`: 404 for an unknown hackathon, 403 unless the caller
      may delete it (the same rule as for projects); otherwise the hackathon
      goes, its participants go with it (`ON DELETE CASCADE`), and projects
      that belonged to it are detached. */
  method DeleteHackathon(db: Db, hackathonId: int, caller: User) returns (r: Option<HttpError>)
    requires db.Valid()
    modifies db`hackathons, db`participants, db`projects
    ensures db.Valid()
    ensures HackathonAt(old(db.hackathons), hackathonId).None? ==> r == Some(NotFoundError) && unchanged(db)
    ensures HackathonAt(old(db.hackathons), hackathonId).Some? ==>
      var h := old(db.hackathons)[HackathonAt(old(db.hackathons), hackathonId).value];
      (!ProjectsApi.DeleteAllowed(h.createdBy, caller) ==>
        r == Some(ProjectsApi.DeleteDeniedError(caller.role)) && unchanged(db)) &&
      (ProjectsApi.DeleteAllowed(h.createdBy, caller) ==>
        r.None? &&
        db.hackathons == Filter(old(db.hackathons), NotHackathon(hackathonId)) &&
        db.participants == Filter(old(db.participants), NotParticipantOf(hackathonId)) &&
        db.projects == DetachProjects(old(db.projects), hackathonId))
  {
    var k := HackathonAt(db.hackathons, hackathonId);
    if k.None? {
      return Some(NotFoundError);
    }
    var h := db.hackathons[k.value];
    if !ProjectsApi.DeleteAllowed(h.createdBy, caller) {
      return Some(ProjectsApi.DeleteDeniedError(caller.role));
    }
    db.DeleteHackathons(NotHackathon(hackathonId));
    db.DeleteParticipants(NotParticipantOf(hackathonId));
    DetachFrom(db, hackathonId);
    r := None;
  }

  /** `ON DELETE SET NULL` on the projects' hackathon reference. */
  method DetachFrom(db: Db, hackathonId: int)
    requires db.Valid()
    modifies db`projects
    ensures db.Valid() && db.projects == DetachProjects(old(db.projects), hackathonId)
  {
    var detached := DetachProjects(db.projects, hackathonId);
    assert forall i :: 0 <= i < |detached| ==> ProjectId(detached[i]) == ProjectId(db.projects[i]);
    IdsBelowSameIds(db.projects, detached, ProjectId, db.nextId);
    db.SetProjects(detached);
  }

  // ---------------------------------------------------------------- routes

  /** The routes of this router, in the order they are declared. */
  const Routes := [
    Routing.Route("POST", [Routing.Lit(""), Routing.Lit("hackathons")], "create_hackathon"),
    Routing.Route("GET", [Routing.Lit(""), Routing.Lit("hackathons")], "list_hackathons"),
    Routing.Route("GET", [Routing.Lit(""), Routing.Lit("hackathons"), Routing.Param], "get_hackathon"),
    Routing.Route("GET", [Routing.Lit(""), Routing.Lit("hackathons"), Routing.Lit("active")], "list_active_hackathons"),
    Routing.Route("POST", [Routing.Lit(""), Routing.Lit("hackathons"), Routing.Param, Routing.Lit("join")],
                  "join_hackathon"),
    Routing.Route("DELETE", [Routing.Lit(""), Routing.Lit("hackathons"), Routing.Param], "delete_hackathon")]

  /** A path under this router splits into the empty piece, the prefix and
      the pieces of the rest. */
  lemma PiecesUnderPrefix(rest: string)
    ensures Split("/hackathons/" + rest, '/') == ["", "hackathons"] + Split(rest, '/')
  {
    var prefix := "hackathons";
    assert '/' !in prefix;
    assert "/hackathons/" + rest == "/" + prefix + "/" + rest;
    Routing.PrefixPieces(prefix, rest);
  }

  /** Every GET of `/hackathons/<x>` goes to `get_hackathon`, `x` = "active"
      included: the `/active` route, declared after it, is never reached. */
  lemma {:induction false} GetOnePieceIsGetHackathon(x: string)
    requires x != "" && '/' !in x
    ensures Routing.Dispatch(Routes, "GET", "/hackathons/" + x) == Routing.Handled("get_hackathon")
  {
    PiecesUnderPrefix(x);
    assert Split(x, '/') == [x];
    Routing.FirstServes(Routes, "GET", "/hackathons/" + x, 2);
  }

  /** A POST to `/hackathons/<x>` has no route: the path exists under GET and
      DELETE only, so it is 405, `x` = "join" included. */
  lemma {:induction false} PostOnePieceNotAllowed(x: string)
    requires x != "" && '/' !in x
    ensures Routing.Dispatch(Routes, "POST", "/hackathons/" + x) == Routing.MethodNotAllowed
  {
    PiecesUnderPrefix(x);
    assert Split(x, '/') == [x];
    Routing.WrongVerb(Routes, "POST", "/hackathons/" + x, 2);
  }

  /** `/hackathons/<h>/applications/<u>` has at least five pieces. */
  lemma {:induction false} ParticipantDecisionPieces(h: string, u: string)
    requires '/' !in h
    ensures |Split("/hackathons/" + h + "/applications/" + u, '/')| >= 5
  {
    var rest := h + "/" + ("applications" + "/" + u);
    assert "/hackathons/" + h + "/applications/" + u == "/hackathons/" + rest;
    PiecesUnderPrefix(rest);
    Routing.SplitFirst(h, "applications" + "/" + u);
    Routing.SplitFirst("applications", u);
  }

  /** No route of this router has five or more pieces, so any path
      `/hackathons/<h>/applications/<u>` is 404 under every verb. */
  lemma {:induction false} DecisionOnParticipantNotFound(h: string, u: string, verb: string)
    requires '/' !in h
    ensures Routing.Dispatch(Routes, verb, "/hackathons/" + h + "/applications/" + u) == Routing.NotFound
  {
    ParticipantDecisionPieces(h, u);
    assert forall i :: 0 <= i < |Routes| ==> |Routes[i].template| <= 4;
  }
}
