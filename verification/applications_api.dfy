/** api/v1/applications.py: the application routes. They authorise the
    caller and hand the work to the application service; the lookups that
    attach the applicant, project and hackathon summaries to each response
    are not modelled, so those nested fields stay None. */
module ApplicationsApi {
  import opened Common
  import opened Lists
  import opened Store
  import opened ApplicationSchema
  import ApplicationService
  import opened Strings
  import Routing

  const ProjectNotFoundError := HttpError(404, "Project not found")
  const HackathonNotFoundError := HttpError(404, "Hackathon not found")
  const NotAuthorizedError := HttpError(403, "Not authorized")
  const InvalidParametersError := HttpError(400, "Invalid parameters")

  /** `create_application`: every authenticated caller may apply, whatever
      their role; the service decides. */
  method CreateApplication(db: Db, data: ApplicationCreate, caller: User, now: int)
    returns (r: Result<ApplicationResponse>)
    requires db.Valid()
    modifies db`applications, db`nextId
    ensures db.Valid()
    ensures var e := ApplicationService.CreateError(old(db.applications), db.projects, db.hackathons,
                                                    db.memberships, db.participants,
                                                    data.kind, data.targetId, caller.id);
      (r.Err? <==> e.Some?) && (r.Err? ==> r.error == e.value)
    ensures r.Err? ==> unchanged(db)
    ensures r.Ok? ==>
      StoredOf(r.value) == Application(old(db.nextId), data.kind, data.targetId, caller.id, data.message,
                                       "pending", now) &&
      db.applications == old(db.applications) + [StoredOf(r.value)]
  {
    var created := ApplicationService.Create(db, data, caller.id, now);
    match created
    case Err(e) => r := Err(e);
    case Ok(a) =>
      ResponseRoundTrip(a);
      r := Ok(ResponseOf(a));
  }

  /** The parameter dispatch of `list_applications`. With neither a truthy
      type nor a truthy target id the caller's own applications are listed;
      with type "project" or "hackathon" and a truthy target id, the
      applications to that target, for its creator only; anything else is
      400. */
  function Selection(apps: seq<Application>, projects: seq<Project>, hackathons: seq<Hackathon>,
                     kind: Option<string>, targetId: Option<int>, callerId: int): (r: Result<seq<Application>>)
    ensures !TruthyStr(kind) && !TruthyInt(targetId) ==> r == Ok(ApplicationService.ListByUser(apps, callerId))
    ensures kind == Some("project") && TruthyInt(targetId) ==>
      (ProjectAt(projects, targetId.value).None? ==> r == Err(ProjectNotFoundError))
    ensures kind == Some("hackathon") && TruthyInt(targetId) ==>
      (HackathonAt(hackathons, targetId.value).None? ==> r == Err(HackathonNotFoundError))
    ensures ((TruthyStr(kind) || TruthyInt(targetId)) &&
             !(kind == Some("project") && TruthyInt(targetId)) &&
             !(kind == Some("hackathon") && TruthyInt(targetId))) ==> r == Err(InvalidParametersError)
    ensures (kind == Some("project") || kind == Some("hackathon")) && TruthyInt(targetId) ==>
      var creator := ApplicationService.TargetCreator(projects, hackathons, kind.value, targetId.value);
      (creator == Some(callerId) ==> r == Ok(ApplicationService.ListByTarget(apps, kind.value, targetId.value))) &&
      (creator.Some? && creator != Some(callerId) ==> r == Err(NotAuthorizedError))
    ensures r.Ok? ==> forall a :: a in r.value ==> (a in apps &&
      (a.applicantId == callerId ||
       ApplicationService.TargetCreator(projects, hackathons, a.kind, a.targetId) == Some(callerId)))
  {
    if !TruthyStr(kind) && !TruthyInt(targetId) then
      Ok(ApplicationService.ListByUser(apps, callerId))
    else if kind == Some("project") && TruthyInt(targetId) then
      match ProjectAt(projects, targetId.value)
      case None => Err(ProjectNotFoundError)
      case Some(i) =>
        if projects[i].createdBy != callerId then Err(NotAuthorizedError)
        else Ok(ApplicationService.ListByTarget(apps, "project", targetId.value))
    else if kind == Some("hackathon") && TruthyInt(targetId) then
      match HackathonAt(hackathons, targetId.value)
      case None => Err(HackathonNotFoundError)
      case Some(i) =>
        if hackathons[i].createdBy != callerId then Err(NotAuthorizedError)
        else Ok(ApplicationService.ListByTarget(apps, "hackathon", targetId.value))
    else Err(InvalidParametersError)
  }

  /** The creator of a project or a hackathon is allowed to list its
      applications and sees exactly the applications of that type to it,
      whether or not they also applied to something else. */
  lemma CreatorSeesAllApplications(apps: seq<Application>, projects: seq<Project>, hackathons: seq<Hackathon>,
                                   kind: string, targetId: int, callerId: int)
    requires kind == "project" || kind == "hackathon"
    requires targetId != 0
    requires ApplicationService.TargetCreator(projects, hackathons, kind, targetId) == Some(callerId)
    ensures var s := Selection(apps, projects, hackathons, Some(kind), Some(targetId), callerId);
      s.Ok? && forall a :: a in s.value <==> a in apps && a.kind == kind && a.targetId == targetId
  {
  }

  /** `list_applications`: the selected applications, turned into response
      records one by one in the order the query returned them. */
  method ListApplications(db: Db, kind: Option<string>, targetId: Option<int>, callerId: int)
    returns (r: Result<seq<ApplicationResponse>>)
    ensures var s := Selection(db.applications, db.projects, db.hackathons, kind, targetId, callerId);
      (s.Err? ==> r == Err(s.error)) &&
      (s.Ok? ==> r.Ok? && |r.value| == |s.value| &&
                 forall i :: 0 <= i < |s.value| ==> StoredOf(r.value[i]) == s.value[i])
  {
    var s := Selection(db.applications, db.projects, db.hackathons, kind, targetId, callerId);
    if s.Err? {
      return Err(s.error);
    }
    var apps := s.value;
    var result: seq<ApplicationResponse> := [];
    var i := 0;
    while i < |apps|
      invariant 0 <= i <= |apps| && |result| == i
      invariant forall j :: 0 <= j < i ==> StoredOf(result[j]) == apps[j]
    {
      ResponseRoundTrip(apps[i]);
      result := result + [ResponseOf(apps[i])];
      i := i + 1;
    }
    r := Ok(result);
  }

  /** The checks `approve_application` and `reject_application` make before
      calling the service: 404 for an unknown application, and 403 unless
      the caller created the project or hackathon it targets (a missing
      target is 403 too). An application of any other type is not checked. */
  function DecisionGuard(apps: seq<Application>, projects: seq<Project>, hackathons: seq<Hackathon>,
                         applicationId: int, callerId: int): (e: Option<HttpError>)
    ensures ApplicationAt(apps, applicationId).None? ==> e == Some(ApplicationService.NotFoundError)
    ensures ApplicationAt(apps, applicationId).Some? ==>
      var a := apps[ApplicationAt(apps, applicationId).value];
      (e.None? <==> ((a.kind != "project" && a.kind != "hackathon") ||
                     ApplicationService.TargetCreator(projects, hackathons, a.kind, a.targetId) == Some(callerId))) &&
      (e.Some? ==> e.value == NotAuthorizedError)
  {
    match ApplicationAt(apps, applicationId)
    case None => Some(ApplicationService.NotFoundError)
    case Some(k) =>
      var a := apps[k];
      if a.kind == "project" then
        match ProjectAt(projects, a.targetId)
        case None => Some(NotAuthorizedError)
        case Some(i) => if projects[i].createdBy != callerId then Some(NotAuthorizedError) else None
      else if a.kind == "hackathon" then
        match HackathonAt(hackathons, a.targetId)
        case None => Some(NotAuthorizedError)
        case Some(i) => if hackathons[i].createdBy != callerId then Some(NotAuthorizedError) else None
      else None
  }

  /** `approve_application`: the guard, then the service's approval. */
  method ApproveApplication(db: Db, applicationId: int, callerId: int, now: int, hasBackgroundTasks: bool)
    returns (r: Result<ApplicationResponse>)
    requires db.Valid()
    modifies db`applications, db`memberships, db`participants, db`notifications, db`nextId
    ensures db.Valid()
    ensures var g := DecisionGuard(old(db.applications), old(db.projects), old(db.hackathons), applicationId, callerId);
      g.Some? ==> r == Err(g.value) && unchanged(db)
    ensures DecisionGuard(old(db.applications), old(db.projects), old(db.hackathons), applicationId, callerId).None? &&
            old(db.applications)[ApplicationAt(old(db.applications), applicationId).value].status != "pending" ==>
      r == Err(ApplicationService.ProcessedError)
    ensures r.Err? ==> unchanged(db)
    ensures r.Ok? <==>
      DecisionGuard(old(db.applications), old(db.projects), old(db.hackathons), applicationId, callerId).None? &&
      old(db.applications)[ApplicationAt(old(db.applications), applicationId).value].status == "pending"
    ensures r.Ok? ==>
      var k := ApplicationAt(old(db.applications), applicationId).value;
      var a := old(db.applications)[k];
      StoredOf(r.value) == a.(status := "approved") &&
      db.applications == old(db.applications)[k := StoredOf(r.value)] &&
      db.memberships == old(db.memberships) +
        (if a.kind == "project" then [ApplicationService.JoinedMembership(a, old(db.nextId))] else []) &&
      db.participants == old(db.participants) +
        (if a.kind == "hackathon" then [Participant(old(db.nextId), a.targetId, a.applicantId)] else []) &&
      db.notifications == old(db.notifications) +
        [Notification(old(db.nextId) + (if a.kind == "project" || a.kind == "hackathon" then 1 else 0),
                      a.applicantId, "application_status",
                      ApplicationService.ApprovalPayload(a), false, now)]
  {
    var g := DecisionGuard(db.applications, db.projects, db.hackathons, applicationId, callerId);
    if g.Some? {
      return Err(g.value);
    }
    var approved := ApplicationService.Approve(db, applicationId, now, hasBackgroundTasks);
    match approved
    case Err(e) => r := Err(e);
    case Ok(a) =>
      ResponseRoundTrip(a);
      r := Ok(ResponseOf(a));
  }

  /** `reject_application`: the guard, then the service's rejection. */
  method RejectApplication(db: Db, applicationId: int, callerId: int) returns (r: Result<ApplicationResponse>)
    requires db.Valid()
    modifies db`applications
    ensures db.Valid()
    ensures var g := DecisionGuard(old(db.applications), old(db.projects), old(db.hackathons), applicationId, callerId);
      g.Some? ==> r == Err(g.value) && unchanged(db)
    ensures DecisionGuard(old(db.applications), old(db.projects), old(db.hackathons), applicationId, callerId).None? &&
            old(db.applications)[ApplicationAt(old(db.applications), applicationId).value].status != "pending" ==>
      r == Err(ApplicationService.ProcessedError)
    ensures r.Err? ==> unchanged(db)
    ensures r.Ok? <==>
      DecisionGuard(old(db.applications), old(db.projects), old(db.hackathons), applicationId, callerId).None? &&
      old(db.applications)[ApplicationAt(old(db.applications), applicationId).value].status == "pending"
    ensures r.Ok? ==>
      var k := ApplicationAt(old(db.applications), applicationId).value;
      StoredOf(r.value) == old(db.applications)[k].(status := "rejected") &&
      db.applications == old(db.applications)[k := StoredOf(r.value)]
  {
    var g := DecisionGuard(db.applications, db.projects, db.hackathons, applicationId, callerId);
    if g.Some? {
      return Err(g.value);
    }
    var rejected := ApplicationService.Reject(db, applicationId);
    match rejected
    case Err(e) => r := Err(e);
    case Ok(a) =>
      ResponseRoundTrip(a);
      r := Ok(ResponseOf(a));
  }

  /** The routes of this router, in the order they are declared. */
  const Routes := [
    Routing.Route("POST", [Routing.Lit(""), Routing.Lit("applications")], "create_application"),
    Routing.Route("GET", [Routing.Lit(""), Routing.Lit("applications")], "list_applications"),
    Routing.Route("POST", [Routing.Lit(""), Routing.Lit("applications"), Routing.Param, Routing.Lit("approve")],
                  "approve_application"),
    Routing.Route("POST", [Routing.Lit(""), Routing.Lit("applications"), Routing.Param, Routing.Lit("reject")],
                  "reject_application")]

  /** The path of a decision on one application. */
  function DecisionPath(applicationId: string, approve: bool): string {
    "/applications/" + applicationId + (if approve then "/approve" else "/reject")
  }

  /** The pieces of a decision path. */
  lemma DecisionPathPieces(applicationId: string, approve: bool)
    requires '/' !in applicationId
    ensures Split(DecisionPath(applicationId, approve), '/') ==
      ["", "applications", applicationId, if approve then "approve" else "reject"]
  {
    var last := if approve then "approve" else "reject";
    assert DecisionPath(applicationId, approve) == "/" + "applications" + "/" + applicationId + "/" + last;
    Routing.ThreePieces("applications", applicationId, last);
  }

  /** A decision on an application is served under POST only: POST reaches
      `approve_application` or `reject_application`, and every other verb on
      that path is 405. */
  lemma {:induction false} DecisionServedByPostOnly(applicationId: string, approve: bool, verb: string)
    requires applicationId != "" && '/' !in applicationId
    ensures Routing.Dispatch(Routes, verb, DecisionPath(applicationId, approve)) ==
      if verb == "POST" then Routing.Handled(if approve then "approve_application" else "reject_application")
      else Routing.MethodNotAllowed
  {
    var path := DecisionPath(applicationId, approve);
    DecisionPathPieces(applicationId, approve);
    var k := if approve then 2 else 3;
    var pieces := Split(path, '/');
    assert |pieces| == 4 && pieces[3] == (if approve then "approve" else "reject");
    assert Routing.PathMatches(Routes[k], path);
    assert !Routing.PathMatches(Routes[0], path) && !Routing.PathMatches(Routes[1], path);
    assert Routes[5 - k].template[3] == Routing.Lit(if approve then "reject" else "approve");
    assert !Routing.PathMatches(Routes[5 - k], path);
    if verb == "POST" {
      Routing.FirstServes(Routes, verb, path, k);
    } else {
      Routing.WrongVerb(Routes, verb, path, k);
    }
  }

  /** Only the creator of a project can decide on an application to it. */
  lemma OnlyCreatorDecides(apps: seq<Application>, projects: seq<Project>, hackathons: seq<Hackathon>,
                           applicationId: int, callerId: int)
    requires ApplicationAt(apps, applicationId).Some?
    requires apps[ApplicationAt(apps, applicationId).value].kind == "project"
    requires forall i :: 0 <= i < |projects| ==> projects[i].createdBy != callerId
    ensures DecisionGuard(apps, projects, hackathons, applicationId, callerId) == Some(NotAuthorizedError)
  {
  }
}
