/** services/application_service.py: applying to a project or a hackathon,
    and the pending -> approved / pending -> rejected transitions. */
module ApplicationService {
  import opened Common
  import opened Lists
  import opened Store
  import opened ApplicationSchema
  import NotificationService

  // ---------------------------------------------------------------- queries

  /** `created_by` of the project (kind "project") or hackathon (kind
      "hackathon") an application points at, or None when there is no such
      row or the kind is neither. */
  function TargetCreator(projects: seq<Project>, hackathons: seq<Hackathon>, kind: string, targetId: int): (c: Option<int>)
    ensures kind == "project" ==>
      (c.Some? <==> exists i :: 0 <= i < |projects| && projects[i].id == targetId)
    ensures kind == "hackathon" ==>
      (c.Some? <==> exists i :: 0 <= i < |hackathons| && hackathons[i].id == targetId)
    ensures kind == "project" && c.Some? ==>
      exists i :: 0 <= i < |projects| && projects[i].id == targetId && projects[i].createdBy == c.value
    ensures kind == "hackathon" && c.Some? ==>
      exists i :: 0 <= i < |hackathons| && hackathons[i].id == targetId && hackathons[i].createdBy == c.value
    ensures kind != "project" && kind != "hackathon" ==> c.None?
  {
    if kind == "project" then
      match ProjectAt(projects, targetId)
      case Some(i) => Some(projects[i].createdBy)
      case None => None
    else if kind == "hackathon" then
      match HackathonAt(hackathons, targetId)
      case Some(i) => Some(hackathons[i].createdBy)
      case None => None
    else None
  }

  function SameTarget(kind: string, targetId: int, applicantId: int): Application -> bool {
    (a: Application) => a.kind == kind && a.targetId == targetId && a.applicantId == applicantId
  }

  function PendingSameTarget(kind: string, targetId: int, applicantId: int): Application -> bool {
    (a: Application) => SameTarget(kind, targetId, applicantId)(a) && a.status == "pending"
  }

  function PendingBy(applicantId: int): Application -> bool {
    (a: Application) => a.applicantId == applicantId && a.status == "pending"
  }

  /** The applicant already has a pending application to this very target. */
  predicate PendingDuplicate(apps: seq<Application>, kind: string, targetId: int, applicantId: int) {
    exists i :: 0 <= i < |apps| && PendingSameTarget(kind, targetId, applicantId)(apps[i])
  }

  /** The target exists, its creator id is truthy, and the applicant already
      has a pending application to some target of that same creator. */
  predicate CreatorConflict(apps: seq<Application>, projects: seq<Project>, hackathons: seq<Hackathon>,
                            kind: string, targetId: int, applicantId: int)
  {
    var c := TargetCreator(projects, hackathons, kind, targetId);
    c.Some? && c.value != 0 &&
    exists i :: 0 <= i < |apps| && PendingBy(applicantId)(apps[i]) &&
      TargetCreator(projects, hackathons, apps[i].kind, apps[i].targetId) == c
  }

  /** The applicant is already on the target: a membership of any status for
      a project, a participant row for a hackathon. */
  predicate AlreadyJoined(memberships: seq<Membership>, participants: seq<Participant>,
                          kind: string, targetId: int, applicantId: int)
  {
    (kind == "project" &&
      exists i :: 0 <= i < |memberships| && memberships[i].projectId == targetId && memberships[i].userId == applicantId) ||
    (kind == "hackathon" &&
      exists i :: 0 <= i < |participants| && participants[i].hackathonId == targetId && participants[i].userId == applicantId)
  }

  const AlreadyAppliedError := HttpError(400, "Already applied to this target")
  const OneActiveError := HttpError(400, "You already have an active application to a project/hackathon by this creator. Only one active application per client is allowed.")
  const AlreadyMemberError := HttpError(400, "Already a member of this project")
  const AlreadyParticipantError := HttpError(400, "Already a participant of this hackathon")
  const NotFoundError := HttpError(404, "Application not found")
  const ProcessedError := HttpError(400, "Application already processed")

  // ---------------------------------------------------------------- create

  /** The loop of `create` over the applicant's pending applications: reports
      whether one of them points at a target of the same creator as the new
      target. It is not run when the new target has no truthy creator. */
  method FindCreatorConflict(db: Db, kind: string, targetId: int, applicantId: int) returns (found: bool)
    ensures found == CreatorConflict(db.applications, db.projects, db.hackathons, kind, targetId, applicantId)
  {
    var targetCreator := TargetCreator(db.projects, db.hackathons, kind, targetId);
    if targetCreator.None? || targetCreator.value == 0 {
      return false;
    }
    var active := Filter(db.applications, PendingBy(applicantId));
    var i := 0;
    while i < |active|
      invariant 0 <= i <= |active|
      invariant forall j :: 0 <= j < i ==>
        TargetCreator(db.projects, db.hackathons, active[j].kind, active[j].targetId) != targetCreator
    {
      var appCreator := TargetCreator(db.projects, db.hackathons, active[i].kind, active[i].targetId);
      if appCreator == targetCreator {
        assert active[i] in db.applications;
        return true;
      }
      i := i + 1;
    }
    forall j | 0 <= j < |db.applications| && PendingBy(applicantId)(db.applications[j])
      ensures TargetCreator(db.projects, db.hackathons, db.applications[j].kind, db.applications[j].targetId) != targetCreator
    {
      assert db.applications[j] in active;
    }
    found := false;
  }

  /** The error `create` raises, in the order it checks: a pending duplicate,
      then another pending application to the same creator, then an
      applicant already on the target; None when the application is
      accepted. */
  function CreateError(apps: seq<Application>, projects: seq<Project>, hackathons: seq<Hackathon>,
                       memberships: seq<Membership>, participants: seq<Participant>,
                       kind: string, targetId: int, applicantId: int): (e: Option<HttpError>)
    ensures e.None? <==> !PendingDuplicate(apps, kind, targetId, applicantId) &&
                         !CreatorConflict(apps, projects, hackathons, kind, targetId, applicantId) &&
                         !AlreadyJoined(memberships, participants, kind, targetId, applicantId)
    ensures e.Some? ==> e.value.code == 400
  {
    if PendingDuplicate(apps, kind, targetId, applicantId) then Some(AlreadyAppliedError)
    else if CreatorConflict(apps, projects, hackathons, kind, targetId, applicantId) then Some(OneActiveError)
    else if AlreadyJoined(memberships, participants, kind, targetId, applicantId) then
      Some(if kind == "project" then AlreadyMemberError else AlreadyParticipantError)
    else None
  }

  /** `create`: refuses a pending duplicate, then a second pending application
      to the same creator, then an applicant who already belongs to the
      target; otherwise stores one pending application, whether or not the
      target exists. */
  method Create(db: Db, data: ApplicationCreate, applicantId: int, now: int) returns (r: Result<Application>)
    requires db.Valid()
    modifies db`applications, db`nextId
    ensures db.Valid()
    ensures var e := CreateError(old(db.applications), db.projects, db.hackathons, db.memberships,
                                 db.participants, data.kind, data.targetId, applicantId);
      (r.Err? <==> e.Some?) && (r.Err? ==> r.error == e.value)
    ensures r.Err? ==> unchanged(db)
    ensures r.Ok? ==>
      r.value == Application(old(db.nextId), data.kind, data.targetId, applicantId, data.message, "pending", now) &&
      db.applications == old(db.applications) + [r.value]
  {
    if FirstIndex(db.applications, PendingSameTarget(data.kind, data.targetId, applicantId)).Some? {
      return Err(AlreadyAppliedError);
    }
    var conflict := FindCreatorConflict(db, data.kind, data.targetId, applicantId);
    if conflict {
      return Err(OneActiveError);
    }
    if data.kind == "project" {
      if FirstIndex(db.memberships, (m: Membership) => m.projectId == data.targetId && m.userId == applicantId).Some? {
        return Err(AlreadyMemberError);
      }
    } else if data.kind == "hackathon" {
      if FirstIndex(db.participants, (p: Participant) => p.hackathonId == data.targetId && p.userId == applicantId).Some? {
        return Err(AlreadyParticipantError);
      }
    }
    var a := db.AddApplication(Application(0, data.kind, data.targetId, applicantId, data.message, "pending", now));
    r := Ok(a);
  }

  // ---------------------------------------------------------------- approve, reject

  /** The payload of the notification sent on approval. */
  function ApprovalPayload(a: Application): (p: Payload)
    ensures p.Keys == {"application_id", "type", "target_id", "status"}
    ensures p["status"] == StrVal("approved")
  {
    map["application_id" := IntVal(a.id), "type" := StrVal(a.kind),
        "target_id" := IntVal(a.targetId), "status" := StrVal("approved")]
  }

  /** The row approval adds for the applicant: an active "member" membership
      for a project, a participant row for a hackathon. */
  function JoinedMembership(a: Application, id: nat): Membership {
    Membership(id, a.targetId, a.applicantId, "member", "active", None)
  }

  /** The first step of an approval: the membership or participant row. */
  method AddJoinRow(db: Db, a: Application)
    requires db.Valid()
    modifies db`memberships, db`participants, db`nextId
    ensures db.Valid()
    ensures db.memberships == old(db.memberships) +
      (if a.kind == "project" then [JoinedMembership(a, old(db.nextId))] else [])
    ensures db.participants == old(db.participants) +
      (if a.kind == "hackathon" then [Participant(old(db.nextId), a.targetId, a.applicantId)] else [])
    ensures db.nextId == old(db.nextId) + (if a.kind == "project" || a.kind == "hackathon" then 1 else 0)
  {
    if a.kind == "project" {
      var _ := db.AddMembership(JoinedMembership(a, 0));
    } else if a.kind == "hackathon" {
      var _ := db.AddParticipant(Participant(0, a.targetId, a.applicantId));
    }
  }

  /** `approve`: only a pending application can be approved. Approval adds
      exactly one membership (project) or participant (hackathon), marks the
      application approved, and sends one notification to the applicant. */
  method Approve(db: Db, applicationId: int, now: int, hasBackgroundTasks: bool) returns (r: Result<Application>)
    requires db.Valid()
    modifies db`applications, db`memberships, db`participants, db`notifications, db`nextId
    ensures db.Valid()
    ensures ApplicationAt(old(db.applications), applicationId).None? ==> r == Err(NotFoundError)
    ensures ApplicationAt(old(db.applications), applicationId).Some? &&
            old(db.applications)[ApplicationAt(old(db.applications), applicationId).value].status != "pending" ==>
      r == Err(ProcessedError)
    ensures r.Err? ==> unchanged(db)
    ensures r.Ok? <==> (ApplicationAt(old(db.applications), applicationId).Some? &&
            old(db.applications)[ApplicationAt(old(db.applications), applicationId).value].status == "pending")
    ensures r.Ok? ==>
      var k := ApplicationAt(old(db.applications), applicationId).value;
      var a := old(db.applications)[k];
      var isTarget := a.kind == "project" || a.kind == "hackathon";
      r.value == a.(status := "approved") &&
      db.applications == old(db.applications)[k := r.value] &&
      db.memberships == old(db.memberships) +
        (if a.kind == "project" then [JoinedMembership(a, old(db.nextId))] else []) &&
      db.participants == old(db.participants) +
        (if a.kind == "hackathon" then [Participant(old(db.nextId), a.targetId, a.applicantId)] else []) &&
      db.notifications == old(db.notifications) +
        [Notification(old(db.nextId) + (if isTarget then 1 else 0), a.applicantId, "application_status",
                      ApprovalPayload(a), false, now)]
  {
    var k := ApplicationAt(db.applications, applicationId);
    if k.None? {
      r := Err(NotFoundError);
    } else if db.applications[k.value].status != "pending" {
      r := Err(ProcessedError);
    } else {
      var a := db.applications[k.value];
      AddJoinRow(db, a);
      db.SetApplicationStatus(k.value, "approved");
      var _, _ := NotificationService.Create(db, a.applicantId, "application_status",
                                             Some(ApprovalPayload(a)), now, hasBackgroundTasks);
      r := Ok(a.(status := "approved"));
    }
  }

  /** `reject`: only a pending application can be rejected; rejection only
      sets the status and adds no membership, participant or notification. */
  method Reject(db: Db, applicationId: int) returns (r: Result<Application>)
    requires db.Valid()
    modifies db`applications
    ensures db.Valid()
    ensures ApplicationAt(old(db.applications), applicationId).None? ==> r == Err(NotFoundError)
    ensures ApplicationAt(old(db.applications), applicationId).Some? &&
            old(db.applications)[ApplicationAt(old(db.applications), applicationId).value].status != "pending" ==>
      r == Err(ProcessedError)
    ensures r.Err? ==> unchanged(db)
    ensures r.Ok? <==> (ApplicationAt(old(db.applications), applicationId).Some? &&
            old(db.applications)[ApplicationAt(old(db.applications), applicationId).value].status == "pending")
    ensures r.Ok? ==>
      var k := ApplicationAt(old(db.applications), applicationId).value;
      r.value == old(db.applications)[k].(status := "rejected") &&
      db.applications == old(db.applications)[k := r.value]
  {
    var k := ApplicationAt(db.applications, applicationId);
    if k.None? {
      r := Err(NotFoundError);
    } else if db.applications[k.value].status != "pending" {
      r := Err(ProcessedError);
    } else {
      var a := db.applications[k.value];
      db.SetApplicationStatus(k.value, "rejected");
      r := Ok(a.(status := "rejected"));
    }
  }

  // ---------------------------------------------------------------- lists

  /** `list_by_project` and `list_by_hackathon`: the applications of that
      type to that target, in table order. */
  function ListByTarget(apps: seq<Application>, kind: string, targetId: int): (r: seq<Application>)
    ensures forall a :: a in r <==> a in apps && a.kind == kind && a.targetId == targetId
  {
    Filter(apps, (a: Application) => a.kind == kind && a.targetId == targetId)
  }

  /** `list_by_user`: the applications the user made. */
  function ListByUser(apps: seq<Application>, userId: int): (r: seq<Application>)
    ensures forall a :: a in r <==> a in apps && a.applicantId == userId
  {
    Filter(apps, (a: Application) => a.applicantId == userId)
  }

  // ---------------------------------------------------------------- lemmas

  /** Once created, the same application cannot be created again while it
      is pending. */
  lemma CreatedIsDuplicate(apps: seq<Application>, a: Application)
    requires a.status == "pending"
    ensures PendingDuplicate(apps + [a], a.kind, a.targetId, a.applicantId)
  {
    var all := apps + [a];
    assert all[|apps|] == a;
    assert SameTarget(a.kind, a.targetId, a.applicantId)(a);
    assert PendingSameTarget(a.kind, a.targetId, a.applicantId)(all[|apps|]);
  }

  /** Approved and rejected applications never block a new application to the
      same target: only pending ones count as duplicates. */
  lemma DecidedApplicationsDoNotBlock(apps: seq<Application>, kind: string, targetId: int, applicantId: int)
    requires forall i :: 0 <= i < |apps| && SameTarget(kind, targetId, applicantId)(apps[i]) ==>
               apps[i].status != "pending"
    ensures !PendingDuplicate(apps, kind, targetId, applicantId)
  {
  }

  /** After an approval the applicant is a member (project) or a participant
      (hackathon), so a further application to that target is refused. */
  lemma ApprovalBlocksReapplying(memberships: seq<Membership>, participants: seq<Participant>,
                                                    a: Application, id: nat)
    requires a.kind == "project" || a.kind == "hackathon"
    ensures AlreadyJoined(
      if a.kind == "project" then memberships + [JoinedMembership(a, id)] else memberships,
      if a.kind == "hackathon" then participants + [Participant(id, a.targetId, a.applicantId)] else participants,
      a.kind, a.targetId, a.applicantId)
  {
    if a.kind == "project" {
      assert (memberships + [JoinedMembership(a, id)])[|memberships|] == JoinedMembership(a, id);
    } else {
      assert (participants + [Participant(id, a.targetId, a.applicantId)])[|participants|]
          == Participant(id, a.targetId, a.applicantId);
    }
  }
}
