/** api/v1/admin.py: the admin-only routes. Every route is reached only
    through the admin gate (`Deps.GetAdminUser`); the methods here start
    after it. */
module AdminApi {
  import opened Common
  import opened Lists
  import opened Store
  import opened UserSchema
  import ApplicationService

  const UserNotFoundError := HttpError(404, "User not found")
  const SelfDeleteError := HttpError(400, "Cannot delete yourself")

  /** The query parameters that are non-empty must match. */
  predicate Matches(a: Application, status: Option<string>, kind: Option<string>) {
    (TruthyStr(status) ==> a.status == status.value) && (TruthyStr(kind) ==> a.kind == kind.value)
  }

  function ApplicationFilter(status: Option<string>, kind: Option<string>): Application -> bool {
    (a: Application) => Matches(a, status, kind)
  }

  function NewestFirst(a: Application): int { -a.createdAt }

  /** `list_all_applications`: the applications matching the status and the
      type when these are non-empty, newest first. */
  function ListAllApplications(apps: seq<Application>, status: Option<string>, kind: Option<string>)
    : (r: seq<Application>)
    ensures forall a :: a in r <==> a in apps && Matches(a, status, kind)
    ensures multiset(r) == multiset(Filter(apps, ApplicationFilter(status, kind)))
    ensures forall i, j :: 0 <= i < j < |r| ==> r[i].createdAt >= r[j].createdAt
  {
    var r := FilterSorted(apps, ApplicationFilter(status, kind), NewestFirst);
    assert forall i, j :: 0 <= i < j < |r| ==> NewestFirst(r[i]) <= NewestFirst(r[j]);
    r
  }

  /** `approve_application_admin`: no ownership check, straight to the
      service, so only a pending application can still be approved. */
  method ApproveAny(db: Db, applicationId: int, now: int, hasBackgroundTasks: bool) returns (r: Result<Application>)
    requires db.Valid()
    modifies db`applications, db`memberships, db`participants, db`notifications, db`nextId
    ensures db.Valid()
    ensures r.Ok? <==> (ApplicationAt(old(db.applications), applicationId).Some? &&
            old(db.applications)[ApplicationAt(old(db.applications), applicationId).value].status == "pending")
    ensures ApplicationAt(old(db.applications), applicationId).None? ==> r == Err(ApplicationService.NotFoundError)
    ensures r.Err? && ApplicationAt(old(db.applications), applicationId).Some? ==>
      r == Err(ApplicationService.ProcessedError)
    ensures r.Err? ==> unchanged(db)
    ensures r.Ok? ==> r.value.status == "approved" && r.value.id == applicationId
    ensures r.Ok? ==>
      var k := ApplicationAt(old(db.applications), applicationId).value;
      var a := old(db.applications)[k];
      r.value == a.(status := "approved") &&
      db.applications == old(db.applications)[k := r.value] &&
      db.memberships == old(db.memberships) +
        (if a.kind == "project" then [ApplicationService.JoinedMembership(a, old(db.nextId))] else []) &&
      db.participants == old(db.participants) +
        (if a.kind == "hackathon" then [Participant(old(db.nextId), a.targetId, a.applicantId)] else []) &&
      db.notifications == old(db.notifications) +
        [Notification(old(db.nextId) + (if a.kind == "project" || a.kind == "hackathon" then 1 else 0),
                      a.applicantId, "application_status", ApplicationService.ApprovalPayload(a), false, now)]
  {
    r := ApplicationService.Approve(db, applicationId, now, hasBackgroundTasks);
  }

  /** `reject_application_admin`: likewise for rejection. */
  method RejectAny(db: Db, applicationId: int) returns (r: Result<Application>)
    requires db.Valid()
    modifies db`applications
    ensures db.Valid()
    ensures r.Ok? <==> (ApplicationAt(old(db.applications), applicationId).Some? &&
            old(db.applications)[ApplicationAt(old(db.applications), applicationId).value].status == "pending")
    ensures ApplicationAt(old(db.applications), applicationId).None? ==> r == Err(ApplicationService.NotFoundError)
    ensures r.Err? && ApplicationAt(old(db.applications), applicationId).Some? ==>
      r == Err(ApplicationService.ProcessedError)
    ensures r.Err? ==> unchanged(db)
    ensures r.Ok? ==> r.value.status == "rejected" && r.value.id == applicationId
    ensures r.Ok? ==>
      var k := ApplicationAt(old(db.applications), applicationId).value;
      r.value == old(db.applications)[k].(status := "rejected") &&
      db.applications == old(db.applications)[k := r.value]
  {
    r := ApplicationService.Reject(db, applicationId);
  }

  /** The setattr loop of `update_user_admin`: the fields present in the
      body are written; id, email, password hash and role never change. */
  function PatchedUser(u: User, body: UserUpdate): (r: User)
    ensures r.id == u.id && r.email == u.email && r.passwordHash == u.passwordHash && r.role == u.role
    ensures r.name == (if body.name.Set? then body.name.value else u.name)
    ensures r.skills == (if body.skills.Set? then body.skills.value else u.skills)
    ensures r.bio == (if body.bio.Set? then body.bio.value else u.bio)
    ensures r.avatarUrl == (if body.avatarUrl.Set? then body.avatarUrl.value else u.avatarUrl)
  {
    u.(name := body.name.Or(u.name), skills := body.skills.Or(u.skills), bio := body.bio.Or(u.bio),
       avatarUrl := body.avatarUrl.Or(u.avatarUrl))
  }

  /** Applying the same body twice is the same as applying it once. */
  lemma PatchedUserIdempotent(u: User, body: UserUpdate)
    ensures PatchedUser(PatchedUser(u, body), body) == PatchedUser(u, body)
  {
  }

  /** `update_user_admin`: 404 for an unknown user, otherwise the body is
      applied to that user. */
  method UpdateUserAdmin(db: Db, userId: int, body: UserUpdate) returns (r: Result<User>)
    requires db.Valid()
    modifies db`users
    ensures db.Valid()
    ensures UserAt(old(db.users), userId).None? ==> r == Err(UserNotFoundError) && unchanged(db)
    ensures UserAt(old(db.users), userId).Some? ==>
      var i := UserAt(old(db.users), userId).value;
      r == Ok(PatchedUser(old(db.users)[i], body)) && db.users == old(db.users)[i := r.value]
  {
    var k := UserAt(db.users, userId);
    if k.None? {
      return Err(UserNotFoundError);
    }
    var u := PatchedUser(db.users[k.value], body);
    IdsBelowUpdate(db.users, UserId, db.nextId, k.value, u);
    db.users := db.users[k.value := u];
    r := Ok(u);
  }

  function NotUser(userId: int): User -> bool {
    (u: User) => u.id != userId
  }

  function NotApplicationBy(userId: int): Application -> bool {
    (a: Application) => a.applicantId != userId
  }

  function NotParticipant(userId: int): Participant -> bool {
    (p: Participant) => p.userId != userId
  }

  /** `delete_user_admin`: an admin cannot delete themself, which is checked
      before the user is looked up; an unknown user is 404. Otherwise the
      user goes, with the applications and hackathon participations the
      database cascades to. */
  method DeleteUserAdmin(db: Db, userId: int, callerId: int) returns (r: Option<HttpError>)
    requires db.Valid()
    modifies db`users, db`applications, db`participants
    ensures db.Valid()
    ensures userId == callerId ==> r == Some(SelfDeleteError) && unchanged(db)
    ensures userId != callerId && UserAt(old(db.users), userId).None? ==> r == Some(UserNotFoundError) && unchanged(db)
    ensures userId != callerId && UserAt(old(db.users), userId).Some? ==>
      r.None? &&
      db.users == Filter(old(db.users), NotUser(userId)) &&
      db.applications == Filter(old(db.applications), NotApplicationBy(userId)) &&
      db.participants == Filter(old(db.participants), NotParticipant(userId))
  {
    if userId == callerId {
      r := Some(SelfDeleteError);
    } else if UserAt(db.users, userId).None? {
      r := Some(UserNotFoundError);
    } else {
      RemoveUserRows(db, userId);
      r := None;
    }
  }

  /** The rows the deletion removes: the user, their applications and their
      hackathon participations. */
  method RemoveUserRows(db: Db, userId: int)
    requires db.Valid()
    modifies db`users, db`applications, db`participants
    ensures db.Valid()
    ensures db.users == Filter(old(db.users), NotUser(userId))
    ensures db.applications == Filter(old(db.applications), NotApplicationBy(userId))
    ensures db.participants == Filter(old(db.participants), NotParticipant(userId))
  {
    db.DeleteUsers(NotUser(userId));
    db.DeleteApplications(NotApplicationBy(userId));
    db.DeleteParticipants(NotParticipant(userId));
  }

  /** The values `get_statistics` breaks each table down by. */
  const Roles: seq<string> := ["student", "mentor", "customer", "admin"]
  const ProjectStatuses: seq<string> := ["recruiting", "active", "completed"]
  const ApplicationStatusList: seq<string> := ["pending", "approved", "rejected"]
  const ApplicationKinds: seq<string> := ["project", "hackathon"]

  function KeyIs<T>(key: T -> string, k: string): T -> bool {
    (x: T) => key(x) == k
  }

  function UserRole(u: User): string { u.role }
  function ProjectStatus(p: Project): string { p.status }
  function ApplicationStatus(a: Application): string { a.status }
  function ApplicationKind(a: Application): string { a.kind }

  /** One of the counting loops of `get_statistics`: for each listed value,
      the number of rows whose key has that value. */
  method CountByKey<T>(rows: seq<T>, keys: seq<string>, key: T -> string) returns (m: map<string, nat>)
    ensures m.Keys == set k | k in keys
    ensures forall k :: k in m ==> m[k] == Count(rows, KeyIs(key, k))
  {
    m := map[];
    for i := 0 to |keys|
      invariant m.Keys == set j | 0 <= j < i :: keys[j]
      invariant forall k :: k in m ==> m[k] == Count(rows, KeyIs(key, k))
    {
      m := m[keys[i] := Count(rows, KeyIs(key, keys[i]))];
    }
  }

  lemma StatisticsKeys()
    ensures (set k | k in Roles) == {"student", "mentor", "customer", "admin"}
    ensures (set k | k in ProjectStatuses) == {"recruiting", "active", "completed"}
    ensures (set k | k in ApplicationStatusList) == {"pending", "approved", "rejected"}
    ensures (set k | k in ApplicationKinds) == {"project", "hackathon"}
  {
  }

  datatype Stats = Stats(
    users: nat, usersByRole: map<string, nat>,
    projects: nat, projectsByStatus: map<string, nat>,
    applications: nat, applicationsByStatus: map<string, nat>, applicationsByType: map<string, nat>,
    memberships: nat, tasks: nat, hackathons: nat, participants: nat)

  /** `get_statistics`: the size of every table, and the per-value counts
      for four roles, three project statuses, three application statuses
      and two application types. */
  method GetStatistics(db: Db) returns (s: Stats)
    ensures s.users == |db.users| && s.projects == |db.projects| && s.applications == |db.applications|
    ensures s.memberships == |db.memberships| && s.tasks == |db.tasks|
    ensures s.hackathons == |db.hackathons| && s.participants == |db.participants|
    ensures s.usersByRole.Keys == {"student", "mentor", "customer", "admin"}
    ensures forall k :: k in s.usersByRole ==> s.usersByRole[k] == Count(db.users, KeyIs(UserRole, k))
    ensures s.projectsByStatus.Keys == {"recruiting", "active", "completed"}
    ensures forall k :: k in s.projectsByStatus ==> s.projectsByStatus[k] == Count(db.projects, KeyIs(ProjectStatus, k))
    ensures s.applicationsByStatus.Keys == {"pending", "approved", "rejected"}
    ensures forall k :: k in s.applicationsByStatus ==>
      s.applicationsByStatus[k] == Count(db.applications, KeyIs(ApplicationStatus, k))
    ensures s.applicationsByType.Keys == {"project", "hackathon"}
    ensures forall k :: k in s.applicationsByType ==>
      s.applicationsByType[k] == Count(db.applications, KeyIs(ApplicationKind, k))
  {
    var byRole := CountByKey(db.users, Roles, UserRole);
    var byProjectStatus := CountByKey(db.projects, ProjectStatuses, ProjectStatus);
    var byStatus := CountByKey(db.applications, ApplicationStatusList, ApplicationStatus);
    var byType := CountByKey(db.applications, ApplicationKinds, ApplicationKind);
    StatisticsKeys();
    s := Stats(|db.users|, byRole, |db.projects|, byProjectStatus,
               |db.applications|, byStatus, byType,
               |db.memberships|, |db.tasks|, |db.hackathons|, |db.participants|);
  }

  /** Since every application is pending, approved or rejected, the three
      status counts add up to the number of applications. */
  lemma StatusCountsCoverAll(apps: seq<Application>)
    requires forall i :: 0 <= i < |apps| ==> apps[i].status in ApplicationStatuses
    ensures Count(apps, KeyIs(ApplicationStatus, "pending")) + Count(apps, KeyIs(ApplicationStatus, "approved")) +
            Count(apps, KeyIs(ApplicationStatus, "rejected")) == |apps|
  {
    var pending, approved, rejected :=
      KeyIs(ApplicationStatus, "pending"), KeyIs(ApplicationStatus, "approved"), KeyIs(ApplicationStatus, "rejected");
    forall i | 0 <= i < |apps|
      ensures (pending(apps[i]) && !approved(apps[i]) && !rejected(apps[i])) ||
              (!pending(apps[i]) && approved(apps[i]) && !rejected(apps[i])) ||
              (!pending(apps[i]) && !approved(apps[i]) && rejected(apps[i]))
    {
      OneStatus(apps[i]);
    }
    CountsCoverAll(apps, pending, approved, rejected);
  }

  /** A stored application has exactly one of the three statuses. */
  lemma OneStatus(a: Application)
    requires a.status in ApplicationStatuses
    ensures var pending, approved, rejected :=
      KeyIs(ApplicationStatus, "pending")(a), KeyIs(ApplicationStatus, "approved")(a), KeyIs(ApplicationStatus, "rejected")(a);
      (pending && !approved && !rejected) || (!pending && approved && !rejected) || (!pending && !approved && rejected)
  {
    var st := ApplicationStatus(a);
    assert "pending" != "approved" && "pending" != "rejected" && "approved" != "rejected" by {
      assert "pending"[1] != "approved"[1] && "pending"[0] != "rejected"[0] && "approved"[0] != "rejected"[0];
    }
    assert KeyIs(ApplicationStatus, "pending")(a) <==> st == "pending";
    assert KeyIs(ApplicationStatus, "approved")(a) <==> st == "approved";
    assert KeyIs(ApplicationStatus, "rejected")(a) <==> st == "rejected";
  }

  /** Hence, in a consistent database, the application statistics by status
      add up to the total. */
  lemma StatisticsByStatusAddUp(db: Db, s: Stats)
    requires db.Valid()
    requires s.applications == |db.applications|
    requires s.applicationsByStatus.Keys == {"pending", "approved", "rejected"}
    requires forall k :: k in s.applicationsByStatus ==>
      s.applicationsByStatus[k] == Count(db.applications, KeyIs(ApplicationStatus, k))
    ensures s.applicationsByStatus["pending"] + s.applicationsByStatus["approved"] +
            s.applicationsByStatus["rejected"] == s.applications
  {
    StatusCountsCoverAll(db.applications);
  }
}
