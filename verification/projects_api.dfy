/** api/v1/projects.py: the project routes that check who the caller is
    before creating, updating, deleting, inviting or adding a required
    role. */
module ProjectsApi {
  import opened Common
  import opened Lists
  import opened Strings
  import opened Store
  import opened ProjectSchema
  import opened MembershipSchema
  import ProjectService
  import NotificationService
  import Deps
  import Routing

  const NotAuthorizedError := HttpError(403, "Not authorized")
  const UserNotFoundError := HttpError(404, "User not found")
  const AlreadyMemberError := HttpError(400, "User is already a member")
  const RoleExistsError := HttpError(400, "Role already exists")

  /** `create_project`: only callers passing the admin-or-mentor gate
      create, and the project is theirs. */
  method CreateProject(db: Db, data: ProjectCreate, caller: User) returns (r: Result<Project>)
    requires db.Valid()
    modifies db`projects, db`nextId
    ensures db.Valid()
    ensures r.Ok? <==> caller.role == "admin" || caller.role == "mentor"
    ensures r.Err? ==> r.error == Deps.CreationDeniedError && unchanged(db)
    ensures r.Ok? ==>
      r.value == Project(old(db.nextId), data.title, data.description, caller.id, "recruiting",
                         data.techStack, 0.0, data.prize, data.deadline, data.maxParticipants, None) &&
      db.projects == old(db.projects) + [r.value]
  {
    var gate := Deps.RequireProjectCreationPermission(caller);
    if gate.Err? {
      return Err(gate.error);
    }
    var p := ProjectService.Create(db, data, caller.id);
    r := Ok(p);
  }

  /** The owner check shared by update, invite and add-required-role: 404
      for an unknown project, 403 unless the caller created it. */
  function OwnerCheck(projects: seq<Project>, projectId: int, callerId: int): (r: Result<Project>)
    ensures r.Ok? <==> exists i :: 0 <= i < |projects| && projects[i].id == projectId &&
                                   (forall j :: 0 <= j < i ==> projects[j].id != projectId) &&
                                   projects[i].createdBy == callerId
    ensures r.Ok? ==> r.value in projects && r.value.id == projectId && r.value.createdBy == callerId
    ensures r.Err? ==> r.error == ProjectService.NotFoundError || r.error == NotAuthorizedError
    ensures ProjectAt(projects, projectId).None? ==> r == Err(ProjectService.NotFoundError)
  {
    match ProjectAt(projects, projectId)
    case None => Err(ProjectService.NotFoundError)
    case Some(i) => if projects[i].createdBy != callerId then Err(NotAuthorizedError) else Ok(projects[i])
  }

  /** `update_project`: the owner check, then the service's update. */
  method UpdateProject(db: Db, projectId: int, u: ProjectUpdate, callerId: int) returns (r: Result<Project>)
    requires db.Valid()
    modifies db`projects
    ensures db.Valid()
    ensures OwnerCheck(old(db.projects), projectId, callerId).Err? ==>
      r == Err(OwnerCheck(old(db.projects), projectId, callerId).error) && db.projects == old(db.projects)
    ensures OwnerCheck(old(db.projects), projectId, callerId).Ok? ==>
      var i := ProjectAt(old(db.projects), projectId).value;
      r == Ok(ProjectService.Patched(old(db.projects)[i], u)) && db.projects == old(db.projects)[i := r.value]
  {
    var check := OwnerCheck(db.projects, projectId, callerId);
    if check.Err? {
      return Err(check.error);
    }
    r := ProjectService.Update(db, projectId, u);
  }

  /** The delete permission of projects and hackathons: the creator, or a
      caller whose role, lower-cased and stripped of surrounding whitespace,
      is "admin" or "mentor". */
  predicate DeleteAllowed(createdBy: int, caller: User) {
    createdBy == caller.id || Strip(Lower(caller.role)) in ["admin", "mentor"]
  }

  function DeleteDeniedError(role: string): (e: HttpError)
    ensures e.code == 403
  {
    HttpError(403, "Not authorized. Your role: '" + role + "'")
  }

  /** Every caller allowed to create projects is allowed to delete every
      project: the creation gate's two roles survive the delete gate's
      lower-casing and stripping unchanged. */
  lemma CreatorsMayDeleteAll(caller: User, createdBy: int)
    requires Deps.RequireProjectCreationPermission(caller).Ok?
    ensures DeleteAllowed(createdBy, caller)
  {
    var role := caller.role;
    assert role == "admin" || role == "mentor";
    LowerOfLowerCase(role);
    StripTrimmed(role);
    assert Strip(Lower(role)) == role;
  }

  /** A role with no upper-case letter is its own lower-cased form. */
  lemma LowerOfLowerCase(s: string)
    requires forall i :: 0 <= i < |s| ==> !('A' <= s[i] <= 'Z')
    ensures Lower(s) == s
  {
  }

  /** The delete gate forgives case and surrounding whitespace in the role,
      while the creation gate compares the role as written: a caller whose
      role is stored as " Admin " may delete any project but create none. */
  lemma DeleteGateLooserThanCreationGate(caller: User)
    requires caller.role == " Admin "
    ensures forall createdBy: int :: DeleteAllowed(createdBy, caller)
    ensures Deps.RequireProjectCreationPermission(caller).Err?
  {
    PaddedAdminNormalised();
    assert caller.role != "admin" && caller.role != "mentor" by {
      assert |caller.role| == 7;
    }
  }

  /** " Admin " lower-cased and stripped is "admin". */
  lemma PaddedAdminNormalised()
    ensures Strip(Lower(" Admin ")) == "admin"
  {
    PaddedAdminLowered();
    PaddedAdminStripped();
  }

  lemma PaddedAdminLowered()
    ensures Lower(" Admin ") == " admin "
  {
    var s := Lower(" Admin ");
    assert LowerChar('A') == 'a';
    forall i | 0 <= i < 7 ensures s[i] == " admin "[i] {
      assert s[i] == LowerChar(" Admin "[i]);
    }
  }

  lemma PaddedAdminStripped()
    ensures Strip(" admin ") == "admin"
  {
    var s := " admin ";
    assert LeadingSpaces(s) == 1 by {
      assert IsSpace(s[0]) && !IsSpace(s[1]);
    }
    var t := s[1..];
    assert TrailingSpaces(t) == 1 by {
      assert IsSpace(t[5]) && !IsSpace(t[4]);
    }
    assert Strip(s) == t[..5];
  }

  function NotProject(projectId: int): Project -> bool {
    (p: Project) => p.id != projectId
  }

  function NotRoleOf(projectId: int): RoleRequirement -> bool {
    (q: RoleRequirement) => q.projectId != projectId
  }

  /** `delete_project`: 404 for an unknown project, 403 unless the delete
      permission holds; otherwise the project is deleted together with its
      required roles, which the relationship cascades to. */
  method DeleteProject(db: Db, projectId: int, caller: User) returns (r: Option<HttpError>)
    requires db.Valid()
    modifies db`projects, db`roles
    ensures db.Valid()
    ensures ProjectAt(old(db.projects), projectId).None? ==>
      r == Some(ProjectService.NotFoundError) && unchanged(db)
    ensures ProjectAt(old(db.projects), projectId).Some? ==>
      var p := old(db.projects)[ProjectAt(old(db.projects), projectId).value];
      (!DeleteAllowed(p.createdBy, caller) ==> r == Some(DeleteDeniedError(caller.role)) && unchanged(db)) &&
      (DeleteAllowed(p.createdBy, caller) ==>
        r.None? &&
        db.projects == Filter(old(db.projects), NotProject(projectId)) &&
        db.roles == Filter(old(db.roles), NotRoleOf(projectId)))
    ensures r.None? ==> ProjectService.GetById(db.projects, projectId).None?
  {
    var k := ProjectAt(db.projects, projectId);
    if k.None? {
      return Some(ProjectService.NotFoundError);
    }
    var p := db.projects[k.value];
    if !DeleteAllowed(p.createdBy, caller) {
      return Some(DeleteDeniedError(caller.role));
    }
    db.DeleteProjects(NotProject(projectId));
    db.DeleteRoleRequirements(NotRoleOf(projectId));
    r := None;
  }

  datatype InviteResult = InviteResult(id: nat, status: string)

  function MembershipOf(projectId: int, userId: int): Membership -> bool {
    (m: Membership) => m.projectId == projectId && m.userId == userId
  }

  /** The payload of an invitation notification. */
  function InvitePayload(project: Project, membershipId: nat): (p: Payload)
    ensures p.Keys == {"project_id", "project_title", "membership_id"}
  {
    map["project_id" := IntVal(project.id), "project_title" := StrVal(project.title),
        "membership_id" := IntVal(membershipId)]
  }

  /** The errors `invite_user` raises, in its order: the owner check, an
      unknown user, a membership of any status for that user and project. */
  function InviteError(projects: seq<Project>, users: seq<User>, memberships: seq<Membership>,
                       projectId: int, userId: int, callerId: int): (e: Option<HttpError>)
    ensures e.None? <==> (OwnerCheck(projects, projectId, callerId).Ok? &&
                          (exists i :: 0 <= i < |users| && users[i].id == userId) &&
                          forall i :: 0 <= i < |memberships| ==> !MembershipOf(projectId, userId)(memberships[i]))
  {
    var check := OwnerCheck(projects, projectId, callerId);
    if check.Err? then Some(check.error)
    else if UserAt(users, userId).None? then Some(UserNotFoundError)
    else if FirstIndex(memberships, MembershipOf(projectId, userId)).Some? then Some(AlreadyMemberError)
    else None
  }

  /** `invite_user`: after the checks, one membership with status "invited",
      the requested role and the caller as inviter, and one "invite"
      notification to the invited user. */
  method InviteUser(db: Db, projectId: int, invite: MembershipInviteIn, callerId: int, now: int,
                    hasBackgroundTasks: bool) returns (r: Result<InviteResult>)
    requires db.Valid()
    modifies db`memberships, db`notifications, db`nextId
    ensures db.Valid()
    ensures var e := InviteError(old(db.projects), old(db.users), old(db.memberships), projectId, invite.userId, callerId);
      (e.Some? ==> r == Err(e.value) && unchanged(db)) &&
      (e.None? ==>
        var m := Membership(old(db.nextId), projectId, invite.userId, invite.roleInTeam, "invited", Some(callerId));
        r == Ok(InviteResult(m.id, "invited")) &&
        db.memberships == old(db.memberships) + [m] &&
        db.notifications == old(db.notifications) +
          [Notification(old(db.nextId) + 1, invite.userId, "invite",
                        InvitePayload(OwnerCheck(old(db.projects), projectId, callerId).value, m.id), false, now)] &&
        db.nextId == old(db.nextId) + 2)
  {
    var e := InviteError(db.projects, db.users, db.memberships, projectId, invite.userId, callerId);
    if e.Some? {
      return Err(e.value);
    }
    var project := OwnerCheck(db.projects, projectId, callerId).value;
    var m := db.AddMembership(Membership(0, projectId, invite.userId, invite.roleInTeam, "invited", Some(callerId)));
    var _, _ := NotificationService.Create(db, invite.userId, "invite", Some(InvitePayload(project, m.id)),
                                           now, hasBackgroundTasks);
    r := Ok(InviteResult(m.id, "invited"));
  }

  /** A user already invited (or already a member) cannot be invited again. */
  lemma {:induction false} InviteOnce(memberships: seq<Membership>, m: Membership, projects: seq<Project>,
                                      users: seq<User>, callerId: int)
    ensures InviteError(projects, users, memberships + [m], m.projectId, m.userId, callerId).Some?
  {
    var all := memberships + [m];
    assert MembershipOf(m.projectId, m.userId)(all[|memberships|]);
  }

  function RoleOf(projectId: int, roleName: string): RoleRequirement -> bool {
    (q: RoleRequirement) => q.projectId == projectId && q.roleName == roleName
  }

  /** `add_required_role`: after the owner check, 400 when the project
      already requires a role of that name, else exactly one new role. */
  method AddRequiredRole(db: Db, projectId: int, roleName: string, callerId: int)
    returns (r: Result<RoleRequirement>)
    requires db.Valid()
    modifies db`roles, db`nextId
    ensures db.Valid()
    ensures OwnerCheck(old(db.projects), projectId, callerId).Err? ==>
      r == Err(OwnerCheck(old(db.projects), projectId, callerId).error) && unchanged(db)
    ensures OwnerCheck(old(db.projects), projectId, callerId).Ok? &&
            (exists i :: 0 <= i < |old(db.roles)| && RoleOf(projectId, roleName)(old(db.roles)[i])) ==>
      r == Err(RoleExistsError) && unchanged(db)
    ensures r.Ok? ==>
      r.value == RoleRequirement(old(db.nextId), projectId, roleName) &&
      db.roles == old(db.roles) + [r.value] && db.nextId == old(db.nextId) + 1
    ensures r.Ok? <==> (OwnerCheck(old(db.projects), projectId, callerId).Ok? &&
                        forall i :: 0 <= i < |old(db.roles)| ==> !RoleOf(projectId, roleName)(old(db.roles)[i]))
  {
    var check := OwnerCheck(db.projects, projectId, callerId);
    if check.Err? {
      return Err(check.error);
    }
    if FirstIndex(db.roles, RoleOf(projectId, roleName)).Some? {
      return Err(RoleExistsError);
    }
    var added := db.AddRoleRequirement(RoleRequirement(0, projectId, roleName));
    r := Ok(added);
  }

  /** The router's table (api/v1/projects.py:12-148), in declaration order,
      with the router's "/projects" prefix. */
  const Routes := [
    Routing.Route("POST", [Routing.Lit(""), Routing.Lit("projects")], "create_project"),
    Routing.Route("GET", [Routing.Lit(""), Routing.Lit("projects")], "list_projects"),
    Routing.Route("GET", [Routing.Lit(""), Routing.Lit("projects"), Routing.Param], "get_project"),
    Routing.Route("PATCH", [Routing.Lit(""), Routing.Lit("projects"), Routing.Param], "update_project"),
    Routing.Route("DELETE", [Routing.Lit(""), Routing.Lit("projects"), Routing.Param], "delete_project"),
    Routing.Route("POST", [Routing.Lit(""), Routing.Lit("projects"), Routing.Param, Routing.Lit("invite")],
                  "invite_user"),
    Routing.Route("POST", [Routing.Lit(""), Routing.Lit("projects"), Routing.Param, Routing.Lit("required-roles")],
                  "add_required_role")]

  /** A path under this router splits into the empty piece, the prefix and
      the pieces of the rest. */
  lemma PiecesUnderPrefix(rest: string)
    ensures Split("/projects/" + rest, '/') == ["", "projects"] + Split(rest, '/')
  {
    var prefix := "projects";
    assert '/' !in prefix;
    assert "/projects/" + rest == "/" + prefix + "/" + rest;
    Routing.PrefixPieces(prefix, rest);
  }
}
