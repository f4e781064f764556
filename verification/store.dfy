/** The backend's tables (the models package) held in memory: one record type per
    table and one `Db` object whose fields are the tables. The services and
    routes receive the `Db` the way the source receives its SQLAlchemy
    session, and change it by reassigning its fields. */
module Store {
  import opened Common
  import opened Lists

  /** A JSON value stored in a notification payload. */
  datatype Value = IntVal(i: int) | StrVal(s: string) | NullVal
  type Payload = map<string, Value>

  datatype User = User(
    id: nat, email: string, passwordHash: string, name: string, role: string,
    avatarUrl: Option<string>, skills: seq<string>, bio: Option<string>)

  datatype Project = Project(
    id: nat, title: string, description: string, createdBy: int, status: string,
    techStack: seq<string>, progress: real, prize: Option<string>,
    deadline: Option<int>, maxParticipants: Option<int>, hackathonId: Option<int>)

  datatype Hackathon = Hackathon(
    id: nat, title: string, description: Option<string>, startAt: int, endAt: int,
    prize: Option<string>, maxParticipants: Option<int>, createdBy: int)

  /** `kind` is the source's `type` column: "project" or "hackathon". */
  datatype Application = Application(
    id: nat, kind: string, targetId: int, applicantId: int,
    message: Option<string>, status: string, createdAt: int)

  datatype Membership = Membership(
    id: nat, projectId: int, userId: int, roleInTeam: string, status: string,
    invitedBy: Option<int>)

  datatype Participant = Participant(id: nat, hackathonId: int, userId: int)

  /** `kind` is the source's `type` column: "invite", "application_status"
      or "task_done". */
  datatype Notification = Notification(
    id: nat, userId: int, kind: string, payload: Payload, isRead: bool, createdAt: int)

  datatype Task = Task(
    id: nat, projectId: int, title: string, description: Option<string>,
    status: string, assigneeId: Option<int>, dueDate: Option<int>)

  datatype RoleRequirement = RoleRequirement(id: nat, projectId: int, roleName: string)

  /** Primary keys, as function values for the generic key predicates. */
  function UserId(x: User): nat { x.id }
  function ProjectId(x: Project): nat { x.id }
  function HackathonId(x: Hackathon): nat { x.id }
  function ApplicationId(x: Application): nat { x.id }
  function MembershipId(x: Membership): nat { x.id }
  function ParticipantId(x: Participant): nat { x.id }
  function NotificationId(x: Notification): nat { x.id }
  function TaskId(x: Task): nat { x.id }
  function RoleRequirementId(x: RoleRequirement): nat { x.id }

  /** The values the status columns hold. */
  const ApplicationStatuses: set<string> := {"pending", "approved", "rejected"}
  const MembershipStatuses: set<string> := {"active", "invited"}
  const TaskStatuses: seq<string> := ["todo", "in_progress", "done"]

  /** Every id of a table is below the next id to hand out, and no two rows
      share an id (the primary key). */
  predicate IdsBelow<T>(s: seq<T>, id: T -> nat, next: nat) {
    forall i, j :: 0 <= i < |s| && 0 <= j < |s| ==> id(s[i]) < next && (i != j ==> id(s[i]) != id(s[j]))
  }

  /** Appending a row with the next id keeps the key property. */
  lemma IdsBelowAppend<T>(s: seq<T>, id: T -> nat, next: nat, x: T)
    requires IdsBelow(s, id, next) && id(x) == next
    ensures IdsBelow(s + [x], id, next + 1)
  {
  }

  lemma IdsBelowGrow<T>(s: seq<T>, id: T -> nat, next: nat, next': nat)
    requires IdsBelow(s, id, next) && next <= next'
    ensures IdsBelow(s, id, next')
  {
  }

  /** Rewriting a row without touching its id keeps the key property. */
  lemma IdsBelowUpdate<T>(s: seq<T>, id: T -> nat, next: nat, i: nat, x: T)
    requires IdsBelow(s, id, next) && i < |s| && id(x) == id(s[i])
    ensures IdsBelow(s[i := x], id, next)
  {
    var t := s[i := x];
    assert forall j :: 0 <= j < |t| ==> id(t[j]) == id(s[j]);
  }

  /** Rewriting every row without touching the ids keeps the key property. */
  lemma IdsBelowSameIds<T>(s: seq<T>, t: seq<T>, id: T -> nat, next: nat)
    requires IdsBelow(s, id, next) && |t| == |s|
    requires forall i :: 0 <= i < |t| ==> id(t[i]) == id(s[i])
    ensures IdsBelow(t, id, next)
  {
  }

  /** Deleting rows keeps the key property. */
  lemma {:induction false} IdsBelowFilter<T(!new)>(s: seq<T>, id: T -> nat, next: nat, p: T -> bool)
    requires IdsBelow(s, id, next)
    ensures IdsBelow(Filter(s, p), id, next)
  {
    if s != [] {
      IdsBelowFilter(s[1..], id, next, p);
      var t := Filter(s[1..], p);
      forall k | 0 <= k < |t| ensures id(t[k]) != id(s[0]) {
        assert t[k] in s[1..];
        var m :| 0 <= m < |s[1..]| && s[1..][m] == t[k];
        assert s[m + 1] == t[k];
      }
    }
  }

  /** Deleting applications keeps every status valid. */
  lemma FilterKeepsStatuses(apps: seq<Application>, p: Application -> bool)
    requires forall i :: 0 <= i < |apps| ==> apps[i].status in ApplicationStatuses
    ensures forall i :: 0 <= i < |Filter(apps, p)| ==> Filter(apps, p)[i].status in ApplicationStatuses
  {
    var f := Filter(apps, p);
    forall i | 0 <= i < |f| ensures f[i].status in ApplicationStatuses {
      assert f[i] in apps;
    }
  }

  /** The position of the row with primary key `id` (`.filter(X.id == id).first()`). */
  function UserAt(s: seq<User>, id: int): Option<nat> { FirstIndex(s, (u: User) => u.id == id) }
  function ProjectAt(s: seq<Project>, id: int): Option<nat> { FirstIndex(s, (p: Project) => p.id == id) }
  function HackathonAt(s: seq<Hackathon>, id: int): Option<nat> { FirstIndex(s, (h: Hackathon) => h.id == id) }
  function ApplicationAt(s: seq<Application>, id: int): Option<nat> { FirstIndex(s, (a: Application) => a.id == id) }
  function MembershipAt(s: seq<Membership>, id: int): Option<nat> { FirstIndex(s, (m: Membership) => m.id == id) }
  function NotificationAt(s: seq<Notification>, id: int): Option<nat> { FirstIndex(s, (n: Notification) => n.id == id) }
  function TaskAt(s: seq<Task>, id: int): Option<nat> { FirstIndex(s, (t: Task) => t.id == id) }

  /** The whole database. */
  class Db {
    var users: seq<User>
    var projects: seq<Project>
    var hackathons: seq<Hackathon>
    var applications: seq<Application>
    var memberships: seq<Membership>
    var participants: seq<Participant>
    var notifications: seq<Notification>
    var tasks: seq<Task>
    var roles: seq<RoleRequirement>
    /** The next primary key to hand out; one counter serves every table. */
    var nextId: nat

    ghost predicate KeysValid()
      reads this
    {
      IdsBelow(users, UserId, nextId) &&
      IdsBelow(projects, ProjectId, nextId) &&
      IdsBelow(hackathons, HackathonId, nextId) &&
      IdsBelow(applications, ApplicationId, nextId) &&
      IdsBelow(memberships, MembershipId, nextId) &&
      IdsBelow(participants, ParticipantId, nextId) &&
      IdsBelow(notifications, NotificationId, nextId) &&
      IdsBelow(tasks, TaskId, nextId) &&
      IdsBelow(roles, RoleRequirementId, nextId)
    }

    /** Every status column holds one of its documented values. */
    ghost predicate StatusesValid()
      reads this
    {
      (forall i :: 0 <= i < |applications| ==> applications[i].status in ApplicationStatuses) &&
      (forall i :: 0 <= i < |memberships| ==> memberships[i].status in MembershipStatuses) &&
      (forall i :: 0 <= i < |tasks| ==> tasks[i].status in TaskStatuses)
    }

    ghost predicate Valid()
      reads this
    {
      KeysValid() && StatusesValid()
    }

    constructor ()
      ensures Valid()
      ensures users == [] && projects == [] && hackathons == [] && applications == []
      ensures memberships == [] && participants == [] && notifications == []
      ensures tasks == [] && roles == [] && nextId == 1
    {
      users, projects, hackathons, applications := [], [], [], [];
      memberships, participants, notifications := [], [], [];
      tasks, roles, nextId := [], [], 1;
    }

    /** `db.add(row)` followed by `commit` and `refresh`: the row is stored
        at the end of its table under the next primary key. */
    method AddUser(row: User) returns (added: User)
      requires Valid()
      modifies this`users, this`nextId
      ensures Valid()
      ensures added == row.(id := old(nextId)) && nextId == old(nextId) + 1
      ensures users == old(users) + [added]
    {
      added := row.(id := nextId);
      IdsBelowAppend(users, UserId, nextId, added);
      users := users + [added];
      nextId := nextId + 1;
    }

    method AddProject(row: Project) returns (added: Project)
      requires Valid()
      modifies this`projects, this`nextId
      ensures Valid()
      ensures added == row.(id := old(nextId)) && nextId == old(nextId) + 1
      ensures projects == old(projects) + [added]
    {
      added := row.(id := nextId);
      IdsBelowAppend(projects, ProjectId, nextId, added);
      projects := projects + [added];
      nextId := nextId + 1;
    }

    method AddHackathon(row: Hackathon) returns (added: Hackathon)
      requires Valid()
      modifies this`hackathons, this`nextId
      ensures Valid()
      ensures added == row.(id := old(nextId)) && nextId == old(nextId) + 1
      ensures hackathons == old(hackathons) + [added]
    {
      added := row.(id := nextId);
      IdsBelowAppend(hackathons, HackathonId, nextId, added);
      hackathons := hackathons + [added];
      nextId := nextId + 1;
    }

    method AddApplication(row: Application) returns (added: Application)
      requires Valid() && row.status in ApplicationStatuses
      modifies this`applications, this`nextId
      ensures Valid()
      ensures added == row.(id := old(nextId)) && nextId == old(nextId) + 1
      ensures applications == old(applications) + [added]
    {
      added := row.(id := nextId);
      IdsBelowAppend(applications, ApplicationId, nextId, added);
      applications := applications + [added];
      nextId := nextId + 1;
    }

    method AddMembership(row: Membership) returns (added: Membership)
      requires Valid() && row.status in MembershipStatuses
      modifies this`memberships, this`nextId
      ensures Valid()
      ensures added == row.(id := old(nextId)) && nextId == old(nextId) + 1
      ensures memberships == old(memberships) + [added]
    {
      added := row.(id := nextId);
      IdsBelowAppend(memberships, MembershipId, nextId, added);
      memberships := memberships + [added];
      nextId := nextId + 1;
    }

    method AddParticipant(row: Participant) returns (added: Participant)
      requires Valid()
      modifies this`participants, this`nextId
      ensures Valid()
      ensures added == row.(id := old(nextId)) && nextId == old(nextId) + 1
      ensures participants == old(participants) + [added]
    {
      added := row.(id := nextId);
      IdsBelowAppend(participants, ParticipantId, nextId, added);
      participants := participants + [added];
      nextId := nextId + 1;
    }

    method AddNotification(row: Notification) returns (added: Notification)
      requires Valid()
      modifies this`notifications, this`nextId
      ensures Valid()
      ensures added == row.(id := old(nextId)) && nextId == old(nextId) + 1
      ensures notifications == old(notifications) + [added]
    {
      added := row.(id := nextId);
      IdsBelowAppend(notifications, NotificationId, nextId, added);
      notifications := notifications + [added];
      nextId := nextId + 1;
    }

    method AddTask(row: Task) returns (added: Task)
      requires Valid() && row.status in TaskStatuses
      modifies this`tasks, this`nextId
      ensures Valid()
      ensures added == row.(id := old(nextId)) && nextId == old(nextId) + 1
      ensures tasks == old(tasks) + [added]
    {
      added := row.(id := nextId);
      IdsBelowAppend(tasks, TaskId, nextId, added);
      tasks := tasks + [added];
      nextId := nextId + 1;
    }

    /** The projects rewritten under their own ids; the rest of the
        database is untouched, so a valid database stays valid. */
    method SetProjects(rows: seq<Project>)
      requires IdsBelow(rows, ProjectId, nextId)
      modifies this`projects
      ensures projects == rows
      ensures old(Valid()) ==> Valid()
    {
      projects := rows;
    }

    /** `application.status = status` followed by `commit`: one row's status
        changes; a valid database stays valid. */
    method SetApplicationStatus(i: nat, status: string)
      requires i < |applications| && status in ApplicationStatuses
      requires IdsBelow(applications, ApplicationId, nextId)
      modifies this`applications
      ensures applications == old(applications)[i := old(applications)[i].(status := status)]
      ensures old(Valid()) ==> Valid()
    {
      var row := applications[i].(status := status);
      IdsBelowUpdate(applications, ApplicationId, nextId, i, row);
      applications := applications[i := row];
    }

    /** `DELETE ... WHERE NOT p`: the rows satisfying `p` stay, in order,
        and a valid database stays valid. */
    method DeleteUsers(p: User -> bool)
      requires IdsBelow(users, UserId, nextId)
      modifies this`users
      ensures users == Filter(old(users), p)
      ensures old(Valid()) ==> Valid()
    {
      IdsBelowFilter(users, UserId, nextId, p);
      users := Filter(users, p);
    }

    method DeleteProjects(p: Project -> bool)
      requires IdsBelow(projects, ProjectId, nextId)
      modifies this`projects
      ensures projects == Filter(old(projects), p)
      ensures old(Valid()) ==> Valid()
    {
      IdsBelowFilter(projects, ProjectId, nextId, p);
      projects := Filter(projects, p);
    }

    method DeleteHackathons(p: Hackathon -> bool)
      requires IdsBelow(hackathons, HackathonId, nextId)
      modifies this`hackathons
      ensures hackathons == Filter(old(hackathons), p)
      ensures old(Valid()) ==> Valid()
    {
      IdsBelowFilter(hackathons, HackathonId, nextId, p);
      hackathons := Filter(hackathons, p);
    }

    method DeleteApplications(p: Application -> bool)
      requires IdsBelow(applications, ApplicationId, nextId)
      requires forall i :: 0 <= i < |applications| ==> applications[i].status in ApplicationStatuses
      modifies this`applications
      ensures applications == Filter(old(applications), p)
      ensures old(Valid()) ==> Valid()
    {
      IdsBelowFilter(applications, ApplicationId, nextId, p);
      FilterKeepsStatuses(applications, p);
      applications := Filter(applications, p);
    }

    method DeleteParticipants(p: Participant -> bool)
      requires IdsBelow(participants, ParticipantId, nextId)
      modifies this`participants
      ensures participants == Filter(old(participants), p)
      ensures old(Valid()) ==> Valid()
    {
      IdsBelowFilter(participants, ParticipantId, nextId, p);
      participants := Filter(participants, p);
    }

    method DeleteRoleRequirements(p: RoleRequirement -> bool)
      requires IdsBelow(roles, RoleRequirementId, nextId)
      modifies this`roles
      ensures roles == Filter(old(roles), p)
      ensures old(Valid()) ==> Valid()
    {
      IdsBelowFilter(roles, RoleRequirementId, nextId, p);
      roles := Filter(roles, p);
    }

    method AddRoleRequirement(row: RoleRequirement) returns (added: RoleRequirement)
      requires Valid()
      modifies this`roles, this`nextId
      ensures Valid()
      ensures added == row.(id := old(nextId)) && nextId == old(nextId) + 1
      ensures roles == old(roles) + [added]
    {
      added := row.(id := nextId);
      IdsBelowAppend(roles, RoleRequirementId, nextId, added);
      roles := roles + [added];
      nextId := nextId + 1;
    }
  }
}
