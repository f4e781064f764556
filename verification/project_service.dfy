/** services/project_service.py: creating, finding, listing and updating
    projects, and recomputing a project's progress from its tasks. */
module ProjectService {
  import opened Common
  import opened Lists
  import opened Store
  import opened ProjectSchema

  const NotFoundError := HttpError(404, "Project not found")

  /** `create`: the submitted fields, the caller as creator, and the column
      defaults: status "recruiting", progress 0, no hackathon. */
  method Create(db: Db, data: ProjectCreate, createdBy: int) returns (p: Project)
    requires db.Valid()
    modifies db`projects, db`nextId
    ensures db.Valid()
    ensures p == Project(old(db.nextId), data.title, data.description, createdBy, "recruiting",
                         data.techStack, 0.0, data.prize, data.deadline, data.maxParticipants, None)
    ensures db.projects == old(db.projects) + [p] && db.nextId == old(db.nextId) + 1
  {
    p := db.AddProject(Project(0, data.title, data.description, createdBy, "recruiting",
                               data.techStack, 0.0, data.prize, data.deadline, data.maxParticipants, None));
  }

  /** `get_by_id`. */
  function GetById(projects: seq<Project>, id: int): (r: Option<Project>)
    ensures r.Some? ==> r.value in projects && r.value.id == id
    ensures r.None? <==> forall i :: 0 <= i < |projects| ==> projects[i].id != id
  {
    match ProjectAt(projects, id)
    case None => None
    case Some(i) => Some(projects[i])
  }

  /** The filters of `list_projects`: a status filter applies only when the
      status is a non-empty string, and each requested technology must be in
      the project's stack. */
  function Matches(status: Option<string>, techStack: Option<seq<string>>): Project -> bool {
    (p: Project) =>
      (TruthyStr(status) ==> p.status == status.value) &&
      (techStack.Some? ==> forall k :: 0 <= k < |techStack.value| ==> techStack.value[k] in p.techStack)
  }

  /** The database the session is bound to: SQLite or PostgreSQL, chosen
      from the settings at start-up. The two differ on a negative window. */
  datatype Engine = Sqlite | Postgres

  /** `list_projects`: the matching projects in table order, the first
      `skip` of them dropped and at most `limit` kept. The route passes both
      integers on unchecked. SQLite reads a negative offset as 0 and a
      negative limit as no limit; PostgreSQL refuses the query (None here),
      and the SQLAlchemy handler answers that with a 500. */
  function ListProjects(projects: seq<Project>, status: Option<string>, techStack: Option<seq<string>>,
                        skip: int, limit: int, engine: Engine): (r: Option<seq<Project>>)
    ensures r.None? <==> engine == Postgres && (skip < 0 || limit < 0)
    ensures r.Some? ==> forall p :: p in r.value ==> p in projects && Matches(status, techStack)(p)
    ensures r.Some? && limit >= 0 ==> |r.value| <= limit
    ensures r.Some? ==>
      var matching := Filter(projects, Matches(status, techStack));
      var from := if skip < 0 then 0 else skip;
      |r.value| == (if from >= |matching| then 0
                    else if limit < 0 || |matching| - from < limit then |matching| - from
                    else limit) &&
      forall i :: 0 <= i < |r.value| ==> r.value[i] == matching[from + i]
  {
    if engine == Postgres && (skip < 0 || limit < 0) then None
    else
      var matching := Filter(projects, Matches(status, techStack));
      Some(Window(matching, if skip < 0 then 0 else skip, if limit < 0 then |matching| else limit))
  }

  /** Without filters and with the default window every project up to the
      hundredth is listed, on either database. */
  lemma ListWithoutFilters(projects: seq<Project>, engine: Engine)
    requires |projects| <= 100
    ensures ListProjects(projects, None, None, 0, 100, engine) == Some(projects)
  {
    FilterAll(projects, Matches(None, None));
    assert projects[0..] == projects[0..|projects|] == projects;
  }

  /** On SQLite a negative offset lists from the first match, and a negative
      limit lists every match from the offset on. */
  lemma {:induction false} SqliteNegativeWindow(projects: seq<Project>, status: Option<string>,
                                                techStack: Option<seq<string>>, skip: int, limit: int)
    ensures skip < 0 ==>
      ListProjects(projects, status, techStack, skip, limit, Sqlite) ==
      ListProjects(projects, status, techStack, 0, limit, Sqlite)
    ensures limit < 0 && 0 <= skip ==>
      var matching := Filter(projects, Matches(status, techStack));
      ListProjects(projects, status, techStack, skip, limit, Sqlite) ==
      Some(if skip < |matching| then matching[skip..] else [])
  {
    var matching := Filter(projects, Matches(status, techStack));
    assert matching[0..] == matching[0..|matching|];
  }

  /** The setattr loop of `update`: every field present in the body is
      written, every other field keeps its value. */
  function Patched(p: Project, u: ProjectUpdate): (r: Project)
    ensures r.id == p.id && r.createdBy == p.createdBy && r.progress == p.progress
    ensures r.hackathonId == p.hackathonId
    ensures r.title == (if u.title.Set? then u.title.value else p.title)
    ensures r.status == (if u.status.Set? then u.status.value else p.status)
    ensures r.techStack == (if u.techStack.Set? then u.techStack.value else p.techStack)
    ensures r.description == (if u.description.Set? then u.description.value else p.description)
    ensures r.prize == (if u.prize.Set? then u.prize.value else p.prize)
    ensures r.deadline == (if u.deadline.Set? then u.deadline.value else p.deadline)
    ensures r.maxParticipants == (if u.maxParticipants.Set? then u.maxParticipants.value else p.maxParticipants)
  {
    p.(title := u.title.Or(p.title), description := u.description.Or(p.description),
       status := u.status.Or(p.status), techStack := u.techStack.Or(p.techStack),
       prize := u.prize.Or(p.prize), deadline := u.deadline.Or(p.deadline),
       maxParticipants := u.maxParticipants.Or(p.maxParticipants))
  }

  /** An empty body changes nothing, and applying the same body twice is the
      same as once. */
  lemma PatchedEmpty(p: Project, u: ProjectUpdate)
    ensures Patched(p, ProjectUpdate(Unset, Unset, Unset, Unset, Unset, Unset, Unset)) == p
    ensures Patched(Patched(p, u), u) == Patched(p, u)
  {
  }

  /** `update`: 404 for an unknown id, otherwise the first project with that
      id is patched in place and returned. */
  method Update(db: Db, projectId: int, u: ProjectUpdate) returns (r: Result<Project>)
    requires db.Valid()
    modifies db`projects
    ensures db.Valid()
    ensures ProjectAt(old(db.projects), projectId).None? ==> r == Err(NotFoundError) && db.projects == old(db.projects)
    ensures ProjectAt(old(db.projects), projectId).Some? ==>
      var i := ProjectAt(old(db.projects), projectId).value;
      r == Ok(Patched(old(db.projects)[i], u)) && db.projects == old(db.projects)[i := r.value]
  {
    var k := ProjectAt(db.projects, projectId);
    if k.None? {
      return Err(NotFoundError);
    }
    var i := k.value;
    var p := Patched(db.projects[i], u);
    IdsBelowUpdate(db.projects, ProjectId, db.nextId, i, p);
    db.projects := db.projects[i := p];
    r := Ok(p);
  }

  function OfProject(projectId: int): Task -> bool {
    (t: Task) => t.projectId == projectId
  }

  function DoneIn(projectId: int): Task -> bool {
    (t: Task) => t.projectId == projectId && t.status == "done"
  }

  /** `done / total * 100` for `done` of `total` tasks. */
  function Percentage(done: nat, total: nat): (r: real)
    requires 0 < total && done <= total
    ensures 0.0 <= r <= 100.0
    ensures r == 0.0 <==> done == 0
    ensures r == 100.0 <==> done == total
  {
    var f := done as real / total as real;
    assert f * total as real == done as real;
    assert 0.0 <= f;
    assert (1.0 - f) * total as real == total as real - done as real;
    assert f <= 1.0;
    assert f == 1.0 <==> done == total;
    f * 100.0
  }

  /** The progress `recalculate_progress` computes: 0 for a project without
      tasks, else the percentage of its tasks that are done. */
  function Progress(tasks: seq<Task>, projectId: int): (r: real)
    ensures 0.0 <= r <= 100.0
    ensures Count(tasks, OfProject(projectId)) == 0 ==> r == 0.0
    ensures r == 0.0 <==> Count(tasks, DoneIn(projectId)) == 0
    ensures r == 100.0 <==> (Count(tasks, OfProject(projectId)) > 0 &&
                             Count(tasks, DoneIn(projectId)) == Count(tasks, OfProject(projectId)))
  {
    var total := Count(tasks, OfProject(projectId));
    var done := Count(tasks, DoneIn(projectId));
    CountMono(tasks, DoneIn(projectId), OfProject(projectId));
    if total == 0 then 0.0 else Percentage(done, total)
  }

  /** Progress is 100 exactly when the project has tasks and all of them are
      done. */
  lemma {:induction false} ProgressComplete(tasks: seq<Task>, projectId: int)
    requires exists i :: 0 <= i < |tasks| && tasks[i].projectId == projectId
    requires forall i :: 0 <= i < |tasks| && tasks[i].projectId == projectId ==> tasks[i].status == "done"
    ensures Progress(tasks, projectId) == 100.0
  {
    CountMono(tasks, OfProject(projectId), DoneIn(projectId));
    CountMono(tasks, DoneIn(projectId), OfProject(projectId));
    var i :| 0 <= i < |tasks| && tasks[i].projectId == projectId;
    assert Any(tasks, OfProject(projectId)) by {
      assert OfProject(projectId)(tasks[i]);
    }
  }

  /** Rewriting a task without changing its project or its status leaves
      every project's progress as it was; this is why `update` recomputes
      progress only on a status change. */
  lemma {:induction false} ProgressIgnoresOtherFields(tasks: seq<Task>, i: nat, t: Task, projectId: int)
    requires i < |tasks| && t.projectId == tasks[i].projectId && t.status == tasks[i].status
    ensures Progress(tasks[i := t], projectId) == Progress(tasks, projectId)
  {
    CountUpdate(tasks, i, t, OfProject(projectId));
    CountUpdate(tasks, i, t, DoneIn(projectId));
  }

  /** The project table after storing `progress` on the project with that
      id; without such a project it is unchanged. */
  function WithProgress(projects: seq<Project>, projectId: int, progress: real): (r: seq<Project>)
    ensures |r| == |projects|
    ensures forall i :: 0 <= i < |projects| ==>
      r[i] == projects[i] || (projects[i].id == projectId && r[i] == projects[i].(progress := progress))
  {
    match ProjectAt(projects, projectId)
    case None => projects
    case Some(i) => projects[i := projects[i].(progress := progress)]
  }

  /** Storing a progress value changes no project's id or creator, so a
      lookup by id afterwards finds the same project up to its progress. */
  lemma GetByIdWithProgress(projects: seq<Project>, projectId: int, progress: real, id: int)
    ensures GetById(WithProgress(projects, projectId, progress), id).Some? == GetById(projects, id).Some?
    ensures GetById(projects, id).Some? ==>
      GetById(WithProgress(projects, projectId, progress), id).value.createdBy == GetById(projects, id).value.createdBy
  {
    var r := WithProgress(projects, projectId, progress);
    assert forall i :: 0 <= i < |r| ==> r[i].id == projects[i].id && r[i].createdBy == projects[i].createdBy;
    match ProjectAt(projects, id)
    case None =>
      assert GetById(r, id).None?;
    case Some(k) =>
      var v := ProjectAt(r, id);
      assert r[k].id == id;
      assert v.Some?;
      assert forall j :: 0 <= j < k ==> r[j].id != id;
      assert v.value == k;
  }

  /** `recalculate_progress`: returns the project's progress and stores it
      on the project when the project exists. */
  method RecalculateProgress(db: Db, projectId: int) returns (progress: real)
    requires db.Valid()
    modifies db`projects
    ensures db.Valid()
    ensures progress == Progress(db.tasks, projectId)
    ensures db.projects == WithProgress(old(db.projects), projectId, progress)
  {
    progress := Progress(db.tasks, projectId);
    var k := ProjectAt(db.projects, projectId);
    if k.Some? {
      var i := k.value;
      IdsBelowUpdate(db.projects, ProjectId, db.nextId, i, db.projects[i].(progress := progress));
      db.projects := db.projects[i := db.projects[i].(progress := progress)];
    }
  }
}
