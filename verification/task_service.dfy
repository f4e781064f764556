/** services/task_service.py: creating and updating tasks, with the progress
    recomputation and the notifications these trigger, and listing a
    project's tasks. */
module TaskService {
  import opened Common
  import opened Lists
  import opened Store
  import opened TaskSchema
  import ProjectService
  import NotificationService

  const NotFoundError := HttpError(404, "Task not found")
  const InvalidStatusError := HttpError(400, "Invalid status")

  /** The payload telling an assignee about a new task. */
  function AssignedPayload(t: Task): (p: Payload)
    ensures p.Keys == {"task_id", "task_title", "project_id"}
  {
    map["task_id" := IntVal(t.id), "task_title" := StrVal(t.title), "project_id" := IntVal(t.projectId)]
  }

  /** The payload telling a project's creator that a task is done; a missing
      assignee is sent as null. */
  function DonePayload(t: Task): (p: Payload)
    ensures p.Keys == {"task_id", "task_title", "project_id", "assignee_id"}
    ensures p["assignee_id"] == (if t.assigneeId.Some? then IntVal(t.assigneeId.value) else NullVal)
  {
    AssignedPayload(t)["assignee_id" := if t.assigneeId.Some? then IntVal(t.assigneeId.value) else NullVal]
  }

  /** `create`: stores the task with status "todo" and, when the assignee id
      is truthy (present and not 0), notifies the assignee. */
  method Create(db: Db, data: TaskCreate, now: int, hasBackgroundTasks: bool) returns (t: Task)
    requires db.Valid()
    modifies db`tasks, db`notifications, db`nextId
    ensures db.Valid()
    ensures t == Task(old(db.nextId), data.projectId, data.title, data.description, "todo",
                      data.assigneeId, data.dueDate)
    ensures db.tasks == old(db.tasks) + [t]
    ensures TruthyInt(data.assigneeId) ==>
      db.notifications == old(db.notifications) +
        [Notification(old(db.nextId) + 1, data.assigneeId.value, "task_done", AssignedPayload(t), false, now)] &&
      db.nextId == old(db.nextId) + 2
    ensures !TruthyInt(data.assigneeId) ==>
      db.notifications == old(db.notifications) && db.nextId == old(db.nextId) + 1
  {
    t := db.AddTask(Task(0, data.projectId, data.title, data.description, "todo", data.assigneeId, data.dueDate));
    if TruthyInt(t.assigneeId) {
      var _, _ := NotificationService.Create(db, t.assigneeId.value, "task_done", Some(AssignedPayload(t)),
                                             now, hasBackgroundTasks);
    }
  }

  /** The status check of `update`: a status, when present, must be one of
      the three task statuses; an explicit null fails too. */
  predicate StatusAccepted(status: Field<Option<string>>) {
    status.Set? ==> status.value.Some? && status.value.value in TaskStatuses
  }

  /** The setattr loop of `update`: every field present in the body is
      written, every other field keeps its value. It is applied only to
      bodies whose status passed `StatusAccepted`. */
  function Patched(t: Task, u: TaskUpdate): (r: Task)
    requires StatusAccepted(u.status)
    ensures r.id == t.id && r.projectId == t.projectId
    ensures r.status == (if u.status.Set? then u.status.value.value else t.status)
    ensures r.title == (if u.title.Set? then u.title.value else t.title)
    ensures r.description == (if u.description.Set? then u.description.value else t.description)
    ensures r.assigneeId == (if u.assigneeId.Set? then u.assigneeId.value else t.assigneeId)
    ensures r.dueDate == (if u.dueDate.Set? then u.dueDate.value else t.dueDate)
  {
    t.(title := u.title.Or(t.title), description := u.description.Or(t.description),
       status := if u.status.Set? then u.status.value.value else t.status,
       assigneeId := u.assigneeId.Or(t.assigneeId), dueDate := u.dueDate.Or(t.dueDate))
  }

  /** A body with only a status changes only the status. */
  lemma StatusOnlyPatch(t: Task, s: string)
    requires s in TaskStatuses
    ensures Patched(t, TaskUpdate(Unset, Unset, Set(Some(s)), Unset, Unset)) == t.(status := s)
  {
  }

  /** Whether `update` recomputes progress: the body has a status and it
      differs from the stored one. */
  predicate StatusChanged(before: Task, after: Task, u: TaskUpdate) {
    u.status.Set? && before.status != after.status
  }

  /** The user `update` notifies: the creator of the task's project, when the
      status changed to "done" and the project exists. */
  function DoneRecipient(projects: seq<Project>, before: Task, after: Task, u: TaskUpdate): (r: Option<int>)
    ensures r.Some? ==> StatusChanged(before, after, u) && after.status == "done"
    ensures r.Some? <==> (StatusChanged(before, after, u) && after.status == "done" &&
                          exists i :: 0 <= i < |projects| && projects[i].id == after.projectId)
  {
    if StatusChanged(before, after, u) && after.status == "done" then
      match ProjectService.GetById(projects, after.projectId)
      case None => None
      case Some(p) => Some(p.createdBy)
    else None
  }

  /** `update`: 404 for an unknown task and 400 for a bad status, both
      before anything is written; otherwise the body is applied, progress is
      recomputed on a status change, and a finished task is reported to the
      project's creator. */
  method Update(db: Db, taskId: int, u: TaskUpdate, currentUserId: int, now: int, hasBackgroundTasks: bool)
    returns (r: Result<Task>)
    requires db.Valid()
    modifies db`tasks, db`projects, db`notifications, db`nextId
    ensures db.Valid()
    ensures TaskAt(old(db.tasks), taskId).None? ==> r == Err(NotFoundError) && unchanged(db)
    ensures TaskAt(old(db.tasks), taskId).Some? && !StatusAccepted(u.status) ==>
      r == Err(InvalidStatusError) && unchanged(db)
    ensures TaskAt(old(db.tasks), taskId).Some? && StatusAccepted(u.status) ==>
      var before := old(db.tasks)[TaskAt(old(db.tasks), taskId).value];
      var after := Patched(before, u);
      && r == Ok(after)
      && db.tasks == old(db.tasks)[TaskAt(old(db.tasks), taskId).value := after]
      && (StatusChanged(before, after, u) ==>
            db.projects == ProjectService.WithProgress(old(db.projects), after.projectId,
                                                       ProjectService.Progress(db.tasks, after.projectId)))
      && (!StatusChanged(before, after, u) ==> db.projects == old(db.projects))
      && (DoneRecipient(old(db.projects), before, after, u).None? ==>
            db.notifications == old(db.notifications) && db.nextId == old(db.nextId))
      && (DoneRecipient(old(db.projects), before, after, u).Some? ==>
            db.notifications == old(db.notifications) +
              [Notification(old(db.nextId), DoneRecipient(old(db.projects), before, after, u).value,
                            "task_done", DonePayload(after), false, now)] &&
            db.nextId == old(db.nextId) + 1)
  {
    var k := TaskAt(db.tasks, taskId);
    if k.None? {
      return Err(NotFoundError);
    }
    if !StatusAccepted(u.status) {
      return Err(InvalidStatusError);
    }
    var i := k.value;
    var before := db.tasks[i];
    var after := Patched(before, u);
    IdsBelowUpdate(db.tasks, TaskId, db.nextId, i, after);
    db.tasks := db.tasks[i := after];
    if u.status.Set? && before.status != after.status {
      AfterStatusChange(db, before, after, u, now, hasBackgroundTasks);
    }
    r := Ok(after);
  }

  /** The part of `update` that runs once the status changed: progress is
      recomputed and a task that became "done" is reported. */
  method AfterStatusChange(db: Db, before: Task, after: Task, u: TaskUpdate, now: int, hasBackgroundTasks: bool)
    requires db.Valid() && StatusChanged(before, after, u)
    modifies db`projects, db`notifications, db`nextId
    ensures db.Valid()
    ensures db.projects == ProjectService.WithProgress(old(db.projects), after.projectId,
                                                       ProjectService.Progress(db.tasks, after.projectId))
    ensures DoneRecipient(old(db.projects), before, after, u).None? ==>
      db.notifications == old(db.notifications) && db.nextId == old(db.nextId)
    ensures DoneRecipient(old(db.projects), before, after, u).Some? ==>
      db.notifications == old(db.notifications) +
        [Notification(old(db.nextId), DoneRecipient(old(db.projects), before, after, u).value,
                      "task_done", DonePayload(after), false, now)] &&
      db.nextId == old(db.nextId) + 1
  {
    var projectsBefore := db.projects;
    var _ := ProjectService.RecalculateProgress(db, after.projectId);
    var recipient: Option<int> := None;
    if after.status == "done" {
      var project := ProjectService.GetById(db.projects, after.projectId);
      ProjectService.GetByIdWithProgress(projectsBefore, after.projectId,
                                         ProjectService.Progress(db.tasks, after.projectId), after.projectId);
      if project.Some? {
        recipient := Some(project.value.createdBy);
      }
    }
    assert recipient == DoneRecipient(projectsBefore, before, after, u);
    NotifyDone(db, recipient, after, now, hasBackgroundTasks);
  }

  /** The "task_done" notification, when there is someone to send it to. */
  method NotifyDone(db: Db, recipient: Option<int>, after: Task, now: int, hasBackgroundTasks: bool)
    requires db.Valid()
    modifies db`notifications, db`nextId
    ensures db.Valid()
    ensures recipient.None? ==> db.notifications == old(db.notifications) && db.nextId == old(db.nextId)
    ensures recipient.Some? ==>
      db.notifications == old(db.notifications) +
        [Notification(old(db.nextId), recipient.value, "task_done", DonePayload(after), false, now)] &&
      db.nextId == old(db.nextId) + 1
  {
    if recipient.Some? {
      var _, _ := NotificationService.Create(db, recipient.value, "task_done",
                                             Some(DonePayload(after)), now, hasBackgroundTasks);
    }
  }

  /** `list_by_project`: exactly the tasks of that project, in table order. */
  function ListByProject(tasks: seq<Task>, projectId: int): (r: seq<Task>)
    ensures forall t :: t in r <==> t in tasks && t.projectId == projectId
    ensures |r| == Count(tasks, ProjectService.OfProject(projectId))
  {
    CountFilter(tasks, ProjectService.OfProject(projectId));
    Filter(tasks, ProjectService.OfProject(projectId))
  }
}
