/** frontend src/pages/WorkspacePage.tsx: a project's workspace. Access is
    checked once the project and its memberships are loaded; the task board
    splits the tasks by status, and the handlers create, move and delete
    tasks. Each request's outcome is a parameter. */
module WorkspacePage {
  import opened Common
  import opened Lists
  import opened Strings
  import Store

  datatype WsTask = WsTask(id: int, title: string, description: Option<string>, status: string, assigneeId: Option<int>)

  datatype Member = Member(id: int, userId: int, roleInTeam: string, status: string)

  predicate ActiveMemberOf(members: seq<Member>, userId: int) {
    exists i :: 0 <= i < |members| && members[i].userId == userId && members[i].status == "active"
  }

  /** The access check: the project's creator, or a user with an active
      membership. */
  function HasAccess(createdBy: int, userId: int, members: seq<Member>): (ok: bool)
    ensures ok <==> createdBy == userId || ActiveMemberOf(members, userId)
  {
    createdBy == userId ||
    FirstIndex(members, (m: Member) => m.userId == userId && m.status == "active").Some?
  }

  /** An invitation that has not been accepted gives no access. */
  lemma InvitedIsNotEnough(createdBy: int, userId: int, m: Member)
    requires createdBy != userId && m.userId == userId && m.status == "invited"
    ensures !HasAccess(createdBy, userId, [m])
  {
  }

  function IsActive(m: Member): bool { m.status == "active" }

  /** The members tab lists the active members only, in their order. */
  function ActiveMembers(members: seq<Member>): (r: seq<Member>)
    ensures forall m :: m in r <==> m in members && m.status == "active"
  {
    Filter(members, IsActive)
  }

  function StatusIs(status: string): WsTask -> bool {
    (t: WsTask) => t.status == status
  }

  datatype Board = Board(todo: seq<WsTask>, inProgress: seq<WsTask>, done: seq<WsTask>)

  /** `tasksByStatus`: one column per status, each in the tasks' order. */
  function TasksByStatus(tasks: seq<WsTask>): (b: Board)
    ensures forall t :: t in b.todo <==> t in tasks && t.status == "todo"
    ensures forall t :: t in b.inProgress <==> t in tasks && t.status == "in_progress"
    ensures forall t :: t in b.done <==> t in tasks && t.status == "done"
  {
    Board(Filter(tasks, StatusIs("todo")), Filter(tasks, StatusIs("in_progress")), Filter(tasks, StatusIs("done")))
  }

  /** A task is in at most one column, and a task with another status is in
      none. */
  lemma AtMostOneColumn(tasks: seq<WsTask>, t: WsTask)
    ensures var b := TasksByStatus(tasks);
      !(t in b.todo && t in b.inProgress) && !(t in b.todo && t in b.done) && !(t in b.inProgress && t in b.done)
    ensures t.status !in Store.TaskStatuses ==>
      var b := TasksByStatus(tasks); t !in b.todo && t !in b.inProgress && t !in b.done
  {
    assert "todo" != "in_progress" && "todo" != "done" && "in_progress" != "done" by {
      assert "todo"[0] != "in_progress"[0] && "todo"[0] != "done"[0] && "in_progress"[0] != "done"[0];
    }
  }

  /** When every task has one of the three statuses, the columns hold
      exactly as many tasks as there are. */
  lemma {:induction false} ColumnsCoverAll(tasks: seq<WsTask>)
    requires forall i :: 0 <= i < |tasks| ==> tasks[i].status in Store.TaskStatuses
    ensures var b := TasksByStatus(tasks); |b.todo| + |b.inProgress| + |b.done| == |tasks|
  {
    if tasks != [] {
      var rest := tasks[1..];
      assert forall i :: 0 <= i < |rest| ==> rest[i] == tasks[i + 1];
      ColumnsCoverAll(rest);
      assert "todo" != "in_progress" && "todo" != "done" && "in_progress" != "done" by {
        assert "todo"[0] != "in_progress"[0] && "todo"[0] != "done"[0] && "in_progress"[0] != "done"[0];
      }
      var t := tasks[0];
      assert t.status in Store.TaskStatuses;
      assert StatusIs("todo")(t) <==> t.status == "todo";
      assert StatusIs("in_progress")(t) <==> t.status == "in_progress";
      assert StatusIs("done")(t) <==> t.status == "done";
    }
  }

  /** The buttons on a card of each column: forward from "todo", forward or
      back from "in_progress", back from "done". */
  function Moves(status: string): (r: seq<string>)
    ensures forall i :: 0 <= i < |r| ==> r[i] in Store.TaskStatuses && r[i] != status
  {
    if status == "todo" then ["in_progress"]
    else if status == "in_progress" then ["done", "todo"]
    else if status == "done" then ["in_progress"]
    else []
  }

  /** There is no button from "todo" straight to "done". */
  lemma NoSkipToDone()
    ensures "done" !in Moves("todo")
  {
    assert Moves("todo") == ["in_progress"];
    assert "done" != "in_progress" by {
      assert "done"[0] != "in_progress"[0];
    }
  }

  /** The body `handleCreateTask` posts. */
  datatype TaskBody = TaskBody(projectId: int, title: string, description: Option<string>, status: string)

  /** The page's task list. */
  class State {
    var tasks: seq<WsTask>

    constructor (tasks: seq<WsTask>)
      ensures this.tasks == tasks
    {
      this.tasks := tasks;
    }

    /** `handleCreateTask`: a blank title, or no project id in the route,
        sends nothing; the created task is appended. */
    method CreateTask(routeId: Option<int>, title: string, description: string, response: Option<WsTask>)
      returns (sent: Option<TaskBody>)
      modifies this
      ensures sent.Some? <==> Strip(title) != "" && routeId.Some?
      ensures sent.Some? ==>
        sent.value == TaskBody(routeId.value, title, if description == "" then None else Some(description), "todo")
      ensures sent.Some? && response.Some? ==> tasks == old(tasks) + [response.value]
      ensures sent.None? || response.None? ==> tasks == old(tasks)
    {
      if Strip(title) == "" || routeId.None? {
        return None;
      }
      sent := Some(TaskBody(routeId.value, title, if description == "" then None else Some(description), "todo"));
      if response.Some? {
        tasks := tasks + [response.value];
      }
    }

    /** `handleUpdateTaskStatus`: on success the task with that id is
        replaced by the server's record; on failure nothing changes. */
    method UpdateTaskStatus(taskId: int, response: Option<WsTask>)
      modifies this
      ensures response.None? ==> tasks == old(tasks)
      ensures response.Some? ==>
        (|tasks| == |old(tasks)| &&
         forall i :: 0 <= i < |tasks| ==> tasks[i] == (if old(tasks)[i].id == taskId then response.value else old(tasks)[i]))
    {
      if response.Some? {
        tasks := Map(tasks, (t: WsTask) => if t.id == taskId then response.value else t);
      }
    }

    /** `handleDeleteTask`: after confirmation and a successful request,
        the tasks with that id go and the others stay in order. */
    method DeleteTask(taskId: int, confirmed: bool, succeeds: bool)
      modifies this
      ensures confirmed && succeeds ==> tasks == Filter(old(tasks), (t: WsTask) => t.id != taskId)
      ensures !(confirmed && succeeds) ==> tasks == old(tasks)
      ensures forall t :: t in tasks ==> t in old(tasks)
    {
      if confirmed && succeeds {
        tasks := Filter(tasks, (t: WsTask) => t.id != taskId);
      }
    }
  }
}
