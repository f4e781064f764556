/** schemas/task.py: the bodies for creating and updating a task. Dates are
    day numbers. */
module TaskSchema {
  import opened Common

  datatype TaskCreate = TaskCreate(
    projectId: int, title: string, description: Option<string>,
    assigneeId: Option<int>, dueDate: Option<int>)

  /** Every field may be left out. `status` is an unchecked string here (an
      explicit null is `Set(None)`); the service checks it. */
  datatype TaskUpdate = TaskUpdate(
    title: Field<string>, description: Field<Option<string>>, status: Field<Option<string>>,
    assigneeId: Field<Option<int>>, dueDate: Field<Option<int>>)

  const TitleMessage := "Title must be 1-120 characters"
  const DueDateMessage := "Due date must be today or later"

  predicate TitleOk(title: string) {
    1 <= |title| <= 120
  }

  /** A due date may be absent; a present one must not be earlier than today. */
  predicate DueDateOk(dueDate: Option<int>, today: int) {
    dueDate.None? || dueDate.value >= today
  }

  /** Validation of a `TaskCreate` body on day `today`: both validators run
      and each failure is reported. There is no status field: a new task
      takes the column default. */
  function ValidateCreate(projectId: int, title: string, description: Option<string>,
                          assigneeId: Option<int>, dueDate: Option<int>, today: int): (r: Checked<TaskCreate>)
    ensures r.Accepted? <==> TitleOk(title) && DueDateOk(dueDate, today)
    ensures r.Accepted? ==> r.value == TaskCreate(projectId, title, description, assigneeId, dueDate)
    ensures r.Rejected? ==>
      r.errors == (if TitleOk(title) then [] else [TitleMessage]) +
                  (if DueDateOk(dueDate, today) then [] else [DueDateMessage])
  {
    var errors := (if TitleOk(title) then [] else [TitleMessage]) +
                  (if dueDate.Some? && dueDate.value < today then [DueDateMessage] else []);
    if errors == [] then Accepted(TaskCreate(projectId, title, description, assigneeId, dueDate))
    else Rejected(errors)
  }

  /** A due date of today is accepted and one of yesterday is not. */
  lemma DueDateBoundary(today: int)
    ensures DueDateOk(Some(today), today)
    ensures !DueDateOk(Some(today - 1), today)
    ensures DueDateOk(None, today)
  {
  }
}
