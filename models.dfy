/**
 * The records of internal/models/models.go: statuses, sub-tasks, tasks, users
 * and the request and response shapes the storage layer takes and returns.
 */
module Models {
  import opened Outcomes
  import opened ObjectIds

  /** A status is any string: UpdateTaskStatus stores whatever text it is given. */
  type Status = string

  const Completed: Status := "completed"
  const Pending: Status := "pending"
  const InProgress: Status := "in-progress"

  /** One of the three statuses the program names. */
  predicate IsNamedStatus(s: Status) {
    s == Completed || s == Pending || s == InProgress
  }

  /** A sub-task has no identifier of its own: it is addressed by its position in its task. */
  datatype SubTask = SubTask(title: string, status: Status)

  /** primitive.DateTime: milliseconds since the Unix epoch. */
  type DateTime = int

  /**
   * A task. Title and description are pointers in the source, so they may be
   * absent; assignees and sub-tasks are ordered.
   */
  datatype Task = Task(
    id: ObjectId,
    title: Option<string>,
    description: Option<string>,
    status: Status,
    assignedTo: seq<string>,
    dueDate: DateTime,
    subTasks: seq<SubTask>)

  datatype User = User(id: ObjectId, fullname: string, email: string)

  datatype UpdateTaskStatusRequest = UpdateTaskStatusRequest(taskId: string, taskStatus: string)

  datatype RepeatedModelsResponse = RepeatedModelsResponse(tasks: seq<Task>)

  datatype GetTasksUntilDateRequest = GetTasksUntilDateRequest(date: DateTime)

  datatype UpdateSubTaskStatusRequest = UpdateSubTaskStatusRequest(taskId: string, subTaskIndex: int, newStatus: Status)

  datatype AddNewSubTaskIntoTaskRequest = AddNewSubTaskIntoTaskRequest(taskId: string, subTask: SubTask)

  datatype ChangeTaskUserRequest = ChangeTaskUserRequest(taskId: string, newTaskOwnerData: seq<string>)

  /** The database a task lives in, whatever the task. */
  function GetDbName(t: Task): (name: string) {
    "todo"
  }

  /** The collection a task lives in, whatever the task. */
  function GetCollectionName(t: Task): (name: string) {
    "tasks"
  }

  /** Both names are constants: no task changes them, and they differ. */
  lemma FixedNames(t: Task, u: Task)
    ensures GetDbName(t) == GetDbName(u) == "todo"
    ensures GetCollectionName(t) == GetCollectionName(u) == "tasks"
    ensures GetDbName(t) != GetCollectionName(u)
  {
  }

  /** The three named statuses are the literal strings of the wire format and pairwise distinct. */
  lemma NamedStatuses()
    ensures Completed == "completed" && Pending == "pending" && InProgress == "in-progress"
    ensures Completed != Pending && Pending != InProgress && Completed != InProgress
    ensures forall s :: IsNamedStatus(s) <==> s == Completed || s == Pending || s == InProgress
    ensures !IsNamedStatus("done") && !IsNamedStatus("Pending") && !IsNamedStatus("")
  {
  }
}
