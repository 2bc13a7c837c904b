/**
 * The task store's data: tasks, the inputs that create and update them, the
 * store's state and the actions its reducer handles.
 */
module TaskTypes {
  import opened Wrappers

  const PENDING := "PENDING"
  const IN_PROGRESS := "IN_PROGRESS"
  const COMPLETED := "COMPLETED"

  /** The three declared statuses. Tasks loaded from storage are not checked,
      so a task's status is any string. */
  predicate IsTaskStatus(s: string) {
    s == PENDING || s == IN_PROGRESS || s == COMPLETED
  }

  datatype Task = Task(
    id: string,
    title: string,
    description: string,
    status: string,
    dueDate: string,
    createdAt: string,
    updatedAt: Option<string>)

  /** What a caller supplies to create a task; absent entries are `None`. */
  datatype TaskInput = TaskInput(
    title: string,
    description: Option<string>,
    status: Option<string>,
    dueDate: string)

  /** The entries an update overrides; an absent entry keeps the old value. */
  datatype TaskUpdate = TaskUpdate(
    title: Option<string>,
    description: Option<string>,
    status: Option<string>,
    dueDate: Option<string>)

  datatype TaskSummary = TaskSummary(total: nat, pending: nat, inProgress: nat, completed: nat)

  /** The two orders the task list can be shown in. */
  datatype SortBy = DueDate | Title

  /** The store: the tasks, the status filter (`"all"` or a status) and the
      active order. */
  datatype TaskState = TaskState(tasks: seq<Task>, filter: string, sortBy: SortBy)

  datatype TaskAction =
    | SetTasksAction(all: seq<Task>)
    | AddTaskAction(task: Task)
    | UpdateTaskAction(task: Task)
    | DeleteTaskAction(id: string)
    | SetFilterAction(filter: string)
    | SetSortAction(sortBy: SortBy)
}
