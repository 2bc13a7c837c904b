/**
 * The task store: the reducer over the store's state, the operations that
 * dispatch into it, and the filtered, sorted view and status summary read
 * from it. Ids and timestamps, which the store takes from the clock, are
 * inputs here; storage is not part of this model.
 */
module TaskContext {
  import opened Wrappers
  import opened TaskTypes

  const InitialState := TaskState([], "all", DueDate)

  // ------------------------------------------------------- list operations

  /** Every task with the payload's id replaced by the payload, in place. */
  function ReplaceById(tasks: seq<Task>, payload: Task): (r: seq<Task>)
    ensures |r| == |tasks|
    ensures forall i :: 0 <= i < |tasks| && tasks[i].id == payload.id ==> r[i] == payload
    ensures forall i :: 0 <= i < |tasks| && tasks[i].id != payload.id ==> r[i] == tasks[i]
  {
    if tasks == [] then []
    else [if tasks[0].id == payload.id then payload else tasks[0]] + ReplaceById(tasks[1..], payload)
  }

  /** The tasks whose id differs from `id`, in their order. */
  function WithoutId(tasks: seq<Task>, id: string): (r: seq<Task>)
    ensures forall t :: t in r <==> t in tasks && t.id != id
    ensures |r| <= |tasks|
  {
    if tasks == [] then []
    else (if tasks[0].id != id then [tasks[0]] else []) + WithoutId(tasks[1..], id)
  }

  /** Removing by id distributes over concatenation, so the kept tasks stay
      in their relative order. */
  lemma {:induction false} WithoutIdAppend(a: seq<Task>, b: seq<Task>, id: string)
    ensures WithoutId(a + b, id) == WithoutId(a, id) + WithoutId(b, id)
  {
    if a != [] {
      assert (a + b)[0] == a[0] && (a + b)[1..] == a[1..] + b;
      WithoutIdAppend(a[1..], b, id);
    } else {
      assert a + b == b;
    }
  }

  /** Removing an id no task has changes nothing. */
  lemma {:induction false} WithoutAbsentId(tasks: seq<Task>, id: string)
    requires forall t :: t in tasks ==> t.id != id
    ensures WithoutId(tasks, id) == tasks
  {
    if tasks != [] {
      WithoutAbsentId(tasks[1..], id);
    }
  }

  /** The tasks with status `status`, in their order, each as often as it
      occurs. */
  function WithStatus(tasks: seq<Task>, status: string): (r: seq<Task>)
    ensures |r| <= |tasks|
  {
    if tasks == [] then []
    else (if tasks[0].status == status then [tasks[0]] else []) + WithStatus(tasks[1..], status)
  }

  /** Selecting by status keeps every task with that status, as often as it
      occurs, and no other. */
  lemma {:induction false} WithStatusCounts(tasks: seq<Task>, status: string)
    ensures forall t :: multiset(WithStatus(tasks, status))[t] == if t.status == status then multiset(tasks)[t] else 0
  {
    if tasks != [] {
      WithStatusCounts(tasks[1..], status);
      assert tasks == [tasks[0]] + tasks[1..];
    }
  }

  /** `i` is the first position holding a task with id `id`. */
  predicate FirstWithId(tasks: seq<Task>, i: int, id: string) {
    0 <= i < |tasks| && tasks[i].id == id && forall j :: 0 <= j < i ==> tasks[j].id != id
  }

  lemma CountStep(tasks: seq<Task>, status: string)
    requires tasks != []
    ensures |WithStatus(tasks, status)| == (if tasks[0].status == status then 1 else 0) + |WithStatus(tasks[1..], status)|
  {
  }

  /** The three status counts of a non-empty list: the head's, plus the
      tail's. */
  lemma SummaryStep(tasks: seq<Task>)
    requires tasks != []
    ensures var s, s0 := Summary(tasks), Summary(tasks[1..]);
      s.pending + s.inProgress + s.completed
        == (if IsTaskStatus(tasks[0].status) then 1 else 0) + s0.pending + s0.inProgress + s0.completed
  {
    CountStep(tasks, PENDING);
    CountStep(tasks, IN_PROGRESS);
    CountStep(tasks, COMPLETED);
  }

  /** The first task with id `id`, if any. */
  function FindById(tasks: seq<Task>, id: string): (r: Option<Task>)
    ensures r.None? <==> forall t :: t in tasks ==> t.id != id
    ensures r.Some? ==> r.value in tasks && r.value.id == id
  {
    if tasks == [] then None
    else if tasks[0].id == id then Some(tasks[0])
    else
      assert forall t :: t in tasks ==> t == tasks[0] || t in tasks[1..];
      FindById(tasks[1..], id)
  }

  /** The task found is the one at the first position holding that id. */
  lemma {:induction false} FindByIdFirst(tasks: seq<Task>, id: string)
    requires FindById(tasks, id).Some?
    ensures exists i :: FirstWithId(tasks, i, id) && tasks[i] == FindById(tasks, id).value
  {
    if tasks[0].id == id {
      assert FirstWithId(tasks, 0, id);
    } else {
      FindByIdFirst(tasks[1..], id);
      var i :| FirstWithId(tasks[1..], i, id) && tasks[1..][i] == FindById(tasks, id).value;
      forall j | 0 < j < i + 1 ensures tasks[j].id != id {
        assert tasks[j] == tasks[1..][j - 1];
      }
      assert FirstWithId(tasks, i + 1, id);
    }
  }

  /** After writing the payload over every task with its id, the first task
      with that id is the payload. */
  lemma {:induction false} FindAfterReplace(tasks: seq<Task>, payload: Task)
    requires FindById(tasks, payload.id).Some?
    ensures FindById(ReplaceById(tasks, payload), payload.id) == Some(payload)
  {
    var r := ReplaceById(tasks, payload);
    assert r[0] == (if tasks[0].id == payload.id then payload else tasks[0]);
    if tasks[0].id != payload.id {
      FindAfterReplace(tasks[1..], payload);
      assert r[1..] == ReplaceById(tasks[1..], payload);
    }
  }

  // --------------------------------------------------------------- reducer

  /** The reducer: each action changes its own part of the state; an action
      without a case, such as setting all tasks, leaves the state as it is. */
  function Reduce(state: TaskState, action: TaskAction): (s: TaskState)
    ensures !action.SetFilterAction? ==> s.filter == state.filter
    ensures !action.SetSortAction? ==> s.sortBy == state.sortBy
    ensures action.SetFilterAction? || action.SetSortAction? || action.SetTasksAction? ==> s.tasks == state.tasks
    ensures action.SetFilterAction? ==> s == state.(filter := action.filter)
    ensures action.SetSortAction? ==> s == state.(sortBy := action.sortBy)
    ensures action.SetTasksAction? ==> s == state
  {
    match action
    case AddTaskAction(t) => state.(tasks := state.tasks + [t])
    case UpdateTaskAction(t) => state.(tasks := ReplaceById(state.tasks, t))
    case DeleteTaskAction(id) => state.(tasks := WithoutId(state.tasks, id))
    case SetFilterAction(f) => state.(filter := f)
    case SetSortAction(o) => state.(sortBy := o)
    case SetTasksAction(_) => state
  }

  /** Adding appends the payload as the new last task and keeps the others. */
  lemma AddAppends(state: TaskState, t: Task)
    ensures var s := Reduce(state, AddTaskAction(t));
      && |s.tasks| == |state.tasks| + 1 && s.tasks[|state.tasks|] == t
      && s.tasks[..|state.tasks|] == state.tasks
  {
  }

  /** Updating keeps length and order, replaces every task with the payload's
      id and leaves the others untouched. */
  lemma UpdateReplaces(state: TaskState, t: Task)
    ensures var s := Reduce(state, UpdateTaskAction(t));
      && |s.tasks| == |state.tasks|
      && forall i :: 0 <= i < |s.tasks| ==> s.tasks[i] == if state.tasks[i].id == t.id then t else state.tasks[i]
  {
  }

  /** Deleting removes exactly the tasks with that id. */
  lemma DeleteRemoves(state: TaskState, id: string)
    ensures var s := Reduce(state, DeleteTaskAction(id));
      && (forall t :: t in s.tasks <==> t in state.tasks && t.id != id)
      && ((forall t :: t in state.tasks ==> t.id != id) ==> s.tasks == state.tasks)
  {
    if forall t :: t in state.tasks ==> t.id != id {
      WithoutAbsentId(state.tasks, id);
    }
  }

  // -------------------------------------------------------- task creation

  /** A new task: the description defaults to `''`, the status to pending
      (an empty status counts as absent), and it has no update time. */
  function NewTask(input: TaskInput, id: string, now: string): (t: Task)
    ensures t.id == id && t.createdAt == now && t.updatedAt.None?
    ensures t.title == input.title && t.dueDate == input.dueDate
    ensures t.description == if input.description.Some? then input.description.value else ""
    ensures t.status == if input.status.Some? && input.status.value != "" then input.status.value else PENDING
    ensures t.status != ""
  {
    Task(
      id,
      input.title,
      match input.description case Some(d) => d case None => "",
      match input.status case Some(s) => if s != "" then s else PENDING case None => PENDING,
      input.dueDate,
      now,
      None)
  }

  /** The task with the given entries overridden: id and creation time are
      kept, the update time is set. */
  function Merge(task: Task, updates: TaskUpdate, now: string): (t: Task)
    ensures t.id == task.id && t.createdAt == task.createdAt && t.updatedAt == Some(now)
    ensures t.title == (if updates.title.Some? then updates.title.value else task.title)
    ensures t.description == (if updates.description.Some? then updates.description.value else task.description)
    ensures t.status == (if updates.status.Some? then updates.status.value else task.status)
    ensures t.dueDate == (if updates.dueDate.Some? then updates.dueDate.value else task.dueDate)
  {
    Task(
      task.id,
      match updates.title case Some(v) => v case None => task.title,
      match updates.description case Some(v) => v case None => task.description,
      match updates.status case Some(v) => v case None => task.status,
      match updates.dueDate case Some(v) => v case None => task.dueDate,
      task.createdAt,
      Some(now))
  }

  // --------------------------------------------------------- the ordering

  /** The foreign comparisons the list order relies on: the due date's time
      stamp, and the locale comparison of titles (negative, zero, positive). */
  datatype Collation = Collation(dueTime: string -> int, compareTitles: (string, string) -> int)

  /** `a` may come before `b` in the active order. */
  predicate Le(c: Collation, order: SortBy, a: Task, b: Task) {
    match order
    case DueDate => c.dueTime(a.dueDate) <= c.dueTime(b.dueDate)
    case Title => c.compareTitles(a.title, b.title) <= 0
  }

  /** The title comparison is a consistent total order, as a sort requires. */
  ghost predicate Consistent(c: Collation, order: SortBy) {
    order == Title ==>
      && (forall x, y :: c.compareTitles(x, y) <= 0 || c.compareTitles(y, x) <= 0)
      && (forall x, y, z :: c.compareTitles(x, y) <= 0 && c.compareTitles(y, z) <= 0 ==> c.compareTitles(x, z) <= 0)
  }

  predicate Sorted(s: seq<Task>, c: Collation, order: SortBy) {
    forall i, j :: 0 <= i < j < |s| ==> Le(c, order, s[i], s[j])
  }

  /** `t` placed before the first task it may precede. */
  function Insert(t: Task, s: seq<Task>, c: Collation, order: SortBy): (r: seq<Task>)
    ensures multiset(r) == multiset(s) + multiset{t}
    ensures |r| == |s| + 1
  {
    if s == [] || Le(c, order, t, s[0]) then [t] + s
    else
      assert s == [s[0]] + s[1..];
      [s[0]] + Insert(t, s[1..], c, order)
  }

  /** The tasks in the active order (insertion sort). */
  function Sort(s: seq<Task>, c: Collation, order: SortBy): (r: seq<Task>)
    ensures multiset(r) == multiset(s)
  {
    if s == [] then []
    else
      assert s == [s[0]] + s[1..];
      Insert(s[0], Sort(s[1..], c, order), c, order)
  }

  /** Every task of `s` may follow `x`. */
  predicate LeAll(c: Collation, order: SortBy, x: Task, s: seq<Task>) {
    forall y :: y in s ==> Le(c, order, x, y)
  }

  lemma SortedCons(c: Collation, order: SortBy, a: Task, s: seq<Task>)
    requires LeAll(c, order, a, s) && Sorted(s, c, order)
    ensures Sorted([a] + s, c, order)
  {
    forall i, j | 0 <= i < j < |[a] + s| ensures Le(c, order, ([a] + s)[i], ([a] + s)[j]) {
      if i == 0 {
        assert ([a] + s)[j] == s[j - 1];
      } else {
        assert ([a] + s)[i] == s[i - 1] && ([a] + s)[j] == s[j - 1];
      }
    }
  }

  lemma InsertMembers(t: Task, s: seq<Task>, c: Collation, order: SortBy)
    ensures forall x :: x in Insert(t, s, c, order) ==> x == t || x in s
  {
    var r := Insert(t, s, c, order);
    forall x | x in r ensures x == t || x in s {
      assert x in multiset(r);
    }
  }

  /** Inserting into a sorted list keeps it sorted. */
  lemma {:induction false} InsertSorted(t: Task, s: seq<Task>, c: Collation, order: SortBy)
    requires Consistent(c, order) && Sorted(s, c, order)
    ensures Sorted(Insert(t, s, c, order), c, order)
  {
    if s == [] {
    } else if Le(c, order, t, s[0]) {
      forall y | y in s ensures Le(c, order, t, y) {
        if y != s[0] {
          var k :| 0 <= k < |s| && s[k] == y;
          LeTrans(c, order, t, s[0], y);
        }
      }
      SortedCons(c, order, t, s);
    } else {
      assert Sorted(s[1..], c, order);
      var tail := Insert(t, s[1..], c, order);
      InsertSorted(t, s[1..], c, order);
      LeTotal(c, order, t, s[0]);
      InsertMembers(t, s[1..], c, order);
      forall y | y in tail ensures Le(c, order, s[0], y) {
        if y != t {
          var k :| 0 <= k < |s[1..]| && s[1..][k] == y;
          assert s[k + 1] == y;
        }
      }
      SortedCons(c, order, s[0], tail);
    }
  }

  /** The sort's result is sorted. */
  lemma {:induction false} SortSorted(s: seq<Task>, c: Collation, order: SortBy)
    requires Consistent(c, order)
    ensures Sorted(Sort(s, c, order), c, order)
  {
    if s != [] {
      SortSorted(s[1..], c, order);
      InsertSorted(s[0], Sort(s[1..], c, order), c, order);
    }
  }

  lemma LeTotal(c: Collation, order: SortBy, a: Task, b: Task)
    requires Consistent(c, order)
    ensures Le(c, order, a, b) || Le(c, order, b, a)
  {
  }

  lemma LeTrans(c: Collation, order: SortBy, a: Task, b: Task, d: Task)
    requires Consistent(c, order) && Le(c, order, a, b) && Le(c, order, b, d)
    ensures Le(c, order, a, d)
  {
  }

  // ---------------------------------------------------------------- views

  /** The tasks the filter lets through: all, or those with its status. */
  function Visible(state: TaskState): seq<Task> {
    if state.filter == "all" then state.tasks else WithStatus(state.tasks, state.filter)
  }

  /** The filtered tasks, in the active order: a reordering of exactly the
      tasks whose status is the filter (every task for `"all"`). */
  function FilteredTasks(state: TaskState, c: Collation): (r: seq<Task>)
    ensures forall t ::
      multiset(r)[t] == if state.filter == "all" || t.status == state.filter then multiset(state.tasks)[t] else 0
  {
    WithStatusCounts(state.tasks, state.filter);
    Sort(Visible(state), c, state.sortBy)
  }

  /** With a consistent title comparison, the filtered tasks are in the
      active order. */
  lemma FilteredTasksSorted(state: TaskState, c: Collation)
    requires Consistent(c, state.sortBy)
    ensures Sorted(FilteredTasks(state, c), c, state.sortBy)
  {
    SortSorted(Visible(state), c, state.sortBy);
  }

  /** How many tasks there are, and how many have each declared status. */
  function Summary(tasks: seq<Task>): (s: TaskSummary)
    ensures s.total == |tasks|
  {
    TaskSummary(|tasks|, |WithStatus(tasks, PENDING)|, |WithStatus(tasks, IN_PROGRESS)|, |WithStatus(tasks, COMPLETED)|)
  }

  /** Selecting by status distributes over concatenation. */
  lemma {:induction false} WithStatusAppend(a: seq<Task>, b: seq<Task>, status: string)
    ensures WithStatus(a + b, status) == WithStatus(a, status) + WithStatus(b, status)
  {
    if a != [] {
      assert (a + b)[0] == a[0] && (a + b)[1..] == a[1..] + b;
      WithStatusAppend(a[1..], b, status);
    } else {
      assert a + b == b;
    }
  }

  /** Adding a task raises the total and the count of its own status by one
      and leaves the other counts as they were. */
  lemma AddCounts(state: TaskState, t: Task)
    ensures var s, s0 := Summary(Reduce(state, AddTaskAction(t)).tasks), Summary(state.tasks);
      && s.total == s0.total + 1
      && s.pending == s0.pending + (if t.status == PENDING then 1 else 0)
      && s.inProgress == s0.inProgress + (if t.status == IN_PROGRESS then 1 else 0)
      && s.completed == s0.completed + (if t.status == COMPLETED then 1 else 0)
  {
    WithStatusAppend(state.tasks, [t], PENDING);
    WithStatusAppend(state.tasks, [t], IN_PROGRESS);
    WithStatusAppend(state.tasks, [t], COMPLETED);
  }

  /** The status counts never exceed the total, and add up to it exactly when
      every task has one of the three declared statuses. */
  lemma {:induction false} SummaryAddsUp(tasks: seq<Task>)
    ensures var s := Summary(tasks); s.pending + s.inProgress + s.completed <= s.total
    ensures var s := Summary(tasks);
      s.pending + s.inProgress + s.completed == s.total <==> forall t :: t in tasks ==> IsTaskStatus(t.status)
  {
    if tasks != [] {
      SummaryAddsUp(tasks[1..]);
      SummaryStep(tasks);
      assert (forall t :: t in tasks ==> IsTaskStatus(t.status))
        <==> IsTaskStatus(tasks[0].status) && forall t :: t in tasks[1..] ==> IsTaskStatus(t.status) by {
        assert forall t :: t in tasks <==> t == tasks[0] || t in tasks[1..];
      }
    }
  }

  // ---------------------------------------------------------------- store

  /** The store a provider holds, updated by dispatching actions. */
  class TaskStore {
    var state: TaskState

    /** A store holding the saved tasks, showing all of them by due date. */
    constructor(saved: seq<Task>)
      ensures state == InitialState.(tasks := saved)
    {
      state := InitialState.(tasks := saved);
    }

    /** Creates a task from the input and appends it; the new task is
        returned and is the last one in the store. */
    method AddTask(input: TaskInput, id: string, now: string) returns (t: Task)
      modifies this
      ensures t == NewTask(input, id, now)
      ensures state == Reduce(old(state), AddTaskAction(t))
      ensures state.tasks == old(state.tasks) + [t] && state.tasks[|state.tasks| - 1] == t
    {
      t := NewTask(input, id, now);
      state := Reduce(state, AddTaskAction(t));
    }

    /** Merges the updates into the first task with that id and writes the
        result over every task with that id; an unknown id changes nothing
        and yields `None`. */
    method UpdateTask(id: string, updates: TaskUpdate, now: string) returns (r: Option<Task>)
      modifies this
      ensures r.None? <==> forall t :: t in old(state.tasks) ==> t.id != id
      ensures r.None? ==> state == old(state)
      ensures r.Some? ==> r == Some(Merge(FindById(old(state.tasks), id).value, updates, now))
      ensures r.Some? ==> state == Reduce(old(state), UpdateTaskAction(r.value))
      ensures r.Some? ==> FindById(state.tasks, id) == r
    {
      var found := FindById(state.tasks, id);
      if found.None? {
        return None;
      }
      var updated := Merge(found.value, updates, now);
      ghost var before := state.tasks;
      state := Reduce(state, UpdateTaskAction(updated));
      assert state.tasks == ReplaceById(before, updated);
      FindAfterReplace(before, updated);
      r := Some(updated);
    }

    method DeleteTask(id: string)
      modifies this
      ensures state == Reduce(old(state), DeleteTaskAction(id))
    {
      state := Reduce(state, DeleteTaskAction(id));
    }

    method SetFilter(filter: string)
      modifies this
      ensures state == Reduce(old(state), SetFilterAction(filter))
    {
      state := Reduce(state, SetFilterAction(filter));
    }

    method SetSortBy(order: SortBy)
      modifies this
      ensures state == Reduce(old(state), SetSortAction(order))
    {
      state := Reduce(state, SetSortAction(order));
    }
  }
}
