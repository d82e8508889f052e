/**
 * The in-memory task store of data/tasks.js: a list of task records, kept in
 * insertion order, and the counter that hands out the next id.
 */
module TaskStore {
  import opened Wrappers

  /** A creation instant, in milliseconds since the epoch; the store only copies it. */
  type Timestamp = int

  datatype Task = Task(
    id: nat,
    title: string,
    description: string,
    status: string,
    priority: string,
    createdAt: Timestamp)

  /**
   * The fields of a task as a request or the controller supplies them; `None`
   * is a key that is absent (`undefined`).
   */
  datatype Fields = Fields(
    title: Option<string>,
    description: Option<string>,
    status: Option<string>,
    priority: Option<string>)

  datatype BoardStats = BoardStats(total: nat, todo: nat, inProgress: nat, done: nat, highPriority: nat)

  const Statuses: seq<string> := ["todo", "in-progress", "done"]
  const Priorities: seq<string> := ["low", "medium", "high"]

  // ---------------------------------------------------------------------------
  // Reads: pure functions of the task list
  // ---------------------------------------------------------------------------

  /** `tasks.findIndex(t => t.id === id)`: where the first task with that id stands. */
  function FindIndex(ts: seq<Task>, id: nat): (r: Option<nat>)
    ensures r.Some? ==> r.value < |ts| && ts[r.value].id == id
    ensures forall k :: 0 <= k < |ts| && (r.None? || k < r.value) ==> ts[k].id != id
  {
    if |ts| == 0 then None
    else if ts[0].id == id then Some(0)
    else match FindIndex(ts[1..], id)
      case None => None
      case Some(j) => Some(j + 1)
  }

  /** `tasks.find(t => t.id === id)`: the first task with that id, if there is one. */
  function FindTask(ts: seq<Task>, id: nat): (r: Option<Task>)
    ensures r.Some? <==> exists k :: 0 <= k < |ts| && ts[k].id == id
    ensures r.Some? ==> r.value in ts && r.value.id == id
  {
    match FindIndex(ts, id)
    case None => None
    case Some(i) => Some(ts[i])
  }

  /** `ts.filter(keep)`: the tasks `keep` accepts, in their order. */
  function Filter(ts: seq<Task>, keep: Task -> bool): (r: seq<Task>)
    ensures |r| <= |ts|
    ensures forall t :: t in r <==> t in ts && keep(t)
  {
    if ts == [] then []
    else (if keep(ts[0]) then [ts[0]] else []) + Filter(ts[1..], keep)
  }

  /** `tasks.filter(task => task.status === status)` */
  function TasksWithStatus(ts: seq<Task>, status: string): (r: seq<Task>)
    ensures forall t :: t in r <==> t in ts && t.status == status
  {
    Filter(ts, (t: Task) => t.status == status)
  }

  /** `a` is `b` with some elements left out and the rest in the same order. */
  predicate IsSubsequence(a: seq<Task>, b: seq<Task>)
    decreases |b|
  {
    a == [] || (b != [] && ((a[0] == b[0] && IsSubsequence(a[1..], b[1..])) || IsSubsequence(a, b[1..])))
  }

  /** A filter keeps every accepted task as often as it occurs, and nothing else. */
  lemma {:induction false} FilterCounts(ts: seq<Task>, keep: Task -> bool)
    ensures forall t :: multiset(Filter(ts, keep))[t] == if keep(t) then multiset(ts)[t] else 0
    ensures multiset(Filter(ts, keep)) <= multiset(ts)
  {
    if ts != [] {
      FilterCounts(ts[1..], keep);
      var head: seq<Task> := if keep(ts[0]) then [ts[0]] else [];
      assert ts == [ts[0]] + ts[1..];
      assert multiset(ts) == multiset{ts[0]} + multiset(ts[1..]);
      assert multiset(Filter(ts, keep)) == multiset(head) + multiset(Filter(ts[1..], keep));
    }
  }

  /** A filter keeps the order of what it keeps. */
  lemma {:induction false} FilterIsSubsequence(ts: seq<Task>, keep: Task -> bool)
    ensures IsSubsequence(Filter(ts, keep), ts)
  {
    if ts != [] {
      FilterIsSubsequence(ts[1..], keep);
      if !keep(ts[0]) {
        assert Filter(ts, keep) == Filter(ts[1..], keep);
        var r := Filter(ts, keep);
        if r != [] {
          assert IsSubsequence(r, ts[1..]);
        }
      } else {
        assert Filter(ts, keep)[1..] == Filter(ts[1..], keep);
      }
    }
  }

  /** `getBoardStats`: the size of the board, a count per status and the number of high-priority tasks. */
  function Stats(ts: seq<Task>): (r: BoardStats)
    ensures r.total == |ts|
    ensures r.highPriority <= r.total
    ensures r.todo + r.inProgress + r.done <= r.total
  {
    StatusCountsBound(ts);
    BoardStats(
      |ts|,
      |TasksWithStatus(ts, "todo")|,
      |TasksWithStatus(ts, "in-progress")|,
      |TasksWithStatus(ts, "done")|,
      |Filter(ts, (t: Task) => t.priority == "high")|)
  }

  /** The tasks whose status is none of the three listed ones. */
  function Unlisted(ts: seq<Task>): seq<Task> {
    Filter(ts, (t: Task) => t.status !in Statuses)
  }

  /** Every task is counted under exactly one of the three statuses or among the unlisted ones. */
  lemma {:induction false} StatusCountsPartition(ts: seq<Task>)
    ensures |TasksWithStatus(ts, "todo")| + |TasksWithStatus(ts, "in-progress")|
      + |TasksWithStatus(ts, "done")| + |Unlisted(ts)| == |ts|
  {
    if ts != [] {
      StatusCountsPartition(ts[1..]);
    }
  }

  lemma StatusCountsBound(ts: seq<Task>)
    ensures |TasksWithStatus(ts, "todo")| + |TasksWithStatus(ts, "in-progress")|
      + |TasksWithStatus(ts, "done")| <= |ts|
  {
    StatusCountsPartition(ts);
  }

  /** The three counts add up to the total exactly when every status is one of the three. */
  lemma StatsAddUp(ts: seq<Task>)
    ensures (var st := Stats(ts); st.todo + st.inProgress + st.done == st.total)
      <==> forall t :: t in ts ==> t.status in Statuses
  {
    StatusCountsPartition(ts);
    if forall t :: t in ts ==> t.status in Statuses {
      FilterNone(ts, (t: Task) => t.status !in Statuses);
    } else {
      var t :| t in ts && t.status !in Statuses;
      assert t in Unlisted(ts);
    }
  }

  lemma {:induction false} FilterNone(ts: seq<Task>, keep: Task -> bool)
    requires forall t :: t in ts ==> !keep(t)
    ensures Filter(ts, keep) == []
  {
    if ts != [] {
      FilterNone(ts[1..], keep);
    }
  }

  // ---------------------------------------------------------------------------
  // Defaults and partial updates
  // ---------------------------------------------------------------------------

  /** `value || fallback` for a string: an absent or empty string gives the fallback. */
  function OrDefault(value: Option<string>, fallback: string): (r: string)
    ensures value.Some? && value.value != "" ==> r == value.value
    ensures value.None? || value.value == "" ==> r == fallback
  {
    if value.Some? && value.value != "" then value.value else fallback
  }

  /** `task` after `updateTask` has written the fields that `patch` defines. */
  function Patched(task: Task, patch: Fields): Task {
    task.(
      title := patch.title.GetOr(task.title),
      description := patch.description.GetOr(task.description),
      status := patch.status.GetOr(task.status),
      priority := patch.priority.GetOr(task.priority))
  }

  /** A patch never touches the id or the creation time, and writes exactly the fields it defines. */
  lemma PatchedFields(task: Task, patch: Fields)
    ensures var p := Patched(task, patch);
      p.id == task.id && p.createdAt == task.createdAt &&
      (p.title == if patch.title.Some? then patch.title.value else task.title) &&
      (p.description == if patch.description.Some? then patch.description.value else task.description) &&
      (p.status == if patch.status.Some? then patch.status.value else task.status) &&
      (p.priority == if patch.priority.Some? then patch.priority.value else task.priority)
  {
  }

  /** Applying the same patch twice is applying it once; an empty patch changes nothing. */
  lemma PatchedIdempotent(task: Task, patch: Fields)
    ensures Patched(Patched(task, patch), patch) == Patched(task, patch)
    ensures Patched(task, Fields(None, None, None, None)) == task
  {
  }

  // ---------------------------------------------------------------------------
  // The store's invariant
  // ---------------------------------------------------------------------------

  /** Ids are positive, strictly increasing in list order (so distinct) and below `bound`. */
  predicate IdsOrdered(ts: seq<Task>, bound: nat) {
    (forall i, j :: 0 <= i < j < |ts| ==> ts[i].id < ts[j].id) &&
    (forall i :: 0 <= i < |ts| ==> 0 < ts[i].id < bound)
  }

  /** Under ordered ids, the task `FindTask` returns is the only one with that id. */
  lemma FindUnique(ts: seq<Task>, bound: nat, i: nat)
    requires IdsOrdered(ts, bound) && i < |ts|
    ensures FindIndex(ts, ts[i].id) == Some(i)
    ensures FindTask(ts, ts[i].id) == Some(ts[i])
  {
  }

  /** Removing one entry keeps the remaining ids ordered. */
  lemma RemovePreservesOrder(ts: seq<Task>, bound: nat, i: nat)
    requires IdsOrdered(ts, bound) && i < |ts|
    ensures IdsOrdered(ts[..i] + ts[i + 1..], bound)
    ensures FindTask(ts[..i] + ts[i + 1..], ts[i].id) == None
  {
    var r := ts[..i] + ts[i + 1..];
    assert forall k :: 0 <= k < |r| ==> r[k] == if k < i then ts[k] else ts[k + 1];
  }

  /** The four tasks the board starts with (data/tasks.js, lines 6-39). */
  function SeedTasks(): seq<Task> {
    [
      Task(1, "Проанализировать требования", "Изучить требования проекта и создать план",
           "todo", "high", 1735689600000),
      Task(2, "Установить зависимости", "npm install express и другие пакеты",
           "in-progress", "high", 1735776000000),
      Task(3, "Создать базовый сервер", "Инициализировать Express приложение",
           "in-progress", "high", 1735776000000),
      Task(4, "Разработать API маршруты", "Создать GET, POST, PUT, DELETE маршруты",
           "done", "medium", 1735862400000)
    ]
  }

  /** The seed ids run from 1 to 4, so they are ordered and below 5. */
  lemma SeedIds()
    ensures |SeedTasks()| == 4
    ensures forall i :: 0 <= i < 4 ==> SeedTasks()[i].id == i + 1
    ensures IdsOrdered(SeedTasks(), 5)
  {
  }

  // ---------------------------------------------------------------------------
  // The store
  // ---------------------------------------------------------------------------

  class Store {
    var tasks: seq<Task>
    var nextId: nat
    /** Every id the store has ever handed out, including those of deleted tasks. */
    ghost var Issued: set<nat>

    ghost predicate Valid()
      reads this
    {
      0 < nextId && IdsOrdered(tasks, nextId) &&
      (forall i :: 0 <= i < |tasks| ==> tasks[i].id in Issued) &&
      (forall n :: n in Issued ==> 0 < n < nextId)
    }

    /** The module's initial state: the seed tasks with ids 1 to 4 and `nextId = 5`. */
    constructor ()
      ensures Valid()
      ensures tasks == SeedTasks() && nextId == 5 && Issued == {1, 2, 3, 4}
    {
      SeedIds();
      tasks := SeedTasks();
      nextId := 5;
      Issued := {1, 2, 3, 4};
    }

    /** `getAllTasks`: a copy of the list, in insertion order. */
    method GetAllTasks() returns (r: seq<Task>)
      ensures r == tasks
    {
      r := tasks;
    }

    /** `getTaskById` */
    method GetTaskById(id: nat) returns (r: Option<Task>)
      ensures r == FindTask(tasks, id)
    {
      r := FindTask(tasks, id);
    }

    /** `getTasksByStatus` */
    method GetTasksByStatus(status: string) returns (r: seq<Task>)
      ensures r == TasksWithStatus(tasks, status)
    {
      r := TasksWithStatus(tasks, status);
    }

    /** `getBoardStats` */
    method GetBoardStats() returns (r: BoardStats)
      ensures r == Stats(tasks)
    {
      r := Stats(tasks);
    }

    /**
     * `createTask`: the new task takes `nextId`, which then goes up by one; an
     * absent or empty description, status or priority gets its default; the task
     * is appended and returned.
     */
    method CreateTask(title: string, description: Option<string>, status: Option<string>,
                      priority: Option<string>, now: Timestamp) returns (t: Task)
      requires Valid()
      modifies this
      ensures Valid()
      ensures t == Task(old(nextId), title, OrDefault(description, ""), OrDefault(status, "todo"),
                        OrDefault(priority, "medium"), now)
      ensures tasks == old(tasks) + [t]
      ensures nextId == old(nextId) + 1
      ensures t.id !in old(Issued) && Issued == old(Issued) + {t.id}
      ensures forall u :: u in old(tasks) ==> u.id < t.id
    {
      t := Task(nextId, title, OrDefault(description, ""), OrDefault(status, "todo"),
                OrDefault(priority, "medium"), now);
      Issued := Issued + {nextId};
      nextId := nextId + 1;
      tasks := tasks + [t];
    }

    /**
     * `updateTask`: when a task has the id, the first such task gets the fields
     * `patch` defines and is returned; otherwise nothing changes and nothing is
     * returned.
     */
    method UpdateTask(id: nat, patch: Fields) returns (r: Option<Task>)
      requires Valid()
      modifies this
      ensures Valid()
      ensures nextId == old(nextId) && Issued == old(Issued)
      ensures match FindIndex(old(tasks), id)
        case None => r == None && tasks == old(tasks)
        case Some(i) =>
          tasks == old(tasks)[i := Patched(old(tasks)[i], patch)] && r == Some(tasks[i])
    {
      var found := FindIndex(tasks, id);
      match found
      case None =>
        r := None;
      case Some(i) =>
        var task := Patched(tasks[i], patch);
        tasks := tasks[i := task];
        r := Some(task);
    }

    /**
     * `deleteTask`: when a task has the id, that entry is spliced out and
     * returned; otherwise nothing changes and nothing (`false`) is returned.
     * Afterwards no task has the id, and `nextId` is untouched.
     */
    method DeleteTask(id: nat) returns (r: Option<Task>)
      requires Valid()
      modifies this
      ensures Valid()
      ensures nextId == old(nextId) && Issued == old(Issued)
      ensures match FindIndex(old(tasks), id)
        case None => r == None && tasks == old(tasks)
        case Some(i) => r == Some(old(tasks)[i]) && tasks == old(tasks)[..i] + old(tasks)[i + 1..]
      ensures FindTask(tasks, id) == None
    {
      var found := FindIndex(tasks, id);
      match found
      case None =>
        r := None;
      case Some(i) =>
        r := Some(tasks[i]);
        RemovePreservesOrder(tasks, nextId, i);
        tasks := tasks[..i] + tasks[i + 1..];
        assert forall k :: 0 <= k < |tasks| ==> tasks[k] in old(tasks);
    }
  }
}
