/**
 * The request handlers of controllers/taskController.js. Each handler runs a
 * fixed sequence of checks, answers with the first one that fails, and
 * otherwise makes at most one call that changes the store.
 */
module TaskController {
  import opened Wrappers
  import opened Text
  import opened TaskStore

  /** The JSON body of a response. */
  datatype Payload =
    | TaskList(count: nat, tasks: seq<Task>)
    | Single(task: Task)
    | Message(message: string, task: Task)
    | Statistics(stats: BoardStats)
    | Error(error: string)

  datatype Response = Response(code: nat, payload: Payload)

  const InvalidIdMessage := "Task ID must be a number"
  const MissingTitleMessage := "Title is required and cannot be empty"
  const InvalidStatusMessage := "Invalid status. Must be one of: todo, in-progress, done"
  const InvalidPriorityMessage := "Invalid priority. Must be one of: low, medium, high"
  const CreatedMessage := "Task created successfully"
  const UpdatedMessage := "Task updated successfully"
  const DeletedMessage := "Task deleted successfully"

  function NotFoundMessage(id: string): string {
    "Task with ID " + id + " not found"
  }

  // ---------------------------------------------------------------------------
  // Validation
  // ---------------------------------------------------------------------------

  /** JavaScript truthiness of an optional string: present and not empty. */
  predicate Truthy(value: Option<string>) {
    value.Some? && value.value != ""
  }

  /** `!title || title.trim() === ''` */
  predicate MissingTitle(title: Option<string>) {
    !Truthy(title) || Trim(title.value) == ""
  }

  /** `status && !validStatuses.includes(status)`: an absent or empty status is let through. */
  predicate RejectedStatus(status: Option<string>) {
    Truthy(status) && status.value !in Statuses
  }

  /** `priority && !validPriorities.includes(priority)` */
  predicate RejectedPriority(priority: Option<string>) {
    Truthy(priority) && priority.value !in Priorities
  }

  /** An optional string, trimmed when present. */
  function TrimmedOption(value: Option<string>): Option<string> {
    match value
    case None => None
    case Some(s) => Some(Trim(s))
  }

  /** What an update can leave in a task: a listed status or priority, or the empty string. */
  predicate WithinEnums(ts: seq<Task>) {
    forall t :: t in ts ==>
      (t.status in Statuses || t.status == "") && (t.priority in Priorities || t.priority == "")
  }

  lemma SeedWithinEnums()
    ensures WithinEnums(SeedTasks())
    ensures forall t :: t in SeedTasks() ==> t.status in Statuses && t.priority in Priorities
  {
  }

  /**
   * A task whose status an update has emptied is in the total but under none of
   * the three statuses, so the three counts can add up to less than the total.
   */
  lemma EmptiedStatusUncounted(t: Task)
    requires t.status == ""
    ensures var st := Stats([t]); st.total == 1 && st.todo + st.inProgress + st.done == 0
  {
    assert [t][1..] == [];
  }

  // ---------------------------------------------------------------------------
  // Handlers
  // ---------------------------------------------------------------------------

  /**
   * GET /tasks: a truthy status filter outside the three statuses gives 400; a
   * listed one gives the tasks with that status; no filter (or an empty one)
   * gives every task. `count` is the length of the list returned.
   */
  method GetAllTasks(store: Store, status: Option<string>) returns (resp: Response)
    ensures RejectedStatus(status) ==> resp == Response(400, Error(InvalidStatusMessage))
    ensures Truthy(status) && !RejectedStatus(status) ==>
      var listed := TasksWithStatus(store.tasks, status.value);
      resp == Response(200, TaskList(|listed|, listed))
    ensures !Truthy(status) ==> resp == Response(200, TaskList(|store.tasks|, store.tasks))
    ensures resp.code == 200 ==> resp.payload.TaskList? && resp.payload.count == |resp.payload.tasks|
  {
    if Truthy(status) {
      if status.value !in Statuses {
        return Response(400, Error(InvalidStatusMessage));
      }
      var listed := store.GetTasksByStatus(status.value);
      return Response(200, TaskList(|listed|, listed));
    }
    var all := store.GetAllTasks();
    resp := Response(200, TaskList(|all|, all));
  }

  /** GET /tasks/:id: 400 unless the id is all digits, 404 when no task has it, else the task. */
  method GetTaskById(store: Store, id: string) returns (resp: Response)
    ensures !IsDigits(id) ==> resp == Response(400, Error(InvalidIdMessage))
    ensures IsDigits(id) ==> match FindTask(store.tasks, ParseDecimal(id))
      case None => resp == Response(404, Error(NotFoundMessage(id)))
      case Some(t) => resp == Response(200, Single(t)) && t.id == ParseDecimal(id)
  {
    if !IsDigits(id) {
      return Response(400, Error(InvalidIdMessage));
    }
    var task := store.GetTaskById(ParseDecimal(id));
    if task.None? {
      return Response(404, Error(NotFoundMessage(id)));
    }
    resp := Response(200, Single(task.value));
  }

  /**
   * POST /tasks: the title is checked first, then the status, then the
   * priority; the first failure gives 400 and creates nothing. Otherwise the
   * store receives the trimmed title, the trimmed description (or `''`) and the
   * status and priority as sent, and the answer is 201 with the new task.
   */
  method CreateTask(store: Store, body: Fields, now: Timestamp) returns (resp: Response)
    requires store.Valid()
    modifies store
    ensures store.Valid()
    ensures MissingTitle(body.title) ==> resp == Response(400, Error(MissingTitleMessage))
    ensures !MissingTitle(body.title) && RejectedStatus(body.status) ==>
      resp == Response(400, Error(InvalidStatusMessage))
    ensures !MissingTitle(body.title) && !RejectedStatus(body.status) && RejectedPriority(body.priority) ==>
      resp == Response(400, Error(InvalidPriorityMessage))
    ensures resp.code != 201 ==>
      store.tasks == old(store.tasks) && store.nextId == old(store.nextId) && store.Issued == old(store.Issued)
    ensures !MissingTitle(body.title) && !RejectedStatus(body.status) && !RejectedPriority(body.priority) ==>
      var t := Task(old(store.nextId), Trim(body.title.value),
                    if Truthy(body.description) then Trim(body.description.value) else "",
                    OrDefault(body.status, "todo"), OrDefault(body.priority, "medium"), now);
      resp == Response(201, Message(CreatedMessage, t)) &&
      store.tasks == old(store.tasks) + [t] && store.nextId == old(store.nextId) + 1 &&
      t.id !in old(store.Issued) && t.status in Statuses && t.priority in Priorities
    ensures WithinEnums(old(store.tasks)) ==> WithinEnums(store.tasks)
  {
    if !Truthy(body.title) || Trim(body.title.value) == "" {
      return Response(400, Error(MissingTitleMessage));
    }
    if Truthy(body.status) && body.status.value !in Statuses {
      return Response(400, Error(InvalidStatusMessage));
    }
    if Truthy(body.priority) && body.priority.value !in Priorities {
      return Response(400, Error(InvalidPriorityMessage));
    }
    var description := if Truthy(body.description) then Trim(body.description.value) else "";
    var task := store.CreateTask(Trim(body.title.value), Some(description), body.status, body.priority, now);
    resp := Response(201, Message(CreatedMessage, task));
  }

  /**
   * PUT /tasks/:id: 400 for an id that is not all digits, then 404 for an id no
   * task has (before the body is looked at), then 400 for a truthy status or
   * priority outside its list. Otherwise the fields present in the body (title
   * and description trimmed, status and priority as sent, the empty string
   * included) are written into the task, and the answer is 200 with it.
   */
  method UpdateTask(store: Store, id: string, body: Fields) returns (resp: Response)
    requires store.Valid()
    modifies store
    ensures store.Valid()
    ensures store.nextId == old(store.nextId) && store.Issued == old(store.Issued)
    ensures resp.code != 200 ==> store.tasks == old(store.tasks)
    ensures !IsDigits(id) ==> resp == Response(400, Error(InvalidIdMessage))
    ensures IsDigits(id) ==> match FindIndex(old(store.tasks), ParseDecimal(id))
      case None => resp == Response(404, Error(NotFoundMessage(id)))
      case Some(i) =>
        if RejectedStatus(body.status) then resp == Response(400, Error(InvalidStatusMessage))
        else if RejectedPriority(body.priority) then resp == Response(400, Error(InvalidPriorityMessage))
        else
          var patch := Fields(TrimmedOption(body.title), TrimmedOption(body.description), body.status, body.priority);
          store.tasks == old(store.tasks)[i := Patched(old(store.tasks)[i], patch)] &&
          resp == Response(200, Message(UpdatedMessage, store.tasks[i]))
    ensures WithinEnums(old(store.tasks)) ==> WithinEnums(store.tasks)
  {
    if !IsDigits(id) {
      return Response(400, Error(InvalidIdMessage));
    }
    var existing := store.GetTaskById(ParseDecimal(id));
    if existing.None? {
      return Response(404, Error(NotFoundMessage(id)));
    }
    if Truthy(body.status) && body.status.value !in Statuses {
      return Response(400, Error(InvalidStatusMessage));
    }
    if Truthy(body.priority) && body.priority.value !in Priorities {
      return Response(400, Error(InvalidPriorityMessage));
    }
    var data := Fields(None, None, None, None);
    if body.title.Some? { data := data.(title := Some(Trim(body.title.value))); }
    if body.description.Some? { data := data.(description := Some(Trim(body.description.value))); }
    if body.status.Some? { data := data.(status := body.status); }
    if body.priority.Some? { data := data.(priority := body.priority); }
    ghost var before := store.tasks;
    var updated := store.UpdateTask(ParseDecimal(id), data);
    assert forall t :: t in store.tasks ==> t in before || t == updated.value;
    resp := Response(200, Message(UpdatedMessage, updated.value));
  }

  /**
   * DELETE /tasks/:id: 400 for an id that is not all digits, 404 when no task
   * has it, otherwise that task is removed and returned with 200. Either way no
   * task has the id afterwards.
   */
  method DeleteTask(store: Store, id: string) returns (resp: Response)
    requires store.Valid()
    modifies store
    ensures store.Valid()
    ensures store.nextId == old(store.nextId) && store.Issued == old(store.Issued)
    ensures resp.code != 200 ==> store.tasks == old(store.tasks)
    ensures !IsDigits(id) ==> resp == Response(400, Error(InvalidIdMessage))
    ensures IsDigits(id) ==> match FindIndex(old(store.tasks), ParseDecimal(id))
      case None => resp == Response(404, Error(NotFoundMessage(id)))
      case Some(i) =>
        resp == Response(200, Message(DeletedMessage, old(store.tasks)[i])) &&
        store.tasks == old(store.tasks)[..i] + old(store.tasks)[i + 1..]
    ensures IsDigits(id) ==> FindTask(store.tasks, ParseDecimal(id)) == None
    ensures WithinEnums(old(store.tasks)) ==> WithinEnums(store.tasks)
  {
    if !IsDigits(id) {
      return Response(400, Error(InvalidIdMessage));
    }
    ghost var before := store.tasks;
    var deleted := store.DeleteTask(ParseDecimal(id));
    assert forall t :: t in store.tasks ==> t in before;
    if deleted.None? {
      return Response(404, Error(NotFoundMessage(id)));
    }
    resp := Response(200, Message(DeletedMessage, deleted.value));
  }

  /** GET /tasks/stats: always 200 with the board statistics. */
  method GetBoardStats(store: Store) returns (resp: Response)
    ensures resp == Response(200, Statistics(Stats(store.tasks)))
    ensures resp.payload.stats.total == |store.tasks|
  {
    var stats := store.GetBoardStats();
    resp := Response(200, Statistics(stats));
  }
}
