/**
 * Request sequences against the seeded board and the timer, checked from the
 * handlers' and the timer's contracts alone.
 */
module BoardScenarios {
  import opened Wrappers
  import opened Text
  import opened TaskStore
  import opened TaskController
  import opened CountdownTimer

  /** POST /api/tasks {title: "X"}: 201, the title, the defaults and the next id. */
  method CreateWithDefaults() {
    var store := new Store();
    TrimUnpadded("X");
    var body := Fields(Some("X"), None, None, None);
    assert !MissingTitle(body.title) && !RejectedStatus(body.status) && !RejectedPriority(body.priority);
    var r := CreateTask(store, body, 0);
    assert r == Response(201, Message(CreatedMessage, Task(5, "X", "", "todo", "medium", 0)));
  }

  /** A blank title is reported even when the status is bad too. */
  method TitleCheckedFirst() {
    var store := new Store();
    TrimEmptyIff(" \t");
    var r := CreateTask(store, Fields(Some(" \t"), None, Some("urgent"), None), 0);
    assert r == Response(400, Error(MissingTitleMessage));
  }

  /** PUT /api/tasks/:id {status: "done"} on any task: only its status changes. */
  method UpdateStatusOnly(store: Store, i: nat)
    requires store.Valid() && i < |store.tasks|
    modifies store
  {
    var task := store.tasks[i];
    ParseNatToString(task.id);
    FindUnique(store.tasks, store.nextId, i);
    var r := UpdateTask(store, NatToString(task.id), Fields(None, None, Some("done"), None));
    assert r == Response(200, Message(UpdatedMessage, task.(status := "done")));
  }

  /** PUT /api/tasks/:id {status: ""}: the empty status passes validation and is stored. */
  method UpdateEmptyStatus(store: Store, i: nat)
    requires store.Valid() && i < |store.tasks|
    modifies store
  {
    var task := store.tasks[i];
    ParseNatToString(task.id);
    FindUnique(store.tasks, store.nextId, i);
    var r := UpdateTask(store, NatToString(task.id), Fields(None, None, Some(""), None));
    assert r.code == 200 && r.payload.task.status == "" && store.tasks[i].status == "";
  }

  /** PUT /api/tasks/:id {title: "   "}: the title becomes empty. */
  method UpdateBlankTitle(store: Store, i: nat)
    requires store.Valid() && i < |store.tasks|
    modifies store
  {
    var task := store.tasks[i];
    ParseNatToString(task.id);
    FindUnique(store.tasks, store.nextId, i);
    TrimEmptyIff("   ");
    var r := UpdateTask(store, NatToString(task.id), Fields(Some("   "), None, None, None));
    assert r.code == 200 && r.payload.task.title == "" && store.tasks[i].title == "";
  }

  /** PUT /api/tasks/42 {status: "urgent"}: the unknown id is reported, not the status. */
  method UnknownIdBeforeStatus() {
    var store := new Store();
    assert ParseDecimal("42") == 42;
    var r := UpdateTask(store, "42", Fields(None, None, Some("urgent"), None));
    assert r == Response(404, Error(NotFoundMessage("42")));
  }

  /** GET /api/tasks/abc: 400. */
  method NonNumericId() {
    var store := new Store();
    var r := GetTaskById(store, "abc");
    assert r == Response(400, Error(InvalidIdMessage));
  }

  /** GET /api/tasks?status=urgent: 400. */
  method UnknownStatusFilter() {
    var store := new Store();
    var r := GetAllTasks(store, Some("urgent"));
    assert r == Response(400, Error(InvalidStatusMessage));
  }

  /** DELETE /api/tasks/999: 404, and the board is as it was. */
  method DeleteUnknown() {
    var store := new Store();
    assert "999"[..2] == "99" && "99"[..1] == "9";
    assert ParseDecimal("999") == 999;
    assert FindIndex(store.tasks, 999) == None;
    var r := DeleteTask(store, "999");
    assert r == Response(404, Error(NotFoundMessage("999")));
    assert store.tasks == SeedTasks();
  }

  /** DELETE /api/tasks/:id on any task removes it, after which GET /api/tasks/:id is 404. */
  method DeleteThenGet(store: Store, i: nat)
    requires store.Valid() && i < |store.tasks|
    modifies store
  {
    var task := store.tasks[i];
    var id := NatToString(task.id);
    ParseNatToString(task.id);
    FindUnique(store.tasks, store.nextId, i);
    var r := DeleteTask(store, id);
    assert r == Response(200, Message(DeletedMessage, task));
    r := GetTaskById(store, id);
    assert r == Response(404, Error(NotFoundMessage(id)));
  }

  /** After task 4 is deleted, the next task gets id 5: the id 4 is not handed out again. */
  method DeletedIdNotReused() {
    var store := new Store();
    var gone := store.DeleteTask(4);
    assert gone.Some? && store.nextId == 5;
    var t := store.CreateTask("Y", None, None, None, 1);
    assert t.id == 5 && 4 in store.Issued;
  }

  /** Start with nothing to count does not run; a pause keeps the time; the last tick stops. */
  method TimerWalkThrough() {
    var timer := new Timer();
    timer.Start(0);
    assert !timer.running;
    timer.Start(2);
    assert timer.running && timer.remaining == 2;
    timer.Tick();
    timer.Pause();
    timer.Start(60);
    assert timer.running && timer.remaining == 1;
    assert ParseTime(timer.Display()) == Some(1);
    timer.Tick();
    assert !timer.running && timer.remaining == 0;
  }
}
