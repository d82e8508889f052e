# Task board: a Dafny model

This project models the core of a small task-board web application. It covers three parts:

- the in-memory task store (`data/tasks.js`). This is a list of task records in insertion order and a counter that hands out the next id. It supports list, filter by status, find by id, create with defaults, partial update in place, delete, and board statistics.
- the request handlers (`controllers/taskController.js`). Each handler checks the id format (`/^\d+$/`), the title, the status and the priority, and whether the target exists, always in the same order. It answers with a status code (200, 201, 400 or 404) and a JSON payload, and makes at most one call that changes the store.
- the countdown timer (`src/App.js`). This is the `mm:ss` display (`formatTime`) and the state `(remaining, running)` that Start, Pause, Reset and the one-second tick change.

Files and modules:

| file | module | models |
|---|---|---|
| `wrappers.dfy` | `Wrappers` | `Option`, which stands for `undefined` / `null` / `false` |
| `text.dfy` | `Text` | the JavaScript built-ins the core uses: `trim`, `/^\d+$/`, `parseInt`, `String(n)`, `padStart` |
| `tasks.dfy` | `TaskStore` | `data/tasks.js`: the `Task` record, pure read functions, and the class `Store` (fields `tasks: seq<Task>` and `nextId: nat`, plus a ghost set `Issued` of every id handed out) |
| `task_controller.dfy` | `TaskController` | `controllers/taskController.js`: the validation predicates and one method per handler over a `Store`, each returning a `Response(code, payload)` |
| `app.dfy` | `CountdownTimer` | `src/App.js`: `FormatTime`, its inverse `ParseTime`, and the class `Timer` |
| `board_scenarios.dfy` | `BoardScenarios` | request sequences checked only from the handlers' contracts: the defaults, the check order, both quirks below, and delete-then-get |

The store's invariant `Store.Valid()` has three parts:

- ids are positive and strictly increasing in list order, so they are distinct;
- every id is below `nextId`;
- every id ever issued, including the ids of deleted tasks, is below `nextId`.

The seed state (ids 1 to 4, `nextId = 5`) satisfies it, and every store method keeps it.

Three behaviours of the code are modelled as written:

- Status and priority are validated with `status && …`, so an empty string passes. On update it is stored (`controllers/taskController.js:122`, `:130`, `:139-140`). A task's status is therefore not always one of the three values. What the handlers preserve is `TaskController.WithinEnums`: a listed value or `""`.
- Update never checks that the title is non-empty. A whitespace-only title is trimmed to `""` and stored (`controllers/taskController.js:137`).
- Because of the first point, `todo + in-progress + done` can be less than `total` (`TaskController.EmptiedStatusUncounted`). It equals `total` exactly when every status is listed (`TaskStore.StatsAddUp`, both directions).

## Model

| member | source | states |
|---|---|---|
| `TaskStore.Store.constructor` | data/tasks.js:6-41 | the store starts with the four seed tasks, `nextId = 5` and the invariant (ids distinct, positive, below `nextId`) holding |
| `TaskStore.SeedIds` | data/tasks.js:6-41 | the seed ids are 1, 2, 3, 4 in order, so they are strictly increasing and below 5 |
| `TaskStore.Store.GetAllTasks` | data/tasks.js:46-48 | returns the whole list in insertion order |
| `TaskStore.FindIndex` | data/tasks.js:99-100 | `findIndex`: a found position holds the id and no earlier position does; when nothing is found, no task has the id |
| `TaskStore.FindTask` | data/tasks.js:53-55 | `find` returns a task exactly when some task has the id, and what it returns is in the list and has that id |
| `TaskStore.FindUnique` | data/tasks.js:53-55 | under the store's invariant, the task with a given id is at one position only, and lookup finds that position |
| `TaskStore.Store.GetTaskById` | data/tasks.js:53-55 | returns the first task whose id equals the number, or nothing |
| `TaskStore.Filter` | data/tasks.js:60-62 | `filter` keeps exactly the tasks the predicate accepts (membership in both directions) and never lengthens the list |
| `TaskStore.FilterCounts` | data/tasks.js:60-62 | each accepted task is kept as often as it occurs in the list, a rejected one not at all, so the result is a sub-multiset of the list |
| `TaskStore.FilterIsSubsequence` | data/tasks.js:60-62 | a filter keeps the original order: its result is a subsequence of the list |
| `TaskStore.TasksWithStatus` | data/tasks.js:60-62 | a task is in the result exactly when it is in the list and has that status |
| `TaskStore.Store.GetTasksByStatus` | data/tasks.js:60-62 | returns the order-preserving selection of the tasks with equal status |
| `TaskStore.OrDefault` | data/tasks.js:71-73 | `value \|\| fallback`: a present, non-empty value is kept; an absent or empty value gives the fallback |
| `TaskStore.Store.CreateTask` | data/tasks.js:67-78 | the new task has id `old nextId`, which is not among the ids ever issued and is above every existing id. `nextId` goes up by one. Description, status and priority default to `''`, `'todo'`, `'medium'`. The task is appended and all earlier tasks stay unchanged and in order |
| `TaskStore.PatchedFields` | data/tasks.js:87-90 | a patch writes exactly the fields it defines and never changes `id` or `createdAt` |
| `TaskStore.PatchedIdempotent` | data/tasks.js:83-93 | applying a patch twice equals applying it once, and an empty patch changes nothing |
| `TaskStore.Store.UpdateTask` | data/tasks.js:83-93 | unknown id: returns nothing and changes nothing. Otherwise only the first task with the id is patched, it is returned, the other tasks and `nextId` are unchanged, and the invariant holds |
| `TaskStore.RemovePreservesOrder` | data/tasks.js:98-105 | splicing out one entry keeps the ids ordered, and no remaining task has the removed id |
| `TaskStore.Store.DeleteTask` | data/tasks.js:98-105 | unknown id: returns nothing and changes nothing. Otherwise removes exactly that entry and returns it, the rest keeps its order, and `nextId` is unchanged. Afterwards no task has the id |
| `TaskStore.Stats` | data/tasks.js:110-118 | `total` is the list length, `highPriority <= total`, and `todo + in-progress + done <= total` |
| `TaskStore.StatusCountsPartition` | data/tasks.js:112-115 | each task is counted under exactly one of the three statuses, or among the tasks whose status is unlisted |
| `TaskStore.StatsAddUp` | data/tasks.js:110-118 | `todo + in-progress + done == total` holds exactly when every task's status is one of the three (both directions) |
| `TaskStore.Store.GetBoardStats` | data/tasks.js:110-118 | returns the statistics of the current list |
| `TaskController.SeedWithinEnums` | data/tasks.js:6-39 | every seed task has a listed status and a listed priority |
| `TaskController.EmptiedStatusUncounted` | data/tasks.js:112-115 | a task with the empty status counts towards `total` but under no status |
| `TaskController.GetAllTasks` | controllers/taskController.js:11-33 | a truthy filter outside the three statuses gives 400. A listed filter gives 200 with exactly the tasks of that status. An absent or empty filter gives 200 with all tasks. On success `count` is the length of the list |
| `TaskController.GetTaskById` | controllers/taskController.js:38-56 | an id that is not all digits gives 400. An unknown id gives 404 with the id in the message. Otherwise 200 with the task that has that number |
| `TaskController.CreateTask` | controllers/taskController.js:61-98 | the checks run in order: missing or blank title, then a truthy status outside the enum, then a truthy priority outside the enum; each failure gives 400 and creates nothing. Otherwise 201 with a new task: trimmed title, trimmed description or `''`, defaulted status and priority, a fresh id. The store invariant and `WithinEnums` are kept |
| `TaskController.UpdateTask` | controllers/taskController.js:103-148 | a malformed id gives 400. An unknown id gives 404, even when the status or priority is bad. Then a bad status or a bad priority gives 400. In every error case the list is unchanged. On success only the fields present in the body are written (title and description trimmed, an empty status or priority stored as `""`), and the answer is 200 with the updated task |
| `TaskController.DeleteTask` | controllers/taskController.js:153-174 | a malformed id gives 400. An absent id gives 404 and changes nothing. Otherwise 200 with the removed task, and the rest is unchanged in order. Afterwards no task has the id |
| `TaskController.GetBoardStats` | controllers/taskController.js:179-182 | always 200 with the statistics of the current list, whose total is its length |
| `Text.Trim` | controllers/taskController.js:65 | `trim` cuts only whitespace from the two ends, and what remains neither starts nor ends with whitespace |
| `Text.TrimEmptyIff` | controllers/taskController.js:65 | a string trims to `''` exactly when it is whitespace only |
| `Text.TrimUnpadded` | controllers/taskController.js:88 | a string with no whitespace at either end is its own trim |
| `Text.TrimIdempotent` | controllers/taskController.js:137-138 | trimming a trimmed string changes nothing |
| `Text.NatToString` | src/App.js:5-6 | `String(n)` is a non-empty string of decimal digits with no leading zero, one digit exactly when `n < 10`, at most two when `n < 100` |
| `Text.ParseNatToString` | data/tasks.js:54 | `parseInt(String(n)) == n` |
| `Text.PadStart` | src/App.js:5-6 | `padStart(2, '0')`: the result is at least the target width, ends with the original string, and is filled in front with the fill character |
| `Text.ParseLeadingZeros` | src/App.js:5-6 | zeros put in front of a digit string do not change the value it reads as |
| `CountdownTimer.TwoDigitsValue` | src/App.js:5-6 | a padded field is all digits, reads back as its number, and is exactly two characters for a number below 100 |
| `CountdownTimer.FormatTimeRoundTrip` | src/App.js:3-8 | `formatTime(sec)` is `mm:ss`: the minutes are at least two digits, the seconds exactly two digits below 60, and `mm * 60 + ss` is `max(0, sec)`; below 100 minutes the display is exactly five characters |
| `CountdownTimer.FormatTimeNegative` | src/App.js:4 | a negative input shows as `00:00` |
| `CountdownTimer.AfterTicksValue` | src/App.js:20-29 | `n` ticks from `remaining` leave `max(remaining - n, 0)`: one second per tick, never below zero |
| `CountdownTimer.Timer.constructor` | src/App.js:12-13 | the timer starts with nothing left and not running |
| `CountdownTimer.Timer.Start` | src/App.js:36-44 | with nothing left, the clamped input is loaded. If the input and what was left are both 0, the timer does not start. With time left, it resumes without reloading. A running timer always has time left |
| `CountdownTimer.Timer.Pause` | src/App.js:46-50 | stops the timer and leaves `remaining` unchanged |
| `CountdownTimer.Timer.Reset` | src/App.js:52-57 | stops the timer and sets `remaining` to 0 |
| `CountdownTimer.Timer.Tick` | src/App.js:20-29 | at 1 second or less, `remaining` becomes 0 and the timer stops. Otherwise exactly one second comes off and `running` is unchanged |
| `CountdownTimer.Timer.Display` | src/App.js:62 | the rendered `formatTime(remaining)` reads back as exactly the seconds left |

## Left out

- HTTP plumbing is not modelled: the Express app (`server.js`), static file serving, the catch-all 404 with its literal route list, and the logging middleware (`middleware/logging.js`). These are framework set-up and console output.
- Route dispatch (`routes/tasks.js`) is not modelled. That `GET /tasks/stats` is matched before `GET /tasks/:id` is an assumption about Express's matching order. Were `stats` to reach `GetTaskById`, it would get 400, since it is not all digits.
- The browser client (`public/script.js`) and the React mounting (`src/index.js`) are not modelled: they are DOM, `fetch`, timers and dialogs.
- Creation time is not computed: `new Date()` becomes the parameter `now`. The seed dates are their millisecond values, and timestamps are only copied.
- `parseInt` precision: ids are unbounded naturals, so very long digit strings are read exactly, not rounded as JavaScript numbers are.
- `Number(input) || 0` (src/App.js:38) is not modelled. `Timer.Start` takes the input as an integer: fractional seconds and the NaN-to-0 step are the caller's.
- Non-string body or query values are not modelled: JSON `null`, numbers, arrays, or a repeated query key, on which `.trim()` throws or `includes` compares differently. Body fields are `Option<string>`.
- `TaskStore.Store.CreateTask`: takes the title as a string. The store's `taskData.title` could be `undefined` in JavaScript, but its only caller always passes a trimmed string.
- Object identity is not modelled: tasks are values. In the source, `getAllTasks` returns a new array of the same task objects, so a later update is visible through an earlier snapshot and through a task returned earlier.
- `intervalRef`, `setInterval` / `clearInterval`, `window.alert` and React's effect scheduling are not modelled. `Timer.Start` applies its two state updates together, as one render would. `Timer.Tick` is the interval's updater, without the precondition that an interval exists.
- Concurrency is not modelled: requests are handled one at a time, to completion.
