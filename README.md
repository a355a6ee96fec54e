# Task store and its CRUD handlers

This project models the in-memory task store of a small task-management
HTTP service and the request handlers that read and change it. The store
is an ordered list of `Task` records (`task_id`, `task_name`, `task_desc`,
`is_finished`), seeded with three rows (ids 1, 2, 3, none finished).
Every lookup is a linear scan that stops at the first record carrying the
requested id.

The handlers come in three copies:

- **Version 1** (`Lab4/apiv2.py`). Failures come back as an error message in
  an ordinary response. Update and delete treat a path id of `0` as "not
  provided", because the source tests it for truthiness.
- **Version 2** (`Lab4/apiv2.py`). Failures are HTTP 400 and 404 errors.
  Create refuses a duplicate id first and a non-positive id second. Update
  tests the body's id inside the scan, after every record that does not
  match.
- **`lab2/main.py`**. An earlier standalone copy of the version 1 handlers,
  working on its own list.

Layout:

- `task_store.dfy` (module `TaskStore`) holds the record and outcome
  datatypes, the seed and the scans (`FindFirst` and `FindTaskById`). It
  also holds the list operations: `RemoveAt`, and `RemoveFirst`, which
  models Python's `list.remove`.
- `handlers.dfy` (module `Handlers`) has one pure function per handler. Each
  gives the handler's answer and the store it leaves behind. Its `ensures`
  clauses say what the handler promises.
- `lab4_api.dfy` (module `Lab4Api`) and `lab2_main.dfy` (module `Lab2Main`)
  each have a class that holds the list as a field. Each handler is a method
  that runs the source's loop, early return and in-place change. Each method
  is proved to give exactly what its `Handlers` function describes. The
  `lab2` copy is proved against the same functions as version 1, so the two
  copies behave the same.
- `scenarios.dfy` (module `Scenarios`) has properties that link several
  requests: create then read, delete then read, update then read, which
  operations keep ids distinct, how version 1 compares with version 2, and
  the concrete scenario on the seeded store.

Outcomes are abstract constructors. `Ok(task)` is a read, updated or removed
record. `Created` is a successful create. `Err(f)` is a failure, where `f`
names the version 1 message or the version 2 HTTP error (`BadRequest(detail)`
for 400, `NotFound404` for 404).

## Model

| member | source | states |
|---|---|---|
| `TaskStore.Seed` | Lab4/apiv2.py:17-21 | the `task_db` literal of both files (also lab2/main.py:18-22); its three rows start out with distinct ids |
| `TaskStore.HasId` | Lab4/apiv2.py:64 | the `any(u['task_id'] == task.task_id for u in task_db)` duplicate test of every create (also Lab4/apiv2.py:125, lab2/main.py:49); true exactly when some element of the store carries the id |
| `TaskStore.FindFirst` | Lab4/apiv2.py:79-83 | the `enumerate` scan stops at the first index whose record carries the id (no earlier record does), and runs off the end exactly when no record carries it |
| `TaskStore.FindTaskById` | Lab4/apiv2.py:32-33 | `find_task_by_id` gives the first record carrying the id, and None exactly when no record carries it |
| `TaskStore.RemoveAt` | Lab4/apiv2.py:104 | removing one position shortens the list by one and keeps the records before and after it in their order |
| `TaskStore.RemoveFirst` | Lab4/apiv2.py:104 | Python's `list.remove` by value (also Lab4/apiv2.py:150, lab2/main.py:89); its own contract gives only that the list shrinks by one, and `RemoveFirstIsRemoveAt` fixes which position it removes |
| `TaskStore.RemoveFirstIsRemoveAt` | Lab4/apiv2.py:104 | when `i` is the first position holding a value equal to `x`, `list.remove(x)` removes exactly position `i` and keeps every other record in order |
| `TaskStore.RemoveFirstAtFirstMatch` | Lab4/apiv2.py:103-104 | removing the found record by value (`remove(u)`) is the same as removing it at the scan's index, because no earlier record can equal it |
| `TaskStore.SeedShape` | lab2/main.py:18-22 | the seeded store is exactly three records with ids 1, 2, 3 in that order, none finished |
| `Handlers.V1Read` | Lab4/apiv2.py:41-57 | no `task_no` gives "need task id"; `task_no < 1` gives "lower than 1" whatever the store holds; otherwise the first match, or "cannot found" exactly when no record has the id |
| `Handlers.V1Create` | Lab4/apiv2.py:61-71 | succeeds exactly when no record has the id, and the new store is then the old one with the task at its end; a duplicate gives "already existing" and leaves the store alone |
| `Handlers.V1Update` | Lab4/apiv2.py:75-91 | path id 0 gives not-found even if a record with id 0 exists; otherwise it succeeds exactly when some record has the id, and then the first match is overwritten by the body and nothing else changes; length is always kept |
| `Handlers.V1Delete` | Lab4/apiv2.py:95-108 | path id 0 gives not-found; otherwise it succeeds exactly when some record has the id, returns the first match and removes just that position (length drops by one); a miss leaves the store alone |
| `Handlers.V2Get` | Lab4/apiv2.py:113-118 | the first match when some record has the id, otherwise 404 |
| `Handlers.V2Create` | Lab4/apiv2.py:121-133 | a duplicate id is a 400 "already existing" even when it is not positive; a fresh non-positive id is a 400 "invalid task number"; it succeeds exactly when the id is fresh and positive, and then appends at the end |
| `Handlers.V2Update` | Lab4/apiv2.py:136-144 | it succeeds exactly when a first match exists and is at index 0 or the body's id is positive, and then that record becomes the body; it gives 400 exactly when the body's id is not positive and some non-matching record comes before any match; it gives 404 exactly when no record matches and the store is empty or the body's id is positive; failures leave the store alone |
| `Handlers.V2Delete` | Lab4/apiv2.py:146-154 | it succeeds exactly when some record has the id, and then returns the first match and removes just that position; a miss is a 400 for an id `<= 0` and a 404 otherwise, with the store left alone |
| `Lab4Api.TaskApi.constructor` | Lab4/apiv2.py:17-21 | the store starts as the three seeded rows |
| `Lab4Api.TaskApi.ReadUsers` | Lab4/apiv2.py:41-57 | the loop with its early returns answers as `V1Read` on the current store |
| `Lab4Api.TaskApi.CreateTask` | Lab4/apiv2.py:61-71 | the answer and new store are those of `V1Create` on the old store |
| `Lab4Api.TaskApi.UpdateTask` | Lab4/apiv2.py:75-91 | the field-by-field overwrite inside the `enumerate` loop gives the answer and new store of `V1Update` |
| `Lab4Api.TaskApi.DeleteTask` | Lab4/apiv2.py:95-108 | the scan followed by `remove(u)` gives the answer and new store of `V1Delete` |
| `Lab4Api.TaskApi.GetTaskV2` | Lab4/apiv2.py:113-118 | the answer is `V2Get` on the current store, which is not changed |
| `Lab4Api.TaskApi.CreateTaskV2` | Lab4/apiv2.py:121-133 | the answer and new store are those of `V2Create` |
| `Lab4Api.TaskApi.UpdateTaskV2` | Lab4/apiv2.py:136-144 | the loop, which tests the body's id after each non-matching record, gives the answer and new store of `V2Update` |
| `Lab4Api.TaskApi.DeleteTaskV2` | Lab4/apiv2.py:146-154 | `find_task_by_id` followed by `remove(task)` gives the answer and new store of `V2Delete` |
| `Lab2Main.TaskApp.constructor` | lab2/main.py:18-22 | the store starts as the three seeded rows |
| `Lab2Main.TaskApp.ReadUsers` | lab2/main.py:26-42 | the loop with its early returns answers as `V1Read` on the current store |
| `Lab2Main.TaskApp.CreateTask` | lab2/main.py:46-56 | the answer and new store are those of `V1Create` |
| `Lab2Main.TaskApp.UpdateTask` | lab2/main.py:60-76 | the field-by-field overwrite of the first match gives the answer and new store of `V1Update` |
| `Lab2Main.TaskApp.DeleteTask` | lab2/main.py:80-93 | the scan followed by `remove(u)` gives the answer and new store of `V1Delete` |
| `Scenarios.RemoveAtKeepsDistinct` | Lab4/apiv2.py:104 | removing one record from a store with distinct ids keeps them distinct |
| `Scenarios.AppendFreshKeepsDistinct` | Lab4/apiv2.py:125-132 | appending a task whose id is not in use keeps the ids distinct |
| `Scenarios.V1CreateKeepsDistinct` | lab2/main.py:49-55 | in a sequential run, version 1 create keeps a store with distinct ids distinct |
| `Scenarios.V2CreateKeepsDistinct` | Lab4/apiv2.py:125-132 | version 2 create keeps a store with distinct ids distinct |
| `Scenarios.DeletesKeepDistinct` | Lab4/apiv2.py:95-108 | both deletes keep a store with distinct ids distinct |
| `Scenarios.FindAppended` | Lab4/apiv2.py:132 | once a task with a fresh id is appended, the scan for that id stops at the new last position |
| `Scenarios.V1CreateThenRead` | Lab4/apiv2.py:61-71 | a task created through version 1 with id `>= 1` reads back unchanged |
| `Scenarios.V2CreateThenGet` | Lab4/apiv2.py:121-133 | a task created through version 2 reads back unchanged, and creating it again is a 400 duplicate |
| `Scenarios.RemovedIdIsGone` | lab2/main.py:88-90 | in a store with distinct ids, once the first match is removed no record carries that id |
| `Scenarios.V1DeleteThenRead` | lab2/main.py:33-40 | with distinct ids, once task `k` is deleted a read of `k >= 1` gives "cannot found" and a second delete fails |
| `Scenarios.V2DeleteThenGet` | Lab4/apiv2.py:146-154 | with distinct ids, once a task is deleted a read gives 404, and a second delete gives 404 (400 for an id `<= 0`) |
| `Scenarios.V1UpdateThenRead` | Lab4/apiv2.py:75-91 | after a version 1 update that leaves ids distinct, reading the body's id returns the body |
| `Scenarios.V2UpdateThenGet` | Lab4/apiv2.py:136-144 | after a version 2 update that leaves ids distinct, reading the body's id returns the body |
| `Scenarios.UpdatesRetireOldId` | Lab4/apiv2.py:83-87 | in a store with distinct ids, a successful update (either version) whose body carries a different id leaves no record with the old id, so a read of it is a 404 |
| `Scenarios.V1UpdateMayDuplicate` | lab2/main.py:68-72 | version 1 update does not check the body's id for uniqueness: when a record other than the first match already carries the body's id, the new store has duplicate ids |
| `Scenarios.V2UpdateMayDuplicate` | Lab4/apiv2.py:139-141 | version 2 update does not check the body's id for uniqueness: when a record other than the replaced one already carries the body's id, the new store has duplicate ids |
| `Scenarios.UpdatesMayDuplicateIds` | lab2/main.py:68-72 | an instance on the seeded store: updating record 1 with a body carrying id 2 leaves two records with id 2, through either version |
| `Scenarios.V2UpdateGuardOrder` | Lab4/apiv2.py:138-144 | with body id 0, updating the first record succeeds but updating the second or an absent id is a 400; with a positive body id an absent id is a 404, and so is any update of an empty store |
| `Scenarios.DeleteVersionsAgree` | Lab4/apiv2.py:95-108 | for a path id other than 0 the two deletes succeed together, return the same record and leave the same store |
| `Scenarios.ReadVersionsAgree` | Lab4/apiv2.py:41-57 | for an id `>= 1` the two reads succeed together and return the same record |
| `Scenarios.SeededScenario` | Lab4/apiv2.py:17-21 | on the seeded store: reading 2 gives "Create Lab Act 2", reading 99 is a 404, creating id 1 is a 400 duplicate, and after a version 1 delete of 2 a read of 2 gives "cannot found" |

## Left out

- The web framework is not modelled: app and router construction, route decorators, prefixes, and binding of path, query and body parameters (`Lab4/apiv2.py:10`, `37`, `111`, `159-160`; `lab2/main.py:6`). Each handler is a method that takes its arguments directly.
- Body parsing and coercion by the validation library are not modelled, and neither are the `dict(task)` and `task.dict()` conversions. `Task` is a plain datatype, and the body is assumed to be already well typed.
- HTTP status codes, response JSON and the dropping of bodies on 204 are not modelled. Outcomes are abstract constructors, and error messages are named rather than spelled out.
- API-key loading and checking are not modelled (`Lab4/apiv2.py:4-14`). This is environment I/O, and the check is never attached to a route.
- Concurrency is not modelled. The source takes no lock, so two creates with the same id could both pass the duplicate test. The model is sequential, and the distinct-ids lemmas hold only for sequential runs.
- Object identity and aliasing of the stored dictionaries are not modelled. Only record values matter. This is sound because `remove(u)` compares by value, and the first record equal to `u` is always at the scan's index (`RemoveFirstAtFirstMatch`).
- The truthiness test `if task:` in version 2 get and delete is modelled as "a record was found". A found record is a dictionary with four keys, so it is always truthy.
