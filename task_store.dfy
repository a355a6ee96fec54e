/** The in-memory task store shared by both API versions: the Task record,
    the three seeded rows, and the scans and list operations the handlers
    are built from. Everything here is pure; the handlers that change the
    store live in the Lab4Api and Lab2Main classes. */
module TaskStore {

  /** One task record, as the Task body model and the stored dictionaries hold it. */
  datatype Task = Task(taskId: int, taskName: string, taskDesc: string, isFinished: bool)

  datatype Option<+T> = None | Some(value: T)

  /** Why a handler did not succeed. The first six are the version 1
      messages, returned in the body of a normal response; the last two are
      the version 2 HTTP errors. */
  datatype Failure =
    | NeedTaskId        // "You need to provide the task id ..."
    | TaskIdBelowOne    // "task Id should not be lower than 1!"
    | NotInDatabase     // "The task id cannot found in the database!"
    | AlreadyExisting   // "Task Id is already existing"
    | CannotUpdate      // "Task not found in the database. Cannot update data"
    | CannotDelete      // "Task Id not found in the database. Cannot delete the data"
    | BadRequest(detail: Detail)   // HTTP 400
    | NotFound404                  // HTTP 404 "Task not found"

  /** The detail text of a version 2 HTTP 400 error. */
  datatype Detail = DuplicateId | InvalidTaskNumber

  /** What a handler answers: a task (read, updated or removed), the
      acknowledgement of a create, or a failure. */
  datatype Outcome = Ok(task: Task) | Created | Err(failure: Failure)

  /** The three rows the store holds when the process starts; they start
      out with distinct ids. */
  function Seed(): (s: seq<Task>)
    ensures DistinctIds(s)
  {
    [ Task(1, "Laboratory Activity", "Create Lab Act 1", false),
      Task(2, "Laboratory Activity", "Create Lab Act 2", false),
      Task(3, "Laboratory Activity", "Create Lab Act 3", false) ]
  }

  /** Some record of `db` carries `id` (the `any(...)` duplicate test):
      the same as asking whether any element of the list carries it. */
  predicate HasId(db: seq<Task>, id: int)
    ensures HasId(db, id) <==> exists t :: t in db && t.taskId == id
  {
    exists j :: 0 <= j < |db| && db[j].taskId == id
  }

  /** `i` is the index of the first record of `db` that carries `id`. */
  predicate FirstMatchAt(db: seq<Task>, id: int, i: int)
  {
    0 <= i < |db| && db[i].taskId == id &&
    forall j :: 0 <= j < i ==> db[j].taskId != id
  }

  /** No two records of `db` share an id. */
  predicate DistinctIds(db: seq<Task>)
  {
    forall i, j :: 0 <= i < j < |db| ==> db[i].taskId != db[j].taskId
  }

  /** The index a scan over `enumerate(task_db)` stops at: the first record
      carrying `id`, or None when the scan runs off the end. */
  function FindFirst(db: seq<Task>, id: int): (r: Option<nat>)
    ensures r.Some? ==> FirstMatchAt(db, id, r.value)
    ensures r.None? <==> !HasId(db, id)
  {
    if db == [] then None
    else if db[0].taskId == id then Some(0)
    else match FindFirst(db[1..], id)
      case None => None
      case Some(i) => Some(i + 1)
  }

  /** There is at most one first match. */
  lemma FirstMatchUnique(db: seq<Task>, id: int, i: int, k: int)
    requires FirstMatchAt(db, id, i) && FirstMatchAt(db, id, k)
    ensures i == k
  {
  }

  /** `find_task_by_id`: the first record carrying `id`, or None. */
  function FindTaskById(db: seq<Task>, id: int): (r: Option<Task>)
    ensures r.None? <==> !HasId(db, id)
    ensures r.Some? ==> exists i :: FirstMatchAt(db, id, i) && r.value == db[i]
  {
    match FindFirst(db, id)
    case None => None
    case Some(i) => Some(db[i])
  }

  /** `db` without its element at index `i`, the others in their order. */
  function RemoveAt(db: seq<Task>, i: nat): (r: seq<Task>)
    requires i < |db|
    ensures |r| == |db| - 1
    ensures forall j :: 0 <= j < i ==> r[j] == db[j]
    ensures forall j :: i <= j < |r| ==> r[j] == db[j + 1]
  {
    db[..i] + db[i + 1..]
  }

  /** Python's `list.remove(x)`: drop the first element equal to `x`
      (by value). The handlers only call it with an element of the list. */
  function RemoveFirst(db: seq<Task>, x: Task): (r: seq<Task>)
    requires x in db
    ensures |r| == |db| - 1
  {
    if db[0] == x then db[1..] else [db[0]] + RemoveFirst(db[1..], x)
  }

  /** `list.remove(x)` removes exactly the first position holding `x`. */
  lemma {:induction false} RemoveFirstIsRemoveAt(db: seq<Task>, x: Task, i: nat)
    requires i < |db| && db[i] == x
    requires forall j :: 0 <= j < i ==> db[j] != x
    ensures x in db
    ensures RemoveFirst(db, x) == RemoveAt(db, i)
  {
    if i > 0 {
      var tail := db[1..];
      assert tail[i - 1] == x;
      assert forall j :: 0 <= j < i - 1 ==> tail[j] == db[j + 1];
      RemoveFirstIsRemoveAt(tail, x, i - 1);
      assert [db[0]] + RemoveAt(tail, i - 1) == RemoveAt(db, i);
    }
  }

  /** Removing the record found by the id scan, by value, removes exactly
      the record at the scan's index: no earlier record can equal it, since
      an equal record would carry the same id and the scan would have
      stopped there. */
  lemma RemoveFirstAtFirstMatch(db: seq<Task>, id: int, i: nat)
    requires FirstMatchAt(db, id, i)
    ensures db[i] in db
    ensures RemoveFirst(db, db[i]) == RemoveAt(db, i)
  {
    RemoveFirstIsRemoveAt(db, db[i], i);
  }

  /** The seeded store: ids 1, 2, 3 in that order, none finished. */
  lemma SeedShape()
    ensures |Seed()| == 3
    ensures forall i :: 0 <= i < 3 ==> Seed()[i].taskId == i + 1 && !Seed()[i].isFinished
  {
  }
}
