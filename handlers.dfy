/** What each request handler does, as a pure function of the store it
    finds and its arguments: the answer it gives and the store it leaves.
    Version 1 reports failures in the response body; version 2 reports them
    as HTTP 400 and 404 errors. The classes in Lab4Api and Lab2Main run the
    handlers' loops on their stored list and are proved to agree with these. */
module Handlers {
  import opened TaskStore

  /** The answer of a handler together with the store after it. */
  datatype Step = Step(outcome: Outcome, store: seq<Task>)

  // ---------------------------------------------------------------------
  // Version 1

  /** Version 1 read, by the optional query parameter `task_no`. */
  function V1Read(db: seq<Task>, taskNo: Option<int>): (r: Outcome)
    ensures taskNo.None? ==> r == Err(NeedTaskId)
    ensures taskNo.Some? && taskNo.value < 1 ==> r == Err(TaskIdBelowOne)
    ensures taskNo.Some? && taskNo.value >= 1 ==>
      (r.Ok? <==> HasId(db, taskNo.value)) &&
      (r.Ok? ==> exists i :: FirstMatchAt(db, taskNo.value, i) && r.task == db[i]) &&
      (!r.Ok? ==> r == Err(NotInDatabase))
  {
    match taskNo
    case None => Err(NeedTaskId)
    case Some(n) =>
      if n < 1 then Err(TaskIdBelowOne)
      else match FindTaskById(db, n)
        case Some(t) => Ok(t)
        case None => Err(NotInDatabase)
  }

  /** Version 1 create: append unless some record already carries the id. */
  function V1Create(db: seq<Task>, t: Task): (r: Step)
    ensures r.outcome == Created <==> !HasId(db, t.taskId)
    ensures r.outcome == Created ==>
      |r.store| == |db| + 1 && r.store[..|db|] == db && r.store[|db|] == t
    ensures r.outcome != Created ==> r == Step(Err(AlreadyExisting), db)
  {
    if HasId(db, t.taskId) then Step(Err(AlreadyExisting), db)
    else Step(Created, db + [t])
  }

  /** Version 1 update: a path id of 0 counts as not provided; otherwise
      the first record carrying the id takes all four fields of the body. */
  function V1Update(db: seq<Task>, taskId: int, body: Task): (r: Step)
    ensures taskId == 0 ==> r == Step(Err(CannotUpdate), db)
    ensures r.outcome.Ok? <==> taskId != 0 && HasId(db, taskId)
    ensures r.outcome.Ok? ==>
      r.outcome.task == body &&
      exists i :: FirstMatchAt(db, taskId, i) && r.store == db[i := body]
    ensures !r.outcome.Ok? ==> r == Step(Err(CannotUpdate), db)
    ensures |r.store| == |db|
  {
    if taskId == 0 then Step(Err(CannotUpdate), db)
    else match FindFirst(db, taskId)
      case None => Step(Err(CannotUpdate), db)
      case Some(i) => Step(Ok(body), db[i := body])
  }

  /** Version 1 delete: a path id of 0 counts as not provided; otherwise
      the first record carrying the id is removed and returned. */
  function V1Delete(db: seq<Task>, taskId: int): (r: Step)
    ensures taskId == 0 ==> r == Step(Err(CannotDelete), db)
    ensures r.outcome.Ok? <==> taskId != 0 && HasId(db, taskId)
    ensures r.outcome.Ok? ==>
      |r.store| == |db| - 1 &&
      exists i :: FirstMatchAt(db, taskId, i) && r.outcome.task == db[i] && r.store == RemoveAt(db, i)
    ensures !r.outcome.Ok? ==> r == Step(Err(CannotDelete), db)
  {
    if taskId == 0 then Step(Err(CannotDelete), db)
    else match FindFirst(db, taskId)
      case None => Step(Err(CannotDelete), db)
      case Some(i) => Step(Ok(db[i]), RemoveAt(db, i))
  }

  // ---------------------------------------------------------------------
  // Version 2

  /** Version 2 read by path id: the first match, or 404. */
  function V2Get(db: seq<Task>, taskId: int): (r: Outcome)
    ensures r.Ok? <==> HasId(db, taskId)
    ensures r.Ok? ==> exists i :: FirstMatchAt(db, taskId, i) && r.task == db[i]
    ensures !r.Ok? ==> r == Err(NotFound404)
  {
    match FindTaskById(db, taskId)
    case Some(t) => Ok(t)
    case None => Err(NotFound404)
  }

  /** Version 2 create: the duplicate test runs before the positivity
      test, and the task is appended only when both pass. */
  function V2Create(db: seq<Task>, t: Task): (r: Step)
    ensures HasId(db, t.taskId) ==> r == Step(Err(BadRequest(DuplicateId)), db)
    ensures !HasId(db, t.taskId) && t.taskId <= 0 ==> r == Step(Err(BadRequest(InvalidTaskNumber)), db)
    ensures r.outcome == Created <==> !HasId(db, t.taskId) && t.taskId > 0
    ensures r.outcome == Created ==>
      |r.store| == |db| + 1 && r.store[..|db|] == db && r.store[|db|] == t
  {
    if HasId(db, t.taskId) then Step(Err(BadRequest(DuplicateId)), db)
    else if t.taskId <= 0 then Step(Err(BadRequest(InvalidTaskNumber)), db)
    else Step(Created, db + [t])
  }

  /** Version 2 update. The source tests the body's id inside the scan,
      after each record that does not match; so the test fires exactly when
      the body's id is not positive and the very first record does not
      match. Otherwise the first match is replaced by the body, or 404. */
  function V2Update(db: seq<Task>, taskId: int, body: Task): (r: Step)
    ensures r.outcome.Ok? <==>
      exists i :: FirstMatchAt(db, taskId, i) && (i == 0 || body.taskId > 0)
    ensures r.outcome.Ok? ==>
      r.outcome.task == body &&
      exists i :: FirstMatchAt(db, taskId, i) && r.store == db[i := body]
    ensures r.outcome == Err(BadRequest(InvalidTaskNumber)) <==>
      body.taskId <= 0 && exists j :: 0 <= j < |db| && db[j].taskId != taskId &&
                                     forall k :: 0 <= k <= j ==> db[k].taskId != taskId
    ensures r.outcome == Err(NotFound404) <==> !HasId(db, taskId) && (db == [] || body.taskId > 0)
    ensures !r.outcome.Ok? ==> r.store == db
  {
    if body.taskId <= 0 && db != [] && db[0].taskId != taskId then
      Step(Err(BadRequest(InvalidTaskNumber)), db)
    else match FindFirst(db, taskId)
      case Some(i) => Step(Ok(body), db[i := body])
      case None => Step(Err(NotFound404), db)
  }

  /** Version 2 delete: the first match is removed and returned; when there
      is none, a non-positive id is a 400 and any other a 404. */
  function V2Delete(db: seq<Task>, taskId: int): (r: Step)
    ensures r.outcome.Ok? <==> HasId(db, taskId)
    ensures r.outcome.Ok? ==>
      |r.store| == |db| - 1 &&
      exists i :: FirstMatchAt(db, taskId, i) && r.outcome.task == db[i] && r.store == RemoveAt(db, i)
    ensures !HasId(db, taskId) && taskId <= 0 ==> r == Step(Err(BadRequest(InvalidTaskNumber)), db)
    ensures !HasId(db, taskId) && taskId > 0 ==> r == Step(Err(NotFound404), db)
  {
    match FindFirst(db, taskId)
    case Some(i) => Step(Ok(db[i]), RemoveAt(db, i))
    case None =>
      if taskId <= 0 then Step(Err(BadRequest(InvalidTaskNumber)), db)
      else Step(Err(NotFound404), db)
  }
}
