/** Lab4/apiv2.py: one task list shared by a version 1 and a version 2
    router. Each handler is a method on the object that holds the list; it
    scans and changes the list as the route function does, and is proved to
    give the answer and leave the store that the matching function of
    Handlers describes. */
module Lab4Api {
  import opened TaskStore
  import opened Handlers

  class TaskApi {
    /** The module-level `task_db` list. */
    var taskDb: seq<Task>

    constructor ()
      ensures taskDb == Seed()
    {
      taskDb := Seed();
    }

    // -------------------------------------------------------------------
    // Version 1 router

    /** GET /v1/tasks: read by the optional `task_no`; the store is left alone. */
    method ReadUsers(taskNo: Option<int>) returns (r: Outcome)
      ensures r == V1Read(taskDb, taskNo)
    {
      if taskNo.Some? {
        var n := taskNo.value;
        if n < 1 {
          return Err(TaskIdBelowOne);
        }
        var k := 0;
        while k < |taskDb|
          invariant 0 <= k <= |taskDb|
          invariant forall j :: 0 <= j < k ==> taskDb[j].taskId != n
        {
          if taskDb[k].taskId == n {
            return Ok(taskDb[k]);
          }
          k := k + 1;
        }
        return Err(NotInDatabase);
      }
      return Err(NeedTaskId);
    }

    /** POST /v1/tasks: append unless the id is already in use. */
    method CreateTask(task: Task) returns (r: Outcome)
      modifies this
      ensures Step(r, taskDb) == V1Create(old(taskDb), task)
    {
      if HasId(taskDb, task.taskId) {
        return Err(AlreadyExisting);
      }
      taskDb := taskDb + [task];
      return Created;
    }

    /** PATCH /v1/tasks/{task_id}: overwrite the four fields of the first
        record carrying `taskId`; a `taskId` of 0 is falsy and skips the scan. */
    method UpdateTask(taskId: int, task: Task) returns (r: Outcome)
      modifies this
      ensures Step(r, taskDb) == V1Update(old(taskDb), taskId, task)
    {
      if taskId != 0 {
        var idx := 0;
        while idx < |taskDb|
          invariant 0 <= idx <= |taskDb|
          invariant taskDb == old(taskDb)
          invariant forall j :: 0 <= j < idx ==> taskDb[j].taskId != taskId
        {
          if taskDb[idx].taskId == taskId {
            taskDb := taskDb[idx := taskDb[idx].(taskId := task.taskId, taskName := task.taskName,
                                                 taskDesc := task.taskDesc, isFinished := task.isFinished)];
            assert FindFirst(old(taskDb), taskId) == Some(idx);
            return Ok(taskDb[idx]);
          }
          idx := idx + 1;
        }
      }
      return Err(CannotUpdate);
    }

    /** DELETE /v1/tasks/{task_id}: remove (by value) and return the first
        record carrying `taskId`; a `taskId` of 0 is falsy and skips the scan. */
    method DeleteTask(taskId: int) returns (r: Outcome)
      modifies this
      ensures Step(r, taskDb) == V1Delete(old(taskDb), taskId)
    {
      if taskId != 0 {
        var idx := 0;
        while idx < |taskDb|
          invariant 0 <= idx <= |taskDb|
          invariant taskDb == old(taskDb)
          invariant forall j :: 0 <= j < idx ==> taskDb[j].taskId != taskId
        {
          var u := taskDb[idx];
          if u.taskId == taskId {
            RemoveFirstAtFirstMatch(taskDb, taskId, idx);
            taskDb := RemoveFirst(taskDb, u);
            assert FindFirst(old(taskDb), taskId) == Some(idx);
            return Ok(u);
          }
          idx := idx + 1;
        }
      }
      return Err(CannotDelete);
    }

    // -------------------------------------------------------------------
    // Version 2 router

    /** GET /v2/tasks/{task_id}: the first match, or 404. */
    method GetTaskV2(taskId: int) returns (r: Outcome)
      ensures r == V2Get(taskDb, taskId)
    {
      var task := FindTaskById(taskDb, taskId);
      if task.Some? {
        return Ok(task.value);
      }
      return Err(NotFound404);
    }

    /** POST /v2/tasks: 400 for a duplicate id (tested first) or a
        non-positive id, otherwise append. */
    method CreateTaskV2(task: Task) returns (r: Outcome)
      modifies this
      ensures Step(r, taskDb) == V2Create(old(taskDb), task)
    {
      if HasId(taskDb, task.taskId) {
        return Err(BadRequest(DuplicateId));
      }
      if task.taskId <= 0 {
        return Err(BadRequest(InvalidTaskNumber));
      }
      taskDb := taskDb + [task];
      return Created;
    }

    /** PATCH /v2/tasks/{task_id}: replace the first match by the body; the
        body's id is tested after every record that does not match. */
    method UpdateTaskV2(taskId: int, task: Task) returns (r: Outcome)
      modifies this
      ensures Step(r, taskDb) == V2Update(old(taskDb), taskId, task)
    {
      var idx := 0;
      while idx < |taskDb|
        invariant 0 <= idx <= |taskDb|
        invariant taskDb == old(taskDb)
        invariant forall j :: 0 <= j < idx ==> taskDb[j].taskId != taskId
        invariant idx > 0 ==> task.taskId > 0
      {
        if taskDb[idx].taskId == taskId {
          taskDb := taskDb[idx := task];
          assert FindFirst(old(taskDb), taskId) == Some(idx);
          return Ok(taskDb[idx]);
        }
        if task.taskId <= 0 {
          return Err(BadRequest(InvalidTaskNumber));
        }
        idx := idx + 1;
      }
      return Err(NotFound404);
    }

    /** DELETE /v2/tasks/{task_id}: remove (by value) and return the first
        match; otherwise 400 for a non-positive id and 404 for any other. */
    method DeleteTaskV2(taskId: int) returns (r: Outcome)
      modifies this
      ensures Step(r, taskDb) == V2Delete(old(taskDb), taskId)
    {
      var task := FindTaskById(taskDb, taskId);
      if task.Some? {
        ghost var i :| FirstMatchAt(taskDb, taskId, i) && task.value == taskDb[i];
        RemoveFirstAtFirstMatch(taskDb, taskId, i);
        taskDb := RemoveFirst(taskDb, task.value);
        assert FindFirst(old(taskDb), taskId) == Some(i);
        return Ok(task.value);
      }
      if taskId <= 0 {
        return Err(BadRequest(InvalidTaskNumber));
      }
      return Err(NotFound404);
    }
  }
}
