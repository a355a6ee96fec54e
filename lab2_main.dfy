/** lab2/main.py: the earlier, standalone copy of the version 1 handlers,
    mounted without a prefix on their own module-level task list. Each
    handler is proved against the same Handlers function as its Lab4Api
    twin, so the two copies answer alike and leave the same store. */
module Lab2Main {
  import opened TaskStore
  import opened Handlers

  class TaskApp {
    /** The module-level `task_db` list. */
    var taskDb: seq<Task>

    constructor ()
      ensures taskDb == Seed()
    {
      taskDb := Seed();
    }

    /** GET /tasks: read by the optional `task_no`; the store is left alone. */
    method ReadUsers(taskNo: Option<int>) returns (r: Outcome)
      ensures r == V1Read(taskDb, taskNo)
    {
      if taskNo.Some? {
        var n := taskNo.value;
        if n < 1 {
          return Err(TaskIdBelowOne);
        }
        var k := 0;
        while k < |taskDb|
          invariant 0 <= k <= |taskDb|
          invariant forall j :: 0 <= j < k ==> taskDb[j].taskId != n
        {
          if taskDb[k].taskId == n {
            return Ok(taskDb[k]);
          }
          k := k + 1;
        }
        return Err(NotInDatabase);
      }
      return Err(NeedTaskId);
    }

    /** POST /tasks: append unless the id is already in use. */
    method CreateTask(task: Task) returns (r: Outcome)
      modifies this
      ensures Step(r, taskDb) == V1Create(old(taskDb), task)
    {
      if HasId(taskDb, task.taskId) {
        return Err(AlreadyExisting);
      }
      taskDb := taskDb + [task];
      return Created;
    }

    /** PATCH /tasks/{task_id}: overwrite the four fields of the first
        record carrying `taskId`; a `taskId` of 0 is falsy and skips the scan. */
    method UpdateTask(taskId: int, task: Task) returns (r: Outcome)
      modifies this
      ensures Step(r, taskDb) == V1Update(old(taskDb), taskId, task)
    {
      if taskId != 0 {
        var idx := 0;
        while idx < |taskDb|
          invariant 0 <= idx <= |taskDb|
          invariant taskDb == old(taskDb)
          invariant forall j :: 0 <= j < idx ==> taskDb[j].taskId != taskId
        {
          if taskDb[idx].taskId == taskId {
            taskDb := taskDb[idx := taskDb[idx].(taskId := task.taskId, taskName := task.taskName,
                                                 taskDesc := task.taskDesc, isFinished := task.isFinished)];
            assert FindFirst(old(taskDb), taskId) == Some(idx);
            return Ok(taskDb[idx]);
          }
          idx := idx + 1;
        }
      }
      return Err(CannotUpdate);
    }

    /** DELETE /tasks/{task_id}: remove (by value) and return the first
        record carrying `taskId`; a `taskId` of 0 is falsy and skips the scan. */
    method DeleteTask(taskId: int) returns (r: Outcome)
      modifies this
      ensures Step(r, taskDb) == V1Delete(old(taskDb), taskId)
    {
      if taskId != 0 {
        var idx := 0;
        while idx < |taskDb|
          invariant 0 <= idx <= |taskDb|
          invariant taskDb == old(taskDb)
          invariant forall j :: 0 <= j < idx ==> taskDb[j].taskId != taskId
        {
          var u := taskDb[idx];
          if u.taskId == taskId {
            RemoveFirstAtFirstMatch(taskDb, taskId, idx);
            taskDb := RemoveFirst(taskDb, u);
            assert FindFirst(old(taskDb), taskId) == Some(idx);
            return Ok(u);
          }
          idx := idx + 1;
        }
      }
      return Err(CannotDelete);
    }
  }
}
