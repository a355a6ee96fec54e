/** Properties that relate several requests: what a later read sees after a
    create, an update or a delete, which requests keep task ids distinct,
    how the two versions compare, and the concrete scenario on the seeded
    store. */
module Scenarios {
  import opened TaskStore
  import opened Handlers

  /** Removing one record keeps the remaining ids distinct. */
  lemma RemoveAtKeepsDistinct(db: seq<Task>, i: nat)
    requires i < |db| && DistinctIds(db)
    ensures DistinctIds(RemoveAt(db, i))
  {
    var r := RemoveAt(db, i);
    forall a, b | 0 <= a < b < |r|
      ensures r[a].taskId != r[b].taskId
    {
      var a' := if a < i then a else a + 1;
      var b' := if b < i then b else b + 1;
      assert r[a] == db[a'] && r[b] == db[b'] && a' < b';
    }
  }

  /** Appending a task whose id is not yet in use keeps the ids distinct. */
  lemma AppendFreshKeepsDistinct(db: seq<Task>, t: Task)
    requires DistinctIds(db) && !HasId(db, t.taskId)
    ensures DistinctIds(db + [t])
  {
    var r := db + [t];
    forall a, b | 0 <= a < b < |r|
      ensures r[a].taskId != r[b].taskId
    {
      if b == |db| {
        assert r[a] == db[a];
      } else {
        assert r[a] == db[a] && r[b] == db[b];
      }
    }
  }

  /** A successful version 1 create keeps the store's ids distinct (in a
      sequential run: the model has no concurrent requests). */
  lemma V1CreateKeepsDistinct(db: seq<Task>, t: Task)
    requires DistinctIds(db)
    ensures DistinctIds(V1Create(db, t).store)
  {
    if !HasId(db, t.taskId) {
      AppendFreshKeepsDistinct(db, t);
    }
  }

  /** A successful version 2 create keeps the store's ids distinct. */
  lemma V2CreateKeepsDistinct(db: seq<Task>, t: Task)
    requires DistinctIds(db)
    ensures DistinctIds(V2Create(db, t).store)
  {
    if V2Create(db, t).outcome == Created {
      AppendFreshKeepsDistinct(db, t);
    }
  }

  /** Both deletes keep the store's ids distinct. */
  lemma DeletesKeepDistinct(db: seq<Task>, taskId: int)
    requires DistinctIds(db)
    ensures DistinctIds(V1Delete(db, taskId).store)
    ensures DistinctIds(V2Delete(db, taskId).store)
  {
    match FindFirst(db, taskId)
    case None =>
    case Some(i) => RemoveAtKeepsDistinct(db, i);
  }

  /** The first record carrying an id that only the last record carries is
      that last record. */
  lemma FindAppended(db: seq<Task>, t: Task)
    requires !HasId(db, t.taskId)
    ensures FindFirst(db + [t], t.taskId) == Some(|db|)
  {
    var r := db + [t];
    assert FirstMatchAt(r, t.taskId, |db|) by {
      forall j | 0 <= j < |db| ensures r[j].taskId != t.taskId {
        assert r[j] == db[j];
      }
    }
    FirstMatchUnique(r, t.taskId, FindFirst(r, t.taskId).value, |db|);
  }

  /** Round trip: a task created through version 1 reads back unchanged. */
  lemma V1CreateThenRead(db: seq<Task>, t: Task)
    requires V1Create(db, t).outcome == Created
    requires t.taskId >= 1
    ensures V1Read(V1Create(db, t).store, Some(t.taskId)) == Ok(t)
  {
    FindAppended(db, t);
  }

  /** Round trip: a task created through version 2 reads back unchanged,
      and a second create of it is refused as a duplicate. */
  lemma V2CreateThenGet(db: seq<Task>, t: Task)
    requires V2Create(db, t).outcome == Created
    ensures V2Get(V2Create(db, t).store, t.taskId) == Ok(t)
    ensures V2Create(V2Create(db, t).store, t).outcome == Err(BadRequest(DuplicateId))
  {
    FindAppended(db, t);
  }

  /** After a delete in a store with distinct ids no record carries the
      id any more. */
  lemma RemovedIdIsGone(db: seq<Task>, taskId: int, i: nat)
    requires DistinctIds(db) && FirstMatchAt(db, taskId, i)
    ensures !HasId(RemoveAt(db, i), taskId)
  {
    var r := RemoveAt(db, i);
    forall j | 0 <= j < |r| ensures r[j].taskId != taskId {
      if j >= i {
        assert r[j] == db[j + 1];
      }
    }
  }

  /** Version 1: once a task is deleted, reading it gives the not-found
      error and deleting it again fails. */
  lemma V1DeleteThenRead(db: seq<Task>, k: int)
    requires DistinctIds(db)
    requires V1Delete(db, k).outcome.Ok?
    ensures k >= 1 ==> V1Read(V1Delete(db, k).store, Some(k)) == Err(NotInDatabase)
    ensures V1Delete(V1Delete(db, k).store, k).outcome == Err(CannotDelete)
  {
    var i := FindFirst(db, k).value;
    RemovedIdIsGone(db, k, i);
  }

  /** Version 2: once a task is deleted, reading it gives 404 and deleting
      it again gives 404 (400 when the id is not positive). */
  lemma V2DeleteThenGet(db: seq<Task>, k: int)
    requires DistinctIds(db)
    requires V2Delete(db, k).outcome.Ok?
    ensures V2Get(V2Delete(db, k).store, k) == Err(NotFound404)
    ensures V2Delete(V2Delete(db, k).store, k).outcome ==
            Err(if k <= 0 then BadRequest(InvalidTaskNumber) else NotFound404)
  {
    var i := FindFirst(db, k).value;
    RemovedIdIsGone(db, k, i);
  }

  /** After a version 1 update that leaves the ids distinct, reading the
      body's id gives back the body. */
  lemma V1UpdateThenRead(db: seq<Task>, taskId: int, body: Task)
    requires V1Update(db, taskId, body).outcome.Ok?
    requires DistinctIds(V1Update(db, taskId, body).store)
    ensures V2Get(V1Update(db, taskId, body).store, body.taskId) == Ok(body)
    ensures body.taskId >= 1 ==> V1Read(V1Update(db, taskId, body).store, Some(body.taskId)) == Ok(body)
  {
    var s := V1Update(db, taskId, body).store;
    var i := FindFirst(db, taskId).value;
    assert s[i] == body;
  }

  /** After a version 2 update that leaves the ids distinct, reading the
      body's id gives back the body. */
  lemma V2UpdateThenGet(db: seq<Task>, taskId: int, body: Task)
    requires V2Update(db, taskId, body).outcome.Ok?
    requires DistinctIds(V2Update(db, taskId, body).store)
    ensures V2Get(V2Update(db, taskId, body).store, body.taskId) == Ok(body)
    ensures body.taskId >= 1 ==> V1Read(V2Update(db, taskId, body).store, Some(body.taskId)) == Ok(body)
  {
    var s := V2Update(db, taskId, body).store;
    var i := FindFirst(db, taskId).value;
    assert s[i] == body;
  }

  /** In a store with distinct ids, an update whose body carries a new id
      leaves no record with the old id: reads of it fail. */
  lemma UpdatesRetireOldId(db: seq<Task>, taskId: int, body: Task)
    requires DistinctIds(db) && body.taskId != taskId
    ensures V1Update(db, taskId, body).outcome.Ok? ==>
      !HasId(V1Update(db, taskId, body).store, taskId) &&
      V2Get(V1Update(db, taskId, body).store, taskId) == Err(NotFound404)
    ensures V2Update(db, taskId, body).outcome.Ok? ==>
      !HasId(V2Update(db, taskId, body).store, taskId) &&
      V2Get(V2Update(db, taskId, body).store, taskId) == Err(NotFound404)
  {
    if HasId(db, taskId) {
      var i := FindFirst(db, taskId).value;
      var s := db[i := body];
      forall j | 0 <= j < |s| ensures s[j].taskId != taskId {
        if j != i {
          assert db[j].taskId != db[i].taskId;
        }
      }
    }
  }

  /** Version 1 update does not check the body's id for uniqueness: when
      another record already carries it, the store ends with a duplicate. */
  lemma V1UpdateMayDuplicate(db: seq<Task>, taskId: int, body: Task, j: nat)
    requires taskId != 0 && HasId(db, taskId)
    requires j < |db| && db[j].taskId == body.taskId
    requires FindFirst(db, taskId) != Some(j)
    ensures !DistinctIds(V1Update(db, taskId, body).store)
  {
    var i := FindFirst(db, taskId).value;
    var s := V1Update(db, taskId, body).store;
    assert s[i] == body && s[j] == db[j];
    if i < j {
      assert s[i].taskId == s[j].taskId;
    } else {
      assert s[j].taskId == s[i].taskId;
    }
  }

  /** Version 2 update does not check the body's id for uniqueness either. */
  lemma V2UpdateMayDuplicate(db: seq<Task>, taskId: int, body: Task, j: nat)
    requires V2Update(db, taskId, body).outcome.Ok?
    requires j < |db| && db[j].taskId == body.taskId
    requires FindFirst(db, taskId) != Some(j)
    ensures !DistinctIds(V2Update(db, taskId, body).store)
  {
    var i := FindFirst(db, taskId).value;
    var s := V2Update(db, taskId, body).store;
    assert s[i] == body && s[j] == db[j];
    if i < j {
      assert s[i].taskId == s[j].taskId;
    } else {
      assert s[j].taskId == s[i].taskId;
    }
  }

  /** An instance on the seeded store: updating record 1 with a body
      carrying id 2 leaves two records with id 2. */
  lemma UpdatesMayDuplicateIds()
    ensures V1Update(Seed(), 1, Task(2, "Renamed", "Copy", true)).outcome.Ok?
    ensures !DistinctIds(V1Update(Seed(), 1, Task(2, "Renamed", "Copy", true)).store)
    ensures V2Update(Seed(), 1, Task(2, "Renamed", "Copy", true)).outcome.Ok?
    ensures !DistinctIds(V2Update(Seed(), 1, Task(2, "Renamed", "Copy", true)).store)
  {
    var s := V1Update(Seed(), 1, Task(2, "Renamed", "Copy", true)).store;
    assert s[0].taskId == s[1].taskId;
  }

  /** The version 2 update guard depends on scan order: with the body's
      id 0, updating the first record succeeds but updating the second is
      refused with 400, as is an update of an id no record has. */
  lemma V2UpdateGuardOrder()
    ensures V2Update(Seed(), 1, Task(0, "A", "B", true)) ==
            Step(Ok(Task(0, "A", "B", true)), Seed()[0 := Task(0, "A", "B", true)])
    ensures V2Update(Seed(), 2, Task(0, "A", "B", true)) == Step(Err(BadRequest(InvalidTaskNumber)), Seed())
    ensures V2Update(Seed(), 99, Task(0, "A", "B", true)) == Step(Err(BadRequest(InvalidTaskNumber)), Seed())
    ensures V2Update(Seed(), 99, Task(4, "A", "B", true)) == Step(Err(NotFound404), Seed())
    ensures V2Update([], 1, Task(0, "A", "B", true)) == Step(Err(NotFound404), [])
  {
    assert FirstMatchAt(Seed(), 1, 0);
  }

  /** For a path id other than 0 the two versions' deletes remove the same
      record; they differ only in how they report a miss. */
  lemma DeleteVersionsAgree(db: seq<Task>, k: int)
    requires k != 0
    ensures V1Delete(db, k).outcome.Ok? == V2Delete(db, k).outcome.Ok?
    ensures V1Delete(db, k).outcome.Ok? ==> V1Delete(db, k) == V2Delete(db, k)
    ensures V1Delete(db, k).store == V2Delete(db, k).store
  {
  }

  /** For an id of at least 1 the two versions' reads find the same record. */
  lemma ReadVersionsAgree(db: seq<Task>, n: int)
    requires n >= 1
    ensures V1Read(db, Some(n)).Ok? == V2Get(db, n).Ok?
    ensures V1Read(db, Some(n)).Ok? ==> V1Read(db, Some(n)) == V2Get(db, n)
  {
  }

  /** The concrete scenario on the seeded store: read 2 and 99 through
      version 2, create a duplicate 1 through version 2, then delete 2
      through version 1 and read it again. */
  lemma SeededScenario()
    ensures V2Get(Seed(), 2) == Ok(Task(2, "Laboratory Activity", "Create Lab Act 2", false))
    ensures V2Get(Seed(), 99) == Err(NotFound404)
    ensures V2Create(Seed(), Task(1, "Again", "Dup", false)).outcome == Err(BadRequest(DuplicateId))
    ensures V1Delete(Seed(), 2).outcome == Ok(Seed()[1])
    ensures V1Read(V1Delete(Seed(), 2).store, Some(2)) == Err(NotInDatabase)
  {
    SeedShape();
    V1DeleteThenRead(Seed(), 2);
  }
}
