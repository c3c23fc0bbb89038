/** The job table as the database layer holds it, and the queue manager that guards it.
    Every method of Manager runs under one lock, so each is one step of the larger system. */
module Queue {
  import opened Basics
  import opened Jobs

  class Database {
    var jobs: Table

    constructor ()
      ensures jobs == map[]
    {
      jobs := map[];
    }

    method InsertJob(id: JobId, row: Row)
      requires id !in jobs
      modifies this
      ensures jobs == old(jobs)[id := row]
    {
      jobs := jobs[id := row];
    }

    method GetJob(id: JobId) returns (row: Option<Row>)
      ensures row == if id in jobs then Some(jobs[id]) else None
    {
      row := if id in jobs then Some(jobs[id]) else None;
    }

    method UpdateJobStatus(id: JobId, to: Status)
      modifies this
      ensures jobs == if id in old(jobs) then old(jobs)[id := SetStatus(old(jobs)[id], to)] else old(jobs)
    {
      if id in jobs {
        jobs := jobs[id := jobs[id].(status := to)];
      }
    }

    method UpdateJobHeld(id: JobId, reason: string, now: Time)
      modifies this
      ensures jobs == if id in old(jobs) then old(jobs)[id := SetHeld(old(jobs)[id], reason, now)] else old(jobs)
    {
      if id in jobs {
        jobs := jobs[id := jobs[id].(status := Held, holdReason := Some(reason), heldAt := Some(now))];
      }
    }

    method UpdateJobStarted(id: JobId, worker: int, now: Time)
      modifies this
      ensures jobs == if id in old(jobs) then old(jobs)[id := SetStarted(old(jobs)[id], worker, now)] else old(jobs)
    {
      if id in jobs {
        jobs := jobs[id := jobs[id].(status := Running, workerId := worker, startedAt := Some(now))];
      }
    }

    method UpdateJobFinished(id: JobId, to: Status, msg: string, now: Time)
      modifies this
      ensures jobs == if id in old(jobs) then old(jobs)[id := SetFinished(old(jobs)[id], to, msg, now)] else old(jobs)
    {
      var error := if msg == "" then None else Some(msg);
      if id in jobs {
        jobs := jobs[id := jobs[id].(status := to, finishedAt := Some(now), error := error)];
      }
    }

    // SELECT ... WHERE status NOT IN ('success', 'failed') ORDER BY queued_at ASC.
    method ListActiveJobs() returns (list: seq<Job>)
      ensures IsActiveList(jobs, list)
    {
      list := [];
      var todo := jobs.Keys;
      while todo != {}
        invariant todo <= jobs.Keys
        invariant DistinctIds(list) && SortedByQueue(list)
        invariant forall j :: j in list ==> j.id in jobs && j.id !in todo && j.row == jobs[j.id] && Active(j.row.status)
        invariant forall id :: id in jobs && id !in todo && Active(jobs[id].status) ==> Job(id, jobs[id]) in list
        decreases |todo|
      {
        var id :| id in todo;
        todo := todo - {id};
        if Active(jobs[id].status) {
          list := InsertSorted(list, Job(id, jobs[id]));
        }
      }
    }
  }

  // Where a row goes in a list ordered by queued_at.
  function InsertSorted(list: seq<Job>, j: Job): (r: seq<Job>)
    requires SortedByQueue(list) && DistinctIds(list)
    requires forall k :: k in list ==> k.id != j.id
    ensures SortedByQueue(r) && DistinctIds(r)
    ensures forall k :: k in r <==> k in list || k == j
  {
    if list == [] then [j]
    else if j.row.queuedAt < list[0].row.queuedAt then
      [j] + list
    else
      var rest := InsertSorted(list[1..], j);
      assert list == [list[0]] + list[1..];
      assert forall n :: 0 <= n < |rest| ==> list[0].row.queuedAt <= rest[n].row.queuedAt && rest[n].id != list[0].id by {
        forall n | 0 <= n < |rest| ensures list[0].row.queuedAt <= rest[n].row.queuedAt && rest[n].id != list[0].id {
          assert rest[n] in rest;
        }
      }
      [list[0]] + rest
  }

  class Manager {
    const db: Database

    constructor (db: Database)
      ensures this.db == db
    {
      this.db := db;
    }

    // The same scan the scheduler relies on: the first pending row of the ordered list.
    method NextPendingAny() returns (next: Option<Job>)
      ensures IsNextPending(db.jobs, next)
    {
      var rows := db.ListActiveJobs();
      var i := 0;
      while i < |rows|
        invariant 0 <= i <= |rows|
        invariant forall k :: 0 <= k < i ==> rows[k].row.status != Pending
      {
        if rows[i].row.status == Pending {
          next := Some(rows[i]);
          forall id | id in db.jobs && db.jobs[id].status == Pending
            ensures rows[i].row.queuedAt <= db.jobs[id].queuedAt
          {
            var n :| 0 <= n < |rows| && rows[n] == Job(id, db.jobs[id]);
          }
          return;
        }
        i := i + 1;
      }
      next := None;
      assert forall j :: j in rows ==> j.row.status != Pending;
    }

    method ListActive() returns (list: seq<Job>)
      ensures IsActiveList(db.jobs, list)
    {
      list := db.ListActiveJobs();
    }

    method UpdateStatus(id: JobId, to: Status) returns (ok: bool)
      modifies db
      ensures ok == old(Accepts(db.jobs, id, to))
      ensures db.jobs == MoveIn(old(db.jobs), id, to)
      ensures db.jobs == if ok then old(db.jobs)[id := old(db.jobs)[id].(status := to)] else old(db.jobs)
    {
      var row := db.GetJob(id);
      if row.None? || !Allowed(row.value.status, to) {
        return false;
      }
      db.UpdateJobStatus(id, to);
      ok := true;
    }

    method Hold(id: JobId, reason: string, now: Time) returns (ok: bool)
      modifies db
      ensures ok == old(Accepts(db.jobs, id, Held))
      ensures db.jobs == HoldIn(old(db.jobs), id, reason, now)
      ensures ok <==> id in old(db.jobs) && old(db.jobs)[id].status == Pending
      ensures db.jobs ==
              if ok then old(db.jobs)[id := old(db.jobs)[id].(status := Held, holdReason := Some(reason), heldAt := Some(now))]
              else old(db.jobs)
    {
      var row := db.GetJob(id);
      if row.None? || !Allowed(row.value.status, Held) {
        return false;
      }
      db.UpdateJobHeld(id, reason, now);
      ok := true;
    }

    method MarkStarted(id: JobId, worker: int, now: Time) returns (ok: bool)
      modifies db
      ensures ok == old(Accepts(db.jobs, id, Running))
      ensures db.jobs == StartIn(old(db.jobs), id, worker, now)
      ensures ok <==> id in old(db.jobs) && old(db.jobs)[id].status == Pending
      ensures db.jobs ==
              if ok then old(db.jobs)[id := old(db.jobs)[id].(status := Running, workerId := worker, startedAt := Some(now))]
              else old(db.jobs)
    {
      var row := db.GetJob(id);
      if row.None? || !Allowed(row.value.status, Running) {
        return false;
      }
      db.UpdateJobStarted(id, worker, now);
      ok := true;
    }

    method MarkFinished(id: JobId, to: Status, msg: string, now: Time) returns (ok: bool)
      modifies db
      ensures ok == old(Accepts(db.jobs, id, to))
      ensures db.jobs == FinishIn(old(db.jobs), id, to, msg, now)
      ensures ok ==> db.jobs == old(db.jobs)[id := old(db.jobs)[id].(status := to, finishedAt := Some(now), error := if msg == "" then None else Some(msg))]
      ensures !ok ==> db.jobs == old(db.jobs)
    {
      var row := db.GetJob(id);
      if row.None? || !Allowed(row.value.status, to) {
        return false;
      }
      db.UpdateJobFinished(id, to, msg, now);
      ok := true;
    }

    // The cancel check is written out in the source; it coincides with the state graph
    // only because MarkFinished(Failed) would also accept in-flight rows.
    method Cancel(id: JobId, now: Time) returns (ok: bool)
      modifies db
      ensures ok == old(Cancellable(db.jobs, id))
      ensures db.jobs == CancelIn(old(db.jobs), id, now)
      ensures ok <==> id in old(db.jobs) && old(db.jobs)[id].status in {Pending, Held}
      ensures db.jobs ==
              if ok then old(db.jobs)[id := old(db.jobs)[id].(status := Failed, finishedAt := Some(now), error := Some("cancelled by user"))]
              else old(db.jobs)
    {
      var row := db.GetJob(id);
      if row.None? || (row.value.status != Pending && row.value.status != Held) {
        return false;
      }
      db.UpdateJobFinished(id, Failed, "cancelled by user", now);
      ok := true;
    }

    // Run once, by the constructor of the source's manager, before anything else touches the table.
    method RecoverInterruptedJobs(now: Time)
      modifies db
      ensures db.jobs.Keys == old(db.jobs.Keys)
      ensures forall id :: id in db.jobs ==>
        db.jobs[id] == if Interrupted(old(db.jobs)[id].status)
                       then SetFinished(old(db.jobs)[id], Failed, "interrupted by Trangly restart", now)
                       else old(db.jobs)[id]
      ensures forall id :: id in db.jobs && old(db.jobs)[id].status in {Pending, Held, HotSwapping, Success, Failed} ==>
        db.jobs[id] == old(db.jobs)[id]
      ensures forall id :: id in db.jobs && old(db.jobs)[id].status in {Running, Building, HealthCheck, Swapping} ==>
        db.jobs[id] == old(db.jobs)[id].(status := Failed, finishedAt := Some(now), error := Some("interrupted by Trangly restart"))
    {
      var rows := db.ListActiveJobs();
      ghost var before := db.jobs;
      var i := 0;
      while i < |rows|
        invariant 0 <= i <= |rows|
        invariant db.jobs.Keys == before.Keys
        invariant forall k :: 0 <= k < i && Interrupted(rows[k].row.status) ==>
          db.jobs[rows[k].id] == SetFinished(before[rows[k].id], Failed, "interrupted by Trangly restart", now)
        invariant forall id :: id in before && (!Interrupted(before[id].status) || !Lists(rows[..i], id)) ==>
          db.jobs[id] == before[id]
      {
        var r := rows[i];
        assert r in rows;
        assert rows[..i + 1] == rows[..i] + [r];
        if Interrupted(r.row.status) {
          db.UpdateJobFinished(r.id, Failed, "interrupted by Trangly restart", now);
        }
        forall id | id in before && (!Interrupted(before[id].status) || !Lists(rows[..i + 1], id))
          ensures db.jobs[id] == before[id]
        {
          ListsSnoc(rows[..i], r, id);
        }
        i := i + 1;
      }
      forall id | id in before && Interrupted(before[id].status)
        ensures db.jobs[id] == SetFinished(before[id], Failed, "interrupted by Trangly restart", now)
      {
        var n :| 0 <= n < |rows| && rows[n] == Job(id, before[id]);
      }
    }
  }

  lemma ListsSnoc(js: seq<Job>, j: Job, id: JobId)
    ensures Lists(js + [j], id) <==> Lists(js, id) || j.id == id
  {
    assert j in js + [j];
    if Lists(js, id) {
      var k :| k in js && k.id == id;
      assert k in js + [j];
    }
  }

  // The statuses recovery resets. HotSwapping is not one of them.
  predicate Interrupted(s: Status) {
    s.Running? || s.Building? || s.HealthCheck? || s.Swapping?
  }
}
