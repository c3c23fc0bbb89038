/** The monitor and the scheduler as the source runs them: loops over a snapshot,
    each write going to the shared table. */
module Scheduling {
  import opened Basics
  import opened Jobs
  import opened Queue
  import opened Supervision
  import opened Ticks

  class Monitor {
    const db: Database

    constructor (db: Database)
      ensures this.db == db
    {
      this.db := db;
    }

    method CheckHeld(heldJobs: seq<Job>, avail: int, now: Time)
      modifies db
      ensures db.jobs == CheckHeldAll(old(db.jobs), heldJobs, avail, now)
    {
      var i := 0;
      while i < |heldJobs|
        invariant 0 <= i <= |heldJobs|
        invariant CheckHeldAll(db.jobs, heldJobs[i..], avail, now) == CheckHeldAll(old(db.jobs), heldJobs, avail, now)
      {
        var job := heldJobs[i];
        assert heldJobs[i..][0] == job && heldJobs[i..][1..] == heldJobs[i + 1..];
        i := i + 1;
        if job.row.heldAt.None? {
          continue;
        }
        if job.row.ram > avail && job.row.ram > 0 {
          db.UpdateJobFinished(job.id, Failed, IMPOSSIBLE_HELD_TEXT, now);
          continue;
        }
        var held := now - job.row.heldAt.value;
        if held > HOLD_AUTO_FAIL {
          db.UpdateJobFinished(job.id, Failed, HELD_TOO_LONG_TEXT, now);
        }
      }
    }

    method CheckStuck(activeJobs: seq<Job>, now: Time)
      modifies db
      ensures db.jobs == CheckStuckAll(old(db.jobs), activeJobs, now)
    {
      var i := 0;
      while i < |activeJobs|
        invariant 0 <= i <= |activeJobs|
        invariant CheckStuckAll(db.jobs, activeJobs[i..], now) == CheckStuckAll(old(db.jobs), activeJobs, now)
      {
        var job := activeJobs[i];
        assert activeJobs[i..][0] == job && activeJobs[i..][1..] == activeJobs[i + 1..];
        i := i + 1;
        if job.row.startedAt.None? {
          continue;
        }
        if !InFlight(job.row.status) {
          continue;
        }
        var elapsed := now - job.row.startedAt.value;
        if elapsed > STUCK_AFTER {
          db.UpdateJobFinished(job.id, Failed, StuckText(job.row.status), now);
        }
      }
    }
  }

  class Scheduler {
    const queue: Manager
    const monitor: Monitor
    const supervisor: Supervisor
    const availableRAM: int

    ghost predicate Wired()
    {
      monitor.db == queue.db && availableRAM >= 1
    }

    constructor (queue: Manager, monitor: Monitor, supervisor: Supervisor, availableRAM: int)
      requires monitor.db == queue.db && availableRAM >= 1
      ensures Wired()
      ensures this.queue == queue && this.monitor == monitor
      ensures this.supervisor == supervisor && this.availableRAM == availableRAM
    {
      this.queue := queue;
      this.monitor := monitor;
      this.supervisor := supervisor;
      this.availableRAM := availableRAM;
    }

    // The parts of tick, in the order it runs them. The source has them in one function.

    method InFlightMemory(activeJobs: seq<Job>) returns (runningRAM: int)
      ensures runningRAM == ListTotal(InFlightRam, activeJobs)
      ensures runningRAM == RamSum(FlyingJobs(activeJobs))
    {
      runningRAM := 0;
      var i := 0;
      while i < |activeJobs|
        invariant 0 <= i <= |activeJobs|
        invariant runningRAM == ListTotal(InFlightRam, activeJobs[..i])
      {
        assert activeJobs[..i + 1] == activeJobs[..i] + [activeJobs[i]];
        ListTotalAppend(InFlightRam, activeJobs[..i], activeJobs[i]);
        var s := activeJobs[i].row.status;
        if s == Running || s == Building || s == HealthCheck || s == Swapping || s == HotSwapping {
          runningRAM := runningRAM + activeJobs[i].row.ram;
        }
        i := i + 1;
      }
      assert activeJobs[..|activeJobs|] == activeJobs;
      LoadOfList(activeJobs);
    }

    method CollectHeld(activeJobs: seq<Job>) returns (heldJobs: seq<Job>)
      ensures heldJobs == HeldJobs(activeJobs)
    {
      heldJobs := [];
      var i := 0;
      while i < |activeJobs|
        invariant 0 <= i <= |activeJobs|
        invariant heldJobs + HeldJobs(activeJobs[i..]) == HeldJobs(activeJobs)
      {
        assert activeJobs[i..][0] == activeJobs[i] && activeJobs[i..][1..] == activeJobs[i + 1..];
        if activeJobs[i].row.status == Held {
          heldJobs := heldJobs + [activeJobs[i]];
        }
        i := i + 1;
      }
    }

    method Unhold(heldJobs: seq<Job>, effective: int)
      modifies queue.db
      ensures queue.db.jobs == UnholdAll(old(queue.db.jobs), heldJobs, effective)
    {
      var i := 0;
      while i < |heldJobs|
        invariant 0 <= i <= |heldJobs|
        invariant UnholdAll(queue.db.jobs, heldJobs[i..], effective) == UnholdAll(old(queue.db.jobs), heldJobs, effective)
      {
        assert heldJobs[i..][0] == heldJobs[i] && heldJobs[i..][1..] == heldJobs[i + 1..];
        if heldJobs[i].row.ram <= effective {
          var _ := queue.UpdateStatus(heldJobs[i].id, Pending);
        }
        i := i + 1;
      }
    }

    method Escalate(activeJobs: seq<Job>, heldJobs: seq<Job>, effective: int, nowHeld: Time, nowStuck: Time)
      requires Wired()
      modifies queue.db
      ensures queue.db.jobs ==
              UnholdAll(CheckStuckAll(CheckHeldAll(old(queue.db.jobs), heldJobs, availableRAM, nowHeld), activeJobs, nowStuck),
                        heldJobs, effective)
    {
      monitor.CheckHeld(heldJobs, availableRAM, nowHeld);
      monitor.CheckStuck(activeJobs, nowStuck);
      Unhold(heldJobs, effective);
    }

    method Dispatch(next: Job, effective: int, now: Time) returns (started: Option<JobId>)
      requires supervisor.Valid()
      modifies queue.db, supervisor
      ensures supervisor.Valid()
      ensures queue.db.jobs == Decide(old(queue.db.jobs), availableRAM, effective, next, now)
      ensures started == if Starts(old(queue.db.jobs), availableRAM, effective, next) then Some(next.id) else None
      ensures supervisor.active == old(supervisor.active) + (if started.Some? then {next.id} else {})
    {
      started := None;
      if IsImpossible(next, availableRAM) {
        var _ := queue.MarkFinished(next.id, Failed, IMPOSSIBLE_TEXT, now);
        return;
      }
      if next.row.ram > effective {
        var _ := queue.Hold(next.id, HOLD_REASON_MEMORY, now);
        return;
      }
      var marked := queue.MarkStarted(next.id, 0, now);
      if !marked {
        return;
      }
      started := Some(next.id);
      var _ := supervisor.Spawn(next.id);
    }

    method PickAndDispatch(effective: int, now: Time) returns (next: Option<Job>, started: Option<JobId>)
      requires supervisor.Valid()
      modifies queue.db, supervisor
      ensures supervisor.Valid()
      ensures IsNextPending(old(queue.db.jobs), next)
      ensures queue.db.jobs == if next.None? then old(queue.db.jobs)
                               else Decide(old(queue.db.jobs), availableRAM, effective, next.value, now)
      ensures started == if next.Some? && Starts(old(queue.db.jobs), availableRAM, effective, next.value)
                         then Some(next.value.id) else None
      ensures supervisor.active == old(supervisor.active) + (if started.Some? then {started.value} else {})
    {
      started := None;
      next := queue.NextPendingAny();
      if next.Some? {
        started := Dispatch(next.value, effective, now);
      }
    }

    // One iteration of the loop with nobody else writing meanwhile. The ghost result names the
    // choices the two queries made; the table is then the tick function of the old table.
    method Tick(free: int, nowHeld: Time, nowStuck: Time, nowWrite: Time)
      returns (started: Option<JobId>, ghost input: TickInput)
      requires Wired() && supervisor.Valid()
      modifies queue.db, supervisor
      ensures supervisor.Valid()
      ensures input.free == free && input.nowHeld == nowHeld && input.nowStuck == nowStuck && input.nowWrite == nowWrite
      ensures TickInputOk(old(queue.db.jobs), availableRAM, input)
      ensures queue.db.jobs == TickTable(old(queue.db.jobs), availableRAM, input)
      ensures started == TickStarted(old(queue.db.jobs), availableRAM, input)
      ensures started == if input.next.Some? && Fits(input.next.value.row.ram, old(queue.db.jobs), availableRAM, free)
                         then Some(input.next.value.id) else None
      ensures supervisor.active == old(supervisor.active) + (if started.Some? then {started.value} else {})
    {
      var activeJobs := queue.ListActive();
      var runningRAM := InFlightMemory(activeJobs);
      var effective := Min(free, availableRAM - runningRAM);
      var heldJobs := CollectHeld(activeJobs);
      Escalate(activeJobs, heldJobs, effective, nowHeld, nowStuck);
      ghost var checked := queue.db.jobs;
      assert effective == Effective(free, availableRAM, activeJobs);
      var next: Option<Job>;
      next, started := PickAndDispatch(effective, nowWrite);
      input := TickInput(activeJobs, free, nowHeld, nowStuck, next, nowWrite);
      TickParts(old(queue.db.jobs), checked, queue.db.jobs, availableRAM, input, started);
    }
  }
}
