/** The invariant of the transition system: it holds at the start and every event keeps it. */
module SystemInvariant {
  import opened Basics
  import opened Jobs
  import opened Ticks
  import opened System
  import Queue

  // ---------------------------------------------------------------- what one event may do to one row

  // A row's new content against its old one, with the events that may be responsible.
  ghost predicate RowEdge(s: State, e: Event, id: JobId, a: Row, b: Row) {
    && Enabled(s, e)
    && (
      || b == a
      || (b.status == Failed && b.ram == a.ram && b.queuedAt == a.queuedAt && FailingEvent(s, e, id, a.status))
      || (b == SetStatus(a, Pending) && a.status == Held && e.UnholdStep?
          && s.phase.todo[0].id == id && a.ram <= s.phase.effective)
      || (e.DecideStep? && s.phase.next.id == id && a.status == Pending
          && a.ram == s.phase.next.row.ram && a.ram <= s.avail
          && (|| (b.status == Held && b == SetHeld(a, HOLD_REASON_MEMORY, s.clock) && a.ram > s.phase.effective)
              || (b == SetStarted(a, 0, s.clock) && a.ram <= s.phase.effective)))
      || (e.RunnerMove? && e.id == id && id in s.live && b == SetStatus(a, e.to) && InFlight(a.status) && InFlight(b.status)
          && Allowed(a.status, e.to) && Rank(a.status) < Rank(b.status))
      || (e.RunnerFinish? && e.id == id && id in s.live && b == SetFinished(a, Success, e.msg, s.clock)
          && (a.status.Swapping? || a.status.HotSwapping?)))
  }

  ghost predicate FailingEvent(s: State, e: Event, id: JobId, from: Status) {
    && Enabled(s, e)
    && (
      || (e.CheckHeldStep? && s.phase.todo[0].id == id && (from == Held || from == Failed))
      || (e.CheckStuckStep? && s.phase.todo[0].id == id && StuckPassFails(s.phase.todo[0], s.phase.now))
      || (e.DecideStep? && s.phase.next.id == id && from == Pending)
      || (e.Cancel? && e.id == id && Waiting(from))
      || (e.RunnerFinish? && e.id == id && id in s.live && Active(from))
      || (e.RecoverStep? && s.phase.todo[0].id == id && Queue.Interrupted(from)))
  }

  lemma RowChangeByScheduler(s: State, e: Event, id: JobId)
    requires Inv(s) && Enabled(s, e) && id in s.jobs
    requires e.CheckHeldStep? || e.CheckStuckStep? || e.UnholdStep? || e.DecideStep? || e.RecoverStep?
    ensures id in JobsAfter(s, e) && RowEdge(s, e, id, s.jobs[id], JobsAfter(s, e)[id])
  {
    StateGraph(s.jobs[id].status, Failed);
    if e.DecideStep? {
      assert Undispatched(s, s.phase.next);
    } else {
      assert s.phase.todo[0] in s.phase.todo;
      assert e.CheckHeldStep? || e.UnholdStep? ==> StillHeld(s, s.phase.todo[0]);
    }
  }

  lemma RowChangeByOthers(s: State, e: Event, id: JobId)
    requires Inv(s) && Enabled(s, e) && id in s.jobs
    requires !(e.CheckHeldStep? || e.CheckStuckStep? || e.UnholdStep? || e.DecideStep? || e.RecoverStep?)
    ensures id in JobsAfter(s, e) ==> RowEdge(s, e, id, s.jobs[id], JobsAfter(s, e)[id])
    ensures id !in JobsAfter(s, e) ==> e.DeleteProject? && id in e.ids
  {
    StateGraph(s.jobs[id].status, Failed);
    StateGraph(s.jobs[id].status, Success);
    if e.RunnerMove? {
      StateGraph(s.jobs[id].status, e.to);
    }
  }

  lemma RowChange(s: State, e: Event, id: JobId)
    requires Inv(s) && Enabled(s, e) && id in s.jobs
    ensures id in JobsAfter(s, e) ==> RowEdge(s, e, id, s.jobs[id], JobsAfter(s, e)[id])
    ensures id !in JobsAfter(s, e) ==> e.DeleteProject? && id in e.ids
  {
    if e.CheckHeldStep? || e.CheckStuckStep? || e.UnholdStep? || e.DecideStep? || e.RecoverStep? {
      RowChangeByScheduler(s, e, id);
    } else {
      RowChangeByOthers(s, e, id);
    }
  }

  lemma NewRows(s: State, e: Event, id: JobId)
    requires Inv(s) && Enabled(s, e) && id !in s.jobs && id in JobsAfter(s, e)
    ensures e.Insert? && e.id == id && JobsAfter(s, e)[id] == FreshRow(e.ram, e.queuedAt)
  {
  }

  // ---------------------------------------------------------------- the parts of the invariant

  lemma RowsKept(s: State, e: Event)
    requires Inv(s) && Enabled(s, e)
    ensures RowsOk(Exec(s, e))
  {
    var t := Exec(s, e);
    forall id | id in t.jobs ensures id in t.used && RowOk(t, t.jobs[id]) {
      if id in s.jobs {
        assert RowOk(s, s.jobs[id]);
        RowChange(s, e, id);
      } else {
        NewRows(s, e, id);
      }
    }
  }

  lemma HistoryKept(s: State, e: Event)
    requires Inv(s) && Enabled(s, e)
    ensures HistoryOk(Exec(s, e))
  {
    var t := Exec(s, e);
    forall id | id in t.jobs
      ensures id in t.spawned ==> !Waiting(t.jobs[id].status)
      ensures id in t.cancelled ==> t.jobs[id].status == Failed
    {
      if id in s.jobs {
        RowChange(s, e, id);
      } else {
        NewRows(s, e, id);
      }
    }
  }

  // The row an event writes, when it writes one.
  ghost function Target(s: State, e: Event): JobId
    requires Enabled(s, e)
  {
    match e
    case CheckHeldStep(_) => s.phase.todo[0].id
    case CheckStuckStep(_) => s.phase.todo[0].id
    case UnholdStep(_) => s.phase.todo[0].id
    case DecideStep(_) => s.phase.next.id
    case Cancel(id, _) => id
    case RunnerMove(id, _, _) => id
    case RunnerFinish(id, _, _, _) => id
    case RecoverStep(_) => s.phase.todo[0].id
    case _ => ""
  }

  lemma OneRow(s: State, e: Event)
    requires Enabled(s, e) && !e.Insert? && !e.DeleteProject?
    ensures var id := Target(s, e);
            JobsAfter(s, e) == s.jobs
            || (id in s.jobs && id in JobsAfter(s, e) && JobsAfter(s, e) == s.jobs[id := JobsAfter(s, e)[id]])
  {
  }

  ghost predicate IsStart(s: State, e: Event) {
    Enabled(s, e) && e.DecideStep? && StartsJob(s, e.fault)
  }

  lemma RowLoad(s: State, e: Event, id: JobId)
    requires Inv(s) && Enabled(s, e) && id in s.jobs && id in JobsAfter(s, e)
    ensures IsStart(s, e) || InFlightRam(JobsAfter(s, e)[id]) <= InFlightRam(s.jobs[id])
  {
    RowChange(s, e, id);
    if e.DecideStep? {
      StateGraph(s.jobs[id].status, Running);
    }
  }

  // Only an accepted start adds to the memory in flight, and it adds its own estimate.
  lemma LoadChange(s: State, e: Event)
    requires Inv(s) && Enabled(s, e)
    ensures var before := Total(InFlightRam, s.jobs);
            var after := Total(InFlightRam, JobsAfter(s, e));
            if IsStart(s, e) then after == before + s.phase.next.row.ram else after <= before
  {
    if IsStart(s, e) {
      StartAccepted(s, e);
      var id := s.phase.next.id;
      TotalPut(InFlightRam, s.jobs, id, SetStarted(s.jobs[id], 0, s.clock));
    } else if e.Insert? {
      TotalInsert(InFlightRam, s.jobs, e.id, FreshRow(e.ram, e.queuedAt));
    } else if e.DeleteProject? {
      TotalDelete(InFlightRam, s.jobs, e.ids);
    } else {
      var id := Target(s, e);
      var after := JobsAfter(s, e);
      OneRow(s, e);
      if after != s.jobs {
        RowLoad(s, e, id);
        TotalPut(InFlightRam, s.jobs, id, after[id]);
      }
    }
  }

  lemma StartAccepted(s: State, e: Event)
    requires Inv(s) && Enabled(s, e) && e.DecideStep? && StartsJob(s, e.fault)
    ensures s.phase.next.id in s.jobs && s.jobs[s.phase.next.id].status == Pending
    ensures JobsAfter(s, e) == s.jobs[s.phase.next.id := SetStarted(s.jobs[s.phase.next.id], 0, s.clock)]
    ensures s.jobs[s.phase.next.id].ram == s.phase.next.row.ram <= s.phase.effective
  {
    StateGraph(s.jobs[s.phase.next.id].status, Running);
    assert Undispatched(s, s.phase.next);
  }

  lemma BudgetKept(s: State, e: Event)
    requires Inv(s) && Enabled(s, e)
    ensures BudgetOk(Exec(s, e))
  {
    LoadChange(s, e);
    if e.DecideStep? && StartsJob(s, e.fault) {
      StartAccepted(s, e);
    }
    if e.TickStart? {
      ListTotalIsTotal(InFlightRam, s.jobs, e.snapshot);
    }
  }

  lemma NextKept(s: State, e: Event)
    requires Inv(s) && Enabled(s, e)
    ensures NextOk(Exec(s, e))
  {
    var t := Exec(s, e);
    if t.phase.Deciding? || t.phase.Dispatching? {
      var id := t.phase.next.id;
      if s.phase.Deciding? {
        assert Undispatched(s, s.phase.next);
      }
      if id in s.jobs {
        RowChange(s, e, id);
      } else if id in t.jobs {
        NewRows(s, e, id);
      }
      if e.DecideStep? {
        StartAccepted(s, e);
      }
    }
  }

  lemma StillHeldKept(s: State, e: Event, j: Job)
    requires Inv(s) && Enabled(s, e) && StillHeld(s, j)
    requires HasSnapshot(s.phase) || s.phase.Unholding?
    requires e.UnholdStep? ==> s.phase.todo[0].id != j.id
    ensures StillHeld(Exec(s, e), j)
  {
    var t := Exec(s, e);
    if j.id in s.jobs {
      RowChange(s, e, j.id);
    } else if j.id in t.jobs {
      NewRows(s, e, j.id);
    }
  }

  // In the passes, a held row was held before with the same data, and an in-flight row was in flight before.
  lemma HeldBefore(s: State, e: Event, id: JobId)
    requires Inv(s) && Enabled(s, e) && !e.DecideStep?
    requires id in JobsAfter(s, e) && JobsAfter(s, e)[id].status == Held
    ensures id in s.jobs && JobsAfter(s, e)[id] == s.jobs[id]
  {
    if id in s.jobs {
      RowChange(s, e, id);
    } else {
      NewRows(s, e, id);
    }
  }

  lemma InFlightBefore(s: State, e: Event, id: JobId)
    requires Inv(s) && Enabled(s, e) && !e.DecideStep?
    requires id in JobsAfter(s, e) && InFlight(JobsAfter(s, e)[id].status)
    ensures id in s.jobs && InFlight(s.jobs[id].status) && JobsAfter(s, e)[id].startedAt == s.jobs[id].startedAt
    ensures JobsAfter(s, e)[id] == s.jobs[id] || e.RunnerMove?
  {
    if id in s.jobs {
      RowChange(s, e, id);
    } else {
      NewRows(s, e, id);
    }
  }

  lemma SnapshotKept(s: State, e: Event)
    requires Inv(s) && Enabled(s, e)
    ensures SnapshotOk(Exec(s, e))
  {
    var t := Exec(s, e);
    if HasSnapshot(t.phase) {
      if e.TickStart? {
        SnapshotTaken(s, e);
      } else {
        assert t.phase.snap == s.phase.snap;
        forall j | j in t.phase.snap && j.row.status == Held ensures StillHeld(t, j) {
          StillHeldKept(s, e, j);
        }
        forall id | id in t.jobs && t.jobs[id].status == Held ensures HeldIn(t.phase.snap, id, t.jobs[id]) {
          HeldBefore(s, e, id);
        }
        forall id | id in t.jobs && InFlight(t.jobs[id].status) ensures InFlightIn(t.phase.snap, id, t.jobs[id]) {
          InFlightBefore(s, e, id);
          assert InFlightIn(s.phase.snap, id, s.jobs[id]);
        }
      }
    }
  }

  lemma SnapshotTaken(s: State, e: Event)
    requires Inv(s) && Enabled(s, e) && e.TickStart?
    ensures SnapshotOk(Exec(s, e))
  {
    var t := Exec(s, e);
    forall id | id in t.jobs && t.jobs[id].status == Held ensures HeldIn(t.phase.snap, id, t.jobs[id]) {
      assert Job(id, t.jobs[id]) in t.phase.snap;
    }
    forall id | id in t.jobs && InFlight(t.jobs[id].status) ensures InFlightIn(t.phase.snap, id, t.jobs[id]) {
      assert Job(id, t.jobs[id]) in t.phase.snap;
    }
  }

  lemma UnholdKept(s: State, e: Event)
    requires Inv(s) && Enabled(s, e)
    ensures UnholdOk(Exec(s, e))
  {
    var t := Exec(s, e);
    if t.phase.Unholding? {
      if e.CheckStuckDone? {
        HeldJobsMembers(s.phase.snap);
        forall id | id in t.jobs && t.jobs[id].status == Held ensures HeldIn(t.phase.todo, id, t.jobs[id]) {
          assert HeldIn(s.phase.snap, id, s.jobs[id]);
        }
      } else if e.UnholdStep? {
        UnholdAdvances(s, e);
      } else {
        assert t.phase == s.phase;
        forall j | j in t.phase.todo ensures StillHeld(t, j) {
          StillHeldKept(s, e, j);
        }
        forall id | id in t.jobs && t.jobs[id].status == Held
          ensures !t.phase.clean || t.jobs[id].ram > t.phase.effective || HeldIn(t.phase.todo, id, t.jobs[id])
        {
          HeldBefore(s, e, id);
        }
      }
    }
  }

  lemma UnholdAdvances(s: State, e: Event)
    requires Inv(s) && Enabled(s, e) && e.UnholdStep?
    ensures UnholdOk(Exec(s, e))
  {
    var t := Exec(s, e);
    var head := s.phase.todo[0];
    assert s.phase.todo == [head] + t.phase.todo;
    forall j | j in t.phase.todo ensures StillHeld(t, j) {
      HeadIsNotInTail(s.phase.todo, j);
      StillHeldKept(s, e, j);
    }
    forall id | id in t.jobs && t.jobs[id].status == Held
      ensures !t.phase.clean || t.jobs[id].ram > t.phase.effective || HeldIn(t.phase.todo, id, t.jobs[id])
    {
      HeldBefore(s, e, id);
      StateGraph(Held, Pending);
      if HeldIn(s.phase.todo, id, s.jobs[id]) {
        var j :| j in s.phase.todo && j.id == id && j.row.status == Held
                 && j.row.heldAt == s.jobs[id].heldAt && j.row.ram == s.jobs[id].ram;
        assert j == head || j in t.phase.todo;
      }
    }
  }

  lemma RowStaysTimely(s: State, e: Event, id: JobId)
    requires Inv(s) && Enabled(s, e) && id in Exec(s, e).jobs
    ensures var t := Exec(s, e);
            && (t.jobs[id].status == Held && t.heldCheck.Some? ==>
                  t.jobs[id].heldAt.Some? && t.heldCheck.value - t.jobs[id].heldAt.value <= HOLD_AUTO_FAIL)
            && (InFlight(t.jobs[id].status) && t.stuckCheck.Some? ==>
                  t.jobs[id].startedAt.Some? && t.stuckCheck.value - t.jobs[id].startedAt.value <= STUCK_AFTER)
  {
    if id in s.jobs {
      RowChange(s, e, id);
    } else {
      NewRows(s, e, id);
    }
  }

  lemma TimelyKept(s: State, e: Event)
    requires Inv(s) && Enabled(s, e)
    ensures TimelyOk(Exec(s, e))
  {
    var t := Exec(s, e);
    forall id | id in t.jobs
      ensures t.jobs[id].status == Held && t.heldCheck.Some? ==>
                t.jobs[id].heldAt.Some? && t.heldCheck.value - t.jobs[id].heldAt.value <= HOLD_AUTO_FAIL
      ensures InFlight(t.jobs[id].status) && t.stuckCheck.Some? ==>
                t.jobs[id].startedAt.Some? && t.stuckCheck.value - t.jobs[id].startedAt.value <= STUCK_AFTER
    {
      RowStaysTimely(s, e, id);
    }
  }

  lemma PassesKept(s: State, e: Event)
    requires Inv(s) && Enabled(s, e)
    ensures PassesOk(Exec(s, e))
  {
    var t := Exec(s, e);
    if e.ReadMemory? {
      HeldPassBegins(s, e);
    } else if e.CheckHeldDone? {
      assert t.phase.todo == s.phase.snap;
    } else if t.phase.CheckingHeld? {
      HeldPassKept(s, e);
    } else if t.phase.CheckingStuck? {
      StuckPassKept(s, e);
    }
  }

  lemma HeldPassBegins(s: State, e: Event)
    requires Inv(s) && Enabled(s, e) && e.ReadMemory?
    ensures PassesOk(Exec(s, e))
  {
    var t := Exec(s, e);
    HeldJobsMembers(s.phase.snap);
    forall id | id in t.jobs && t.jobs[id].status == Held ensures HeldIn(t.phase.todo, id, t.jobs[id]) {
      assert HeldIn(s.phase.snap, id, s.jobs[id]);
    }
  }

  // A held row of the list is its head or still ahead.
  lemma HeldHeadOrTail(js: seq<Job>, id: JobId, r: Row)
    requires js != [] && HeldIn(js, id, r)
    ensures HeldIn(js[1..], id, r) || (js[0].id == id && js[0].row.status == Held && js[0].row.heldAt == r.heldAt)
  {
    var j :| j in js && j.id == id && j.row.status == Held && j.row.heldAt == r.heldAt && j.row.ram == r.ram;
    HeadOrTail(js, j);
  }

  lemma HeldPassKept(s: State, e: Event)
    requires Inv(s) && Enabled(s, e) && Exec(s, e).phase.CheckingHeld? && !e.ReadMemory?
    ensures PassesOk(Exec(s, e))
  {
    var t := Exec(s, e);
    assert forall j :: j in t.phase.todo ==> j in s.phase.todo;
    forall id | id in t.jobs && t.jobs[id].status == Held && t.phase.clean
      ensures (t.jobs[id].heldAt.Some? && t.phase.now - t.jobs[id].heldAt.value <= HOLD_AUTO_FAIL)
              || HeldIn(t.phase.todo, id, t.jobs[id])
    {
      HeldBefore(s, e, id);
      if e.CheckHeldStep? && HeldIn(s.phase.todo, id, s.jobs[id]) {
        HeldHeadOrTail(s.phase.todo, id, s.jobs[id]);
        assert RowOk(s, s.jobs[id]);
      }
    }
  }

  lemma InFlightHeadOrTail(js: seq<Job>, id: JobId, r: Row)
    requires js != [] && InFlightIn(js, id, r)
    ensures InFlightIn(js[1..], id, r) || (js[0].id == id && InFlight(js[0].row.status) && js[0].row.startedAt == r.startedAt)
  {
    var j :| j in js && j.id == id && InFlight(j.row.status) && j.row.startedAt == r.startedAt;
    HeadOrTail(js, j);
  }

  lemma StuckPassKept(s: State, e: Event)
    requires Inv(s) && Enabled(s, e) && Exec(s, e).phase.CheckingStuck? && !e.CheckHeldDone?
    ensures PassesOk(Exec(s, e))
  {
    var t := Exec(s, e);
    assert forall j :: j in t.phase.todo ==> j in s.phase.todo;
    forall id | id in t.jobs && InFlight(t.jobs[id].status) && t.phase.clean
      ensures (t.jobs[id].startedAt.Some? && t.phase.now - t.jobs[id].startedAt.value <= STUCK_AFTER)
              || InFlightIn(t.phase.todo, id, t.jobs[id])
    {
      InFlightBefore(s, e, id);
      if e.CheckStuckStep? && InFlightIn(s.phase.todo, id, s.jobs[id]) {
        InFlightHeadOrTail(s.phase.todo, id, s.jobs[id]);
        assert RowOk(s, s.jobs[id]);
      }
    }
  }

  lemma FitsKept(s: State, e: Event)
    requires Inv(s) && Enabled(s, e)
    ensures FitsOk(Exec(s, e))
  {
    var t := Exec(s, e);
    if t.fits.Some? {
      forall id | id in t.jobs && t.jobs[id].status == Held ensures t.jobs[id].ram > t.fits.value {
        if id in s.jobs {
          RowChange(s, e, id);
        } else {
          NewRows(s, e, id);
        }
      }
    }
  }

  lemma OvertakeKept(s: State, e: Event)
    requires Inv(s) && Enabled(s, e)
    ensures OvertakeOk(Exec(s, e))
  {
    var t := Exec(s, e);
    if t.phase.Deciding? && t.phase.clean {
      forall id | id in t.phase.known && id in t.jobs && t.jobs[id].queuedAt < t.phase.next.row.queuedAt
        ensures !Active(t.jobs[id].status) || InFlight(t.jobs[id].status)
                || (t.jobs[id].status == Held && t.jobs[id].ram > t.phase.effective)
      {
        if id in s.jobs {
          RowChange(s, e, id);
        } else {
          NewRows(s, e, id);
        }
      }
    }
  }

  lemma RecoverAdvances(s: State, e: Event)
    requires Inv(s) && Enabled(s, e) && e.RecoverStep?
    ensures RecoverOk(Exec(s, e))
  {
    var head, todo, u := s.phase.todo[0], s.phase.todo[1..], JobsAfter(s, e);
    assert head in s.phase.todo;
    forall j | j in todo ensures j.id in u && u[j.id] == j.row {
      HeadIsNotInTail(s.phase.todo, j);
    }
    forall id | id in u && Queue.Interrupted(u[id].status) && PhaseAfter(s, e).clean ensures Job(id, u[id]) in todo {
      HeadOrTail(s.phase.todo, Job(id, s.jobs[id]));
    }
  }

  lemma RecoverKept(s: State, e: Event)
    requires Inv(s) && Enabled(s, e)
    ensures RecoverOk(Exec(s, e))
  {
    if e.RecoverStep? {
      RecoverAdvances(s, e);
    }
  }

  // ---------------------------------------------------------------- the invariant over every run

  lemma InvInit(s: State)
    requires Init(s)
    ensures Inv(s)
  {
    TotalZero(InFlightRam, s.jobs);
  }

  lemma InvKept(s: State, e: Event)
    requires Inv(s) && Enabled(s, e)
    ensures Inv(Exec(s, e))
  {
    RowsKept(s, e);
    BudgetKept(s, e);
    HistoryKept(s, e);
    NextKept(s, e);
    SnapshotKept(s, e);
    UnholdKept(s, e);
    TimelyKept(s, e);
    PassesKept(s, e);
    FitsKept(s, e);
    OvertakeKept(s, e);
    RecoverKept(s, e);
  }

  lemma {:induction false} InvHolds(states: seq<State>, events: seq<Event>, n: nat)
    requires IsRun(states, events) && n < |states|
    ensures Inv(states[n]) && states[n].avail == states[0].avail
  {
    if n == 0 {
      InvInit(states[0]);
    } else {
      InvHolds(states, events, n - 1);
      var s, e := states[n - 1], events[n - 1];
      assert Enabled(s, e) && states[n - 1 + 1] == Exec(s, e);
      InvKept(s, e);
    }
  }
}
