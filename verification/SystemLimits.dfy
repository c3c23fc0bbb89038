/** Limits every run keeps, said in terms of what the scheduler read, which events happened and
    which statuses rows have: memory, time in flight, time held, and what a restart leaves alone. */
module SystemLimits {
  import opened Basics
  import opened Jobs
  import opened Ticks
  import opened System
  import opened SystemInvariant
  import opened SystemTheorems
  import Queue

  // ---------------------------------------------------------------- what a decision is based on

  // At m, before n and in the same tick, the scheduler read how much memory was free.
  ghost predicate LastReading(states: seq<State>, events: seq<Event>, m: nat, n: nat) {
    && |states| == |events| + 1 && m < n <= |events| && events[m].ReadMemory? && states[m].phase.Listed?
    && forall k :: m < k < n ==> !events[k].TickStart? && !events[k].ReadMemory?
  }

  // What fits beside the jobs of the snapshot, by the memory read at m.
  ghost predicate FitReading(states: seq<State>, events: seq<Event>, m: nat, ram: int)
  {
    && m < |events| && m < |states| && events[m].ReadMemory? && states[m].phase.Listed?
    && ram <= events[m].free && ram + RamSum(FlyingJobs(states[m].phase.snap)) <= states[0].avail
  }

  // The effective memory a tick works with is neither more nor less than its reading allows.
  lemma {:induction false} EffectiveWasRead(states: seq<State>, events: seq<Event>, n: nat) returns (m: nat)
    requires IsRun(states, events) && n < |states| && HasEffective(states[n].phase)
    ensures LastReading(states, events, m, n)
    ensures forall ram :: ram <= states[n].phase.effective <==> FitReading(states, events, m, ram)
  {
    RunStep(states, events, n - 1);
    InvHolds(states, events, n);
    if events[n - 1].ReadMemory? {
      m := n - 1;
      EffectiveIs(events[m].free, states[m].avail, states[m].phase.snap);
      InvHolds(states, events, m);
    } else {
      m := EffectiveWasRead(states, events, n - 1);
    }
  }

  // A job is started exactly when it is still pending and fits what this tick read; it is held if
  // it could run but does not fit, and failed if it could never run.
  lemma DecisionByReading(states: seq<State>, events: seq<Event>, k: nat) returns (m: nat)
    requires IsRun(states, events) && k < |events| && events[k] == DecideStep(false)
    ensures states[k].phase.Deciding? && LastReading(states, events, m, k)
    ensures var id, ram := states[k].phase.next.id, states[k].phase.next.row.ram;
            var pending := id in states[k].jobs && states[k].jobs[id].status == Pending;
            && (states[k + 1].phase.Dispatching? <==> pending && FitReading(states, events, m, ram))
            && (pending && FitReading(states, events, m, ram) ==>
                  states[k + 1].jobs == states[k].jobs[id := states[k].jobs[id].(
                    status := Running, workerId := 0, startedAt := Some(states[k].clock))])
            && (pending && !FitReading(states, events, m, ram) && ram <= states[0].avail ==>
                  states[k + 1].jobs == states[k].jobs[id := states[k].jobs[id].(
                    status := Held, holdReason := Some("insufficient_memory"), heldAt := Some(states[k].clock))])
            && (pending && ram > states[0].avail ==>
                  id in states[k + 1].jobs && states[k + 1].jobs[id].status == Failed)
  {
    RunStep(states, events, k);
    InvHolds(states, events, k);
    m := EffectiveWasRead(states, events, k);
    var s := states[k];
    var id := s.phase.next.id;
    assert s.phase.next.row.ram <= s.phase.effective <==> FitReading(states, events, m, s.phase.next.row.ram);
    if id in s.jobs {
      Edges(s.jobs[id].status, Running);
      Edges(s.jobs[id].status, Held);
      Edges(s.jobs[id].status, Failed);
    }
  }

  // ---------------------------------------------------------------- restarts

  predicate RestartEvent(e: Event) {
    e.Crash? || e.Boot? || e.RecoverStep? || e.RecoverDone? || e.Advance?
  }

  lemma RestartStep(states: seq<State>, events: seq<Event>, k: nat, id: JobId)
    requires IsRun(states, events) && k < |events| && RestartEvent(events[k])
    requires id in states[k].jobs && states[k].jobs[id].status in {Pending, Held, HotSwapping, Success, Failed}
    ensures id in states[k + 1].jobs && states[k + 1].jobs[id] == states[k].jobs[id]
  {
    RunStep(states, events, k);
    if events[k].RecoverStep? {
      assert states[k].phase.todo[0] in states[k].phase.todo;
    }
  }

  // A restart leaves every row that is pending, held, hot swapping or finished as it was.
  lemma {:induction false} RestartSpares(states: seq<State>, events: seq<Event>, i: nat, j: nat, id: JobId)
    requires IsRun(states, events) && i <= j < |states|
    requires forall k :: i <= k < j ==> RestartEvent(events[k])
    requires id in states[i].jobs && states[i].jobs[id].status in {Pending, Held, HotSwapping, Success, Failed}
    ensures id in states[j].jobs && states[j].jobs[id] == states[i].jobs[id]
    decreases j - i
  {
    if i < j {
      RestartSpares(states, events, i, j - 1, id);
      RestartStep(states, events, j - 1, id);
    }
  }

  // From a boot at i on, nothing but recovery steps, none of whose writes fails.
  ghost predicate Recovery(states: seq<State>, events: seq<Event>, i: nat, j: nat) {
    && |states| == |events| + 1 && i < j <= |events| && events[i].Boot?
    && forall k :: i < k < j ==> events[k] == RecoverStep(false) || events[k].Advance?
  }

  predicate AsFailed(a: Row, b: Row) {
    b.finishedAt.Some? && b == a.(status := Failed, finishedAt := b.finishedAt, error := Some("interrupted by Trangly restart"))
  }

  lemma RecoveryStep(states: seq<State>, events: seq<Event>, k: nat, id: JobId)
    requires IsRun(states, events) && k < |events| && states[k].phase.Recovering? && states[k].phase.clean
    requires events[k] == RecoverStep(false) || events[k].Advance?
    requires id in states[k].jobs
    ensures states[k + 1].phase.Recovering? && states[k + 1].phase.clean
    ensures id in states[k + 1].jobs
    ensures states[k + 1].jobs[id] == states[k].jobs[id] || AsFailed(states[k].jobs[id], states[k + 1].jobs[id])
  {
    RunStep(states, events, k);
  }

  lemma {:induction false} RecoveryOnRow(states: seq<State>, events: seq<Event>, i: nat, j: nat, id: JobId)
    requires IsRun(states, events) && Recovery(states, events, i, j) && id in states[i].jobs
    ensures states[j].phase.Recovering? && states[j].phase.clean
    ensures id in states[j].jobs
    ensures states[j].jobs[id] == states[i].jobs[id] || AsFailed(states[i].jobs[id], states[j].jobs[id])
    decreases j - i
  {
    if j == i + 1 {
      RunStep(states, events, i);
    } else {
      RecoveryOnRow(states, events, i, j - 1, id);
      RecoveryStep(states, events, j - 1, id);
    }
  }

  // A recovery without failed writes fails every row that was running, building, in its health
  // check or swapping.
  lemma RecoveryFailsTheRest(states: seq<State>, events: seq<Event>, i: nat, j: nat, id: JobId)
    requires IsRun(states, events) && Recovery(states, events, i, j) && j < |events| && events[j].RecoverDone?
    requires id in states[i].jobs && states[i].jobs[id].status in {Running, Building, HealthCheck, Swapping}
    ensures id in states[j + 1].jobs && AsFailed(states[i].jobs[id], states[j + 1].jobs[id])
  {
    RecoveryOnRow(states, events, i, j, id);
    RunStep(states, events, j);
    assert Job(id, states[j].jobs[id]) !in states[j].phase.todo;
  }

  // ---------------------------------------------------------------- time held and time in flight

  // The two checks of a tick: for rows held too long, and for rows stuck in flight.
  datatype Check = HeldRows | StuckRows {
    predicate Begins(e: Event) { if HeldRows? then e.ReadMemory? else e.CheckHeldDone? }

    predicate Ends(e: Event) { if HeldRows? then e.CheckHeldDone? else e.CheckStuckDone? }

    predicate Runs(p: Phase) { if HeldRows? then p.CheckingHeld? else p.CheckingStuck? }

    predicate FailedWrite(e: Event) { e == if HeldRows? then CheckHeldStep(true) else CheckStuckStep(true) }

    function Last(s: State): Option<Time> { if HeldRows? then s.heldCheck else s.stuckCheck }
  }

  // A check from b to m, none of whose writes fails.
  ghost predicate CleanCheck(states: seq<State>, events: seq<Event>, check: Check, b: nat, m: nat) {
    && |states| == |events| + 1 && b < m < |events| && check.Begins(events[b]) && check.Ends(events[m])
    && (forall k :: b < k <= m ==> check.Runs(states[k].phase))
    && forall k :: b < k < m ==> !check.FailedWrite(events[k])
  }

  lemma {:induction false} CheckIsClean(states: seq<State>, events: seq<Event>, check: Check, b: nat, m: nat, k: nat)
    requires IsRun(states, events) && CleanCheck(states, events, check, b, m) && b < k <= m
    ensures check.Runs(states[k].phase) && states[k].phase.clean && states[k].phase.now == states[b].clock
    decreases k
  {
    assert Enabled(states[k - 1], events[k - 1]) && states[k - 1 + 1] == Exec(states[k - 1], events[k - 1]);
    if k > b + 1 {
      CheckIsClean(states, events, check, b, m, k - 1);
    }
  }

  // The last clean check of this kind is no older than that.
  ghost predicate CheckedSince(s: State, check: Check, time: Time) {
    && s.clock >= time
    && check.Last(s).Some? && check.Last(s).value >= time
    && (check.Runs(s.phase) ==> s.phase.now >= time)
  }

  lemma CheckedFirst(states: seq<State>, events: seq<Event>, check: Check, b: nat, m: nat)
    requires IsRun(states, events) && CleanCheck(states, events, check, b, m)
    ensures CheckedSince(states[m + 1], check, states[b].clock)
  {
    RunStep(states, events, m);
    CheckIsClean(states, events, check, b, m, m);
    InvHolds(states, events, m);
  }

  lemma CheckedNext(states: seq<State>, events: seq<Event>, check: Check, k: nat, time: Time)
    requires IsRun(states, events) && k < |events| && CheckedSince(states[k], check, time)
    ensures CheckedSince(states[k + 1], check, time)
  {
    RunStep(states, events, k);
  }

  lemma {:induction false} CheckedFrom(states: seq<State>, events: seq<Event>, check: Check, b: nat, m: nat, n: nat)
    requires IsRun(states, events) && CleanCheck(states, events, check, b, m) && m < n < |states|
    ensures CheckedSince(states[n], check, states[b].clock)
    decreases n
  {
    if n == m + 1 {
      CheckedFirst(states, events, check, b, m);
    } else {
      CheckedFrom(states, events, check, b, m, n - 1);
      CheckedNext(states, events, check, n - 1, states[b].clock);
    }
  }

  // Whatever is in flight at any time after a stuck check was started at most ten minutes before
  // that check began. So if checks are at most D apart, nothing is in flight for longer than ten
  // minutes and D.
  lemma InFlightLimit(states: seq<State>, events: seq<Event>, b: nat, m: nat, n: nat, id: JobId)
    requires IsRun(states, events) && CleanCheck(states, events, StuckRows, b, m) && m < n < |states|
    requires id in states[n].jobs && states[n].jobs[id].status in {Running, Building, HealthCheck, Swapping, HotSwapping}
    ensures states[n].jobs[id].startedAt.Some?
    ensures states[n].clock - states[n].jobs[id].startedAt.value
            <= 10 * 60 * 1_000_000_000 + (states[n].clock - states[b].clock)
  {
    CheckedFrom(states, events, StuckRows, b, m, n);
    NothingInFlightTooLong(states, events, n, states[n].clock - states[b].clock, id);
  }

  // The same for held rows and thirty minutes.
  lemma HeldLimit(states: seq<State>, events: seq<Event>, b: nat, m: nat, n: nat, id: JobId)
    requires IsRun(states, events) && CleanCheck(states, events, HeldRows, b, m) && m < n < |states|
    requires id in states[n].jobs && states[n].jobs[id].status == Held
    ensures states[n].jobs[id].heldAt.Some?
    ensures states[n].clock - states[n].jobs[id].heldAt.value
            <= 30 * 60 * 1_000_000_000 + (states[n].clock - states[b].clock)
  {
    CheckedFrom(states, events, HeldRows, b, m, n);
    NothingHeldTooLong(states, events, n, states[n].clock - states[b].clock, id);
  }

  // ---------------------------------------------------------------- held for lack of memory

  ghost predicate UnholdPass(states: seq<State>, events: seq<Event>, b: nat, m: nat) {
    && |states| == |events| + 1 && b < m < |events| && events[b].CheckStuckDone? && events[m].UnholdDone?
    && (forall k :: b < k <= m ==> states[k].phase.Unholding?)
    && forall k :: b < k < m ==> events[k] != UnholdStep(true)
  }

  lemma {:induction false} UnholdIsClean(states: seq<State>, events: seq<Event>, b: nat, m: nat, k: nat)
    requires IsRun(states, events) && UnholdPass(states, events, b, m) && b < k <= m
    ensures states[k].phase.Unholding? && states[k].phase.clean
    decreases k
  {
    RunStep(states, events, k - 1);
    if k > b + 1 {
      UnholdIsClean(states, events, b, m, k - 1);
    }
  }

  lemma {:induction false} FitsFrom(states: seq<State>, events: seq<Event>, b: nat, m: nat, n: nat)
    requires IsRun(states, events) && UnholdPass(states, events, b, m) && m < n < |states|
    requires forall k :: m < k < n ==> !events[k].UnholdDone?
    ensures states[m].phase.Unholding? && states[n].fits == Some(states[m].phase.effective)
    decreases n
  {
    RunStep(states, events, n - 1);
    if n == m + 1 {
      UnholdIsClean(states, events, b, m, m);
    } else {
      FitsFrom(states, events, b, m, n - 1);
    }
  }

  // From the end of one un-hold pass to the end of the next, whatever is held did not fit what that
  // tick had read, and could run on this machine.
  lemma HeldDidNotFit(states: seq<State>, events: seq<Event>, b: nat, m: nat, n: nat, id: JobId) returns (r: nat)
    requires IsRun(states, events) && UnholdPass(states, events, b, m) && m < n < |states|
    requires forall k :: m < k < n ==> !events[k].UnholdDone?
    requires id in states[n].jobs && states[n].jobs[id].status == Held
    ensures LastReading(states, events, r, m) && !FitReading(states, events, r, states[n].jobs[id].ram)
    ensures states[n].jobs[id].ram <= states[0].avail
  {
    FitsFrom(states, events, b, m, n);
    HeldOnlyForLackOfMemory(states, events, n, id);
    r := EffectiveWasRead(states, events, m);
    assert !FitReading(states, events, r, states[n].jobs[id].ram);
  }

  // ---------------------------------------------------------------- overtaking

  // When a job is started by a tick whose un-hold pass had no failed write, each older active job
  // known at the pick is in flight already or is held and did not fit what that tick had read.
  lemma OvertakenDidNotFit(states: seq<State>, events: seq<Event>, k: nat, id: JobId) returns (m: nat)
    requires IsRun(states, events) && k < |events| && events[k] == DecideStep(false) && states[k + 1].phase.Dispatching?
    requires states[k].phase.Deciding? && states[k].phase.clean && id in states[k].phase.known
    requires id in states[k].jobs && states[k].jobs[id].status !in {Success, Failed}
    requires states[k].phase.next.id in states[k].jobs
    requires states[k].jobs[id].queuedAt < states[k].jobs[states[k].phase.next.id].queuedAt
    ensures LastReading(states, events, m, k)
    ensures states[k].jobs[id].status in {Running, Building, HealthCheck, Swapping, HotSwapping}
            || (states[k].jobs[id].status == Held && !FitReading(states, events, m, states[k].jobs[id].ram))
  {
    RunStep(states, events, k);
    m := EffectiveWasRead(states, events, k);
    OvertakingOnlyForLackOfMemory(states, events, k, id);
    assert states[k].jobs[id].ram <= states[k].phase.effective <==> FitReading(states, events, m, states[k].jobs[id].ram);
  }
}
