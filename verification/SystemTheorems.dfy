/** What holds over every run of the job lifecycle, whatever the interleaving. */
module SystemTheorems {
  import opened Basics
  import opened Jobs
  import opened Ticks
  import opened System
  import opened SystemInvariant
  import Queue

  lemma RunStep(states: seq<State>, events: seq<Event>, k: nat)
    requires IsRun(states, events) && k < |events|
    ensures Inv(states[k]) && Enabled(states[k], events[k])
    ensures states[k + 1] == Exec(states[k], events[k])
  {
    InvHolds(states, events, k);
  }

  // ---------------------------------------------------------------- memory budget

  // Whatever jobs one picks among those in flight, their estimates never sum to more than the
  // budget. Neither does the sum a tick computes from its snapshot, so with 64-bit numbers that sum
  // cannot overflow either.
  lemma RamBudget(states: seq<State>, events: seq<Event>, n: nat, ids: set<JobId>)
    requires IsRun(states, events) && n < |states|
    requires forall id :: id in ids ==>
      id in states[n].jobs && states[n].jobs[id].status in {Running, Building, HealthCheck, Swapping, HotSwapping}
    ensures Total(Ram, Only(states[n].jobs, ids)) <= states[0].avail
    ensures states[n].phase.Listed? ==> RamSum(FlyingJobs(states[n].phase.snap)) <= states[0].avail
  {
    InvHolds(states, events, n);
    LoadOfSome(states[n].jobs, ids);
    if states[n].phase.Listed? {
      LoadOfList(states[n].phase.snap);
    }
  }

  // A start is decided on a budget computed earlier; it still fits at the moment it is written.
  lemma StartFits(states: seq<State>, events: seq<Event>, k: nat)
    requires IsRun(states, events) && k < |events| && Enabled(states[k], events[k]) && IsStart(states[k], events[k])
    ensures Total(Ram, Flying(states[k + 1].jobs)) == Total(Ram, Flying(states[k].jobs)) + states[k].phase.next.row.ram
    ensures Total(Ram, Flying(states[k].jobs)) + states[k].phase.next.row.ram <= states[0].avail
  {
    RunStep(states, events, k);
    LoadChange(states[k], events[k]);
    LoadOfFlying(states[k].jobs);
    LoadOfFlying(states[k + 1].jobs);
    InvHolds(states, events, k + 1);
  }

  // ---------------------------------------------------------------- dispatch

  lemma {:induction false} SpawnedGrows(states: seq<State>, events: seq<Event>, i: nat, j: nat, id: JobId)
    requires IsRun(states, events) && i <= j < |states|
    ensures id in states[i].spawned ==> id in states[j].spawned
    ensures id in states[i].cancelled ==> id in states[j].cancelled
    ensures id in states[i].used ==> id in states[j].used
    decreases j - i
  {
    if i < j {
      SpawnedGrows(states, events, i, j - 1, id);
      RunStep(states, events, j - 1);
    }
  }

  // No two Spawn calls of a run, restarts included, are for the same job.
  lemma DispatchedAtMostOnce(states: seq<State>, events: seq<Event>, i: nat, j: nat)
    requires IsRun(states, events) && i < j < |events|
    requires events[i].Spawn? && events[j].Spawn?
    ensures states[i].phase.Dispatching? && states[j].phase.Dispatching?
    ensures states[i].phase.next.id != states[j].phase.next.id
  {
    RunStep(states, events, i);
    RunStep(states, events, j);
    var id := states[i].phase.next.id;
    assert states[i + 1].spawned[|states[i].spawned|] == id;
    assert id in states[i + 1].spawned;
    SpawnedGrows(states, events, i + 1, j, id);
  }

  // The supervisor's "already running" error cannot be reached from the scheduler.
  lemma SpawnIsNeverRefused(states: seq<State>, events: seq<Event>, k: nat)
    requires IsRun(states, events) && k < |events| && events[k].Spawn?
    ensures states[k].phase.Dispatching? && !SpawnRefused(states[k])
  {
    RunStep(states, events, k);
  }

  // A job whose cancel succeeded is not spawned, neither before nor after.
  lemma CancelledIsNeverSpawned(states: seq<State>, events: seq<Event>, c: nat, k: nat)
    requires IsRun(states, events) && c < |events| && k < |events|
    requires events[c].Cancel? && !events[c].fault && Cancellable(states[c].jobs, events[c].id)
    requires events[k].Spawn?
    ensures states[k].phase.Dispatching? && states[k].phase.next.id != events[c].id
  {
    RunStep(states, events, c);
    RunStep(states, events, k);
    var id := events[c].id;
    var last := |events|;
    SpawnedGrows(states, events, c + 1, last, id);
    if states[k].phase.next.id == id {
      assert states[k + 1].spawned[|states[k].spawned|] == id;
      assert id in states[k + 1].spawned;
      SpawnedGrows(states, events, k + 1, last, id);
      InvHolds(states, events, last);
    }
  }

  // ---------------------------------------------------------------- progress of one job

  // Deleted ids do not come back.
  predicate Gone(s: State, id: JobId) {
    id in s.used && id !in s.jobs
  }

  lemma GoneForNow(states: seq<State>, events: seq<Event>, k: nat, id: JobId)
    requires IsRun(states, events) && k < |events| && Gone(states[k], id)
    ensures Gone(states[k + 1], id)
  {
    RunStep(states, events, k);
    var s, e := states[k], events[k];
    if id in JobsAfter(s, e) {
      NewRows(s, e, id);
      assert false;
    }
  }

  lemma {:induction false} StaysDeleted(states: seq<State>, events: seq<Event>, i: nat, j: nat, id: JobId)
    requires IsRun(states, events) && i <= j < |states| && Gone(states[i], id)
    ensures Gone(states[j], id)
    decreases j - i
  {
    if i < j {
      StaysDeleted(states, events, i, j - 1, id);
      GoneForNow(states, events, j - 1, id);
    }
  }

  lemma PresentBetween(states: seq<State>, events: seq<Event>, i: nat, m: nat, j: nat, id: JobId)
    requires IsRun(states, events) && i <= m <= j < |states|
    requires id in states[i].jobs && id in states[j].jobs
    ensures id in states[m].jobs
  {
    InvHolds(states, events, i);
    SpawnedGrows(states, events, i, m, id);
    if id !in states[m].jobs {
      StaysDeleted(states, events, m, j, id);
    }
  }

  lemma StepRank(states: seq<State>, events: seq<Event>, k: nat, id: JobId)
    requires IsRun(states, events) && k < |events|
    ensures StepsForward(states, k, id)
  {
    if id in states[k].jobs && id in states[k + 1].jobs {
      RunStep(states, events, k);
      RowChange(states[k], events[k], id);
    }
  }

  function StatusOf(s: State, id: JobId): Option<Status> {
    if id in s.jobs then Some(s.jobs[id].status) else None
  }

  function Changes(states: seq<State>, i: nat, j: nat, id: JobId): nat
    requires i <= j < |states|
    decreases j - i
  {
    if i == j then 0
    else Changes(states, i, j - 1, id) + if StatusOf(states[j - 1], id) != StatusOf(states[j], id) then 1 else 0
  }

  // Between two states of a run: not back, and each change outside pending and held a step forward.
  ghost predicate Forward(states: seq<State>, i: nat, j: nat, id: JobId)
  {
    i <= j < |states| && id in states[i].jobs && id in states[j].jobs ==>
      var a, b := states[i].jobs[id].status, states[j].jobs[id].status;
      && Rank(a) <= Rank(b)
      && (!Waiting(a) ==> !Waiting(b) && Changes(states, i, j, id) <= Rank(b) - Rank(a) <= 5)
  }

  ghost predicate Climbs(states: seq<State>, k: nat, id: JobId)
  {
    k + 1 < |states| && id in states[k].jobs && StepsForward(states, k, id)
  }

  lemma {:induction false} StepsAddUp(states: seq<State>, i: nat, j: nat, id: JobId)
    requires i <= j < |states|
    requires forall k :: i <= k < j ==> Climbs(states, k, id)
    ensures Forward(states, i, j, id)
    decreases j - i
  {
    if i < j {
      StepsAddUp(states, i, j - 1, id);
      assert Climbs(states, j - 1, id);
    }
  }

  ghost predicate StepsForward(states: seq<State>, k: nat, id: JobId)
  {
    k + 1 < |states| && id in states[k].jobs && id in states[k + 1].jobs ==>
      var a, b := states[k].jobs[id].status, states[k + 1].jobs[id].status;
      Rank(a) <= Rank(b) && (a != b && !Waiting(a) ==> Rank(a) < Rank(b))
  }

  // A job never moves back, and once it has left pending and held its status changes at most five times.
  lemma ForwardOnly(states: seq<State>, events: seq<Event>, i: nat, j: nat, id: JobId)
    requires IsRun(states, events) && i <= j < |states|
    ensures Forward(states, i, j, id)
  {
    if id in states[i].jobs && id in states[j].jobs {
      forall k | i <= k < j ensures Climbs(states, k, id) {
        PresentBetween(states, events, i, k, j, id);
        StepRank(states, events, k, id);
      }
      StepsAddUp(states, i, j, id);
    }
  }

  lemma FailedIsAbsorbing(states: seq<State>, events: seq<Event>, i: nat, j: nat, id: JobId)
    requires IsRun(states, events) && i <= j < |states|
    requires id in states[i].jobs && states[i].jobs[id].status == Failed && id in states[j].jobs
    ensures states[j].jobs[id].status == Failed
  {
    ForwardOnly(states, events, i, j, id);
  }

  // ---------------------------------------------------------------- the state graph

  ghost predicate StaleOverwrite(s: State, e: Event, id: JobId) {
    && Enabled(s, e) && id in s.jobs
    && e == CheckStuckStep(false) && s.phase.todo[0].id == id
    && StuckPassFails(s.phase.todo[0], s.phase.now) && s.jobs[id].status == Success
  }

  // Every status change of a run is an edge of the state graph, except one: the stuck check,
  // working from its snapshot, overwrites a success that was recorded after the snapshot.
  lemma EveryChangeIsAnEdge(states: seq<State>, events: seq<Event>, k: nat, id: JobId)
    requires IsRun(states, events) && k < |events| && Enabled(states[k], events[k])
    requires id in states[k].jobs && id in states[k + 1].jobs
    requires states[k].jobs[id].status != states[k + 1].jobs[id].status
    ensures Allowed(states[k].jobs[id].status, states[k + 1].jobs[id].status) <==> !StaleOverwrite(states[k], events[k], id)
    ensures StaleOverwrite(states[k], events[k], id) ==> states[k + 1].jobs[id].status == Failed
  {
    RunStep(states, events, k);
    RowChange(states[k], events[k], id);
    StateGraph(states[k].jobs[id].status, Failed);
  }

  // No success is recorded between a tick's snapshot and the end of its stuck check.
  ghost predicate QuietPasses(states: seq<State>, events: seq<Event>) {
    && |states| == |events| + 1
    && forall k :: 0 <= k < |events| && HasSnapshot(states[k].phase) ==> !(events[k].RunnerFinish? && events[k].to == Success)
  }

  ghost predicate NoFreshSuccess(s: State) {
    HasSnapshot(s.phase) ==>
      forall j :: j in s.phase.snap && InFlight(j.row.status) && j.id in s.jobs ==> s.jobs[j.id].status != Success
  }

  lemma NoFreshSuccessKept(s: State, e: Event)
    requires Inv(s) && Enabled(s, e) && NoFreshSuccess(s)
    requires !(HasSnapshot(s.phase) && e.RunnerFinish? && e.to == Success)
    ensures NoFreshSuccess(Exec(s, e))
  {
    var u, p := JobsAfter(s, e), PhaseAfter(s, e);
    if HasSnapshot(p) {
      forall j | j in p.snap && InFlight(j.row.status) && j.id in u ensures u[j.id].status != Success {
        if j.id in s.jobs {
          RowChange(s, e, j.id);
        } else {
          NewRows(s, e, j.id);
        }
      }
    }
  }

  lemma {:induction false} QuietRunsSeeNoFreshSuccess(states: seq<State>, events: seq<Event>, n: nat)
    requires IsRun(states, events) && QuietPasses(states, events) && n < |states|
    ensures NoFreshSuccess(states[n])
  {
    if n > 0 {
      QuietRunsSeeNoFreshSuccess(states, events, n - 1);
      RunStep(states, events, n - 1);
      NoFreshSuccessKept(states[n - 1], events[n - 1]);
    }
  }

  // In such runs every change, the monitor's included, follows the state graph.
  lemma QuietRunsFollowTheGraph(states: seq<State>, events: seq<Event>, k: nat, id: JobId)
    requires IsRun(states, events) && QuietPasses(states, events) && k < |events|
    requires id in states[k].jobs && id in states[k + 1].jobs
    ensures states[k].jobs[id].status == states[k + 1].jobs[id].status
            || Allowed(states[k].jobs[id].status, states[k + 1].jobs[id].status)
  {
    RunStep(states, events, k);
    QuietRunsSeeNoFreshSuccess(states, events, k);
    if events[k].CheckStuckStep? {
      assert states[k].phase.todo[0] in states[k].phase.todo;
      assert states[k].phase.todo[0] in states[k].phase.snap;
    }
    if states[k].jobs[id].status != states[k + 1].jobs[id].status {
      EveryChangeIsAnEdge(states, events, k, id);
    }
  }

  ghost predicate SuccessStays(states: seq<State>, k: nat, id: JobId)
  {
    k + 1 < |states| && id in states[k].jobs && id in states[k + 1].jobs && states[k].jobs[id].status == Success ==>
      states[k + 1].jobs[id].status == Success
  }

  lemma {:induction false} SuccessCarries(states: seq<State>, i: nat, j: nat, id: JobId)
    requires i <= j < |states| && id in states[j].jobs
    requires forall k :: i <= k < j ==> id in states[k].jobs && SuccessStays(states, k, id)
    requires id in states[i].jobs && states[i].jobs[id].status == Success
    ensures states[j].jobs[id].status == Success
    decreases j - i
  {
    if i < j {
      SuccessCarries(states, i, j - 1, id);
      assert SuccessStays(states, j - 1, id);
    }
  }

  lemma SuccessIsAbsorbingWhenQuiet(states: seq<State>, events: seq<Event>, i: nat, j: nat, id: JobId)
    requires IsRun(states, events) && QuietPasses(states, events) && i <= j < |states|
    requires id in states[i].jobs && states[i].jobs[id].status == Success && id in states[j].jobs
    ensures states[j].jobs[id].status == Success
  {
    forall k | i <= k < j ensures id in states[k].jobs && SuccessStays(states, k, id) {
      PresentBetween(states, events, i, k, j, id);
      if states[k].jobs[id].status == Success && id in states[k + 1].jobs {
        QuietRunsFollowTheGraph(states, events, k, id);
        StateGraph(Success, states[k + 1].jobs[id].status);
      }
    }
    SuccessCarries(states, i, j, id);
  }

  // ---------------------------------------------------------------- timeliness

  // If the last clean stuck check is at most d old, nothing has been in flight for longer than
  // ten minutes plus d; this covers rows a restart left in hot_swapping.
  lemma NothingInFlightTooLong(states: seq<State>, events: seq<Event>, n: nat, d: Time, id: JobId)
    requires IsRun(states, events) && n < |states|
    requires states[n].stuckCheck.Some? && states[n].clock - states[n].stuckCheck.value <= d
    requires id in states[n].jobs && InFlight(states[n].jobs[id].status)
    ensures states[n].jobs[id].startedAt.Some?
    ensures states[n].clock - states[n].jobs[id].startedAt.value <= STUCK_AFTER + d
  {
    InvHolds(states, events, n);
    assert RowOk(states[n], states[n].jobs[id]);
  }

  lemma NothingHeldTooLong(states: seq<State>, events: seq<Event>, n: nat, d: Time, id: JobId)
    requires IsRun(states, events) && n < |states|
    requires states[n].heldCheck.Some? && states[n].clock - states[n].heldCheck.value <= d
    requires id in states[n].jobs && states[n].jobs[id].status == Held
    ensures states[n].jobs[id].heldAt.Some?
    ensures states[n].clock - states[n].jobs[id].heldAt.value <= HOLD_AUTO_FAIL + d
  {
    InvHolds(states, events, n);
    assert RowOk(states[n], states[n].jobs[id]);
  }

  // A clean check pass is what moves the two clocks: right after one, the bound is the bare limit
  // counted from the pass's own reading of the clock.
  lemma PostPasses(states: seq<State>, events: seq<Event>, k: nat, id: JobId)
    requires IsRun(states, events) && k < |events| && id in states[k + 1].jobs
    requires events[k].CheckHeldDone? || events[k].CheckStuckDone?
    ensures Enabled(states[k], events[k])
    ensures events[k].CheckHeldDone? && states[k].phase.clean && states[k + 1].jobs[id].status == Held ==>
              && states[k + 1].jobs[id].heldAt.Some?
              && states[k].phase.now - states[k + 1].jobs[id].heldAt.value <= HOLD_AUTO_FAIL
    ensures events[k].CheckStuckDone? && states[k].phase.clean && InFlight(states[k + 1].jobs[id].status) ==>
              && states[k + 1].jobs[id].startedAt.Some?
              && states[k].phase.now - states[k + 1].jobs[id].startedAt.value <= STUCK_AFTER
  {
    RunStep(states, events, k);
    InvHolds(states, events, k + 1);
  }

  // From the end of a clean un-hold pass until the next one ends, whatever is held does not fit
  // into that pass's effective memory, and could run on this machine.
  lemma HeldOnlyForLackOfMemory(states: seq<State>, events: seq<Event>, n: nat, id: JobId)
    requires IsRun(states, events) && n < |states|
    requires id in states[n].jobs && states[n].jobs[id].status == Held
    ensures states[n].fits.Some? ==> states[n].fits.value < states[n].jobs[id].ram
    ensures states[n].jobs[id].ram <= states[0].avail
  {
    InvHolds(states, events, n);
    assert RowOk(states[n], states[n].jobs[id]);
  }

  // Recovery fails what it finds interrupted, but not a hot swap: after a recovery without
  // failed writes, the rows still recorded in flight are exactly those left in hot_swapping.
  lemma RecoveryLeavesHotSwaps(states: seq<State>, events: seq<Event>, k: nat, id: JobId)
    requires IsRun(states, events) && k < |events| && events[k].RecoverDone?
    requires id in states[k + 1].jobs && InFlight(states[k + 1].jobs[id].status)
    ensures states[k].phase.Recovering?
    ensures states[k].phase.clean ==> states[k + 1].jobs[id].status == HotSwapping
  {
    RunStep(states, events, k);
    var job := Job(id, states[k].jobs[id]);
    assert job !in states[k].phase.todo;
  }

  // ---------------------------------------------------------------- overtaking

  // When a job is started, each older active job that the pick could see is in flight already, or
  // held with an estimate above this tick's effective memory. None is pending.
  lemma OvertakingOnlyForLackOfMemory(states: seq<State>, events: seq<Event>, k: nat, id: JobId)
    requires IsRun(states, events) && k < |events|
    requires Enabled(states[k], events[k]) && IsStart(states[k], events[k]) && states[k].phase.clean
    requires id in states[k].phase.known && id in states[k].jobs
    requires Active(states[k].jobs[id].status)
    requires states[k].jobs[id].queuedAt < states[k].jobs[states[k].phase.next.id].queuedAt
    ensures InFlight(states[k].jobs[id].status)
            || (states[k].jobs[id].status == Held && states[k].jobs[id].ram > states[k].phase.effective)
  {
    RunStep(states, events, k);
    StartAccepted(states[k], events[k]);
    assert Undispatched(states[k], states[k].phase.next);
  }

  // The set "known" above is everything in the table when the pick was made.
  lemma KnownIsTheTableAtPick(states: seq<State>, events: seq<Event>, k: nat)
    requires IsRun(states, events) && k < |events| && events[k].Pick? && events[k].next.Some?
    ensures states[k + 1].phase.Deciding? && states[k + 1].phase.known == states[k].jobs.Keys
    ensures states[k + 1].phase.next == events[k].next.value
    ensures forall id :: id in states[k].jobs && states[k].jobs[id].status == Pending ==>
              states[k + 1].phase.next.row.queuedAt <= states[k].jobs[id].queuedAt
  {
    RunStep(states, events, k);
  }

  // ---------------------------------------------------------------- what a runner may rely on

  // Between two writes of its own, a live runner finds its row untouched, failed, or deleted.
  predicate RunnerRely(before: Table, after: Table, id: JobId) {
    id in after ==> id in before && (after[id] == before[id] || after[id].status == Failed)
  }

  predicate OwnEvent(e: Event, id: JobId) {
    || (e.RunnerMove? && e.id == id)
    || (e.RunnerFinish? && e.id == id)
    || (e.RunnerExit? && e.id == id)
  }

  lemma OthersKeepTheRely(states: seq<State>, events: seq<Event>, k: nat, id: JobId)
    requires IsRun(states, events) && k < |events|
    requires id in states[k].live && !OwnEvent(events[k], id)
    ensures RunnerRely(states[k].jobs, states[k + 1].jobs, id)
  {
    RunStep(states, events, k);
    if id in states[k].jobs {
      if id in states[k + 1].jobs {
        RowChange(states[k], events[k], id);
      }
    } else if id in states[k + 1].jobs {
      NewRows(states[k], events[k], id);
    }
  }

  lemma {:induction false} RelyOverManyEvents(states: seq<State>, events: seq<Event>, i: nat, j: nat, id: JobId)
    requires IsRun(states, events) && i <= j <= |events|
    requires forall k :: i <= k < j ==> id in states[k].live && !OwnEvent(events[k], id)
    ensures RunnerRely(states[i].jobs, states[j].jobs, id)
    decreases j - i
  {
    if i < j {
      RelyOverManyEvents(states, events, i, j - 1, id);
      OthersKeepTheRely(states, events, j - 1, id);
    }
  }

  // When its goroutine starts, a job's row is running, unless its project was deleted meanwhile.
  lemma SpawnedRowIsRunning(states: seq<State>, events: seq<Event>, k: nat)
    requires IsRun(states, events) && k < |events| && events[k].Spawn?
    ensures states[k].phase.Dispatching?
    ensures var id := states[k].phase.next.id;
            id in states[k + 1].live
            && (id in states[k + 1].jobs ==> states[k + 1].jobs[id].status == Running)
  {
    RunStep(states, events, k);
  }
}
