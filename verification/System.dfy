/** The whole job lifecycle as a transition system. The scheduler loop, the runner goroutines,
    user cancels, webhook inserts, project deletion, crashes and restart recovery all write the
    same table; every event below is one atomic write or read of one of these actors.

    Assumption: a Manager method (it holds one lock) is one event, and so is each write of the
    monitor, although the monitor does not take that lock. Any database write may fail: the
    event's fault flag then leaves the table as it was. */
module System {
  import opened Basics
  import opened Jobs
  import opened Ticks
  import Queue

  const INTERRUPTED_TEXT := "interrupted by Trangly restart"

  // Where the scheduler goroutine is. Each phase carries the local variables of tick that are
  // still in use; "clean" says that no write of the current pass has failed.
  datatype Phase =
    | Down
    | Recovering(todo: seq<Job>, clean: bool)
    | Idle
    | Listed(snap: seq<Job>)
    | CheckingHeld(snap: seq<Job>, effective: int, now: Time, todo: seq<Job>, clean: bool)
    | CheckingStuck(snap: seq<Job>, effective: int, now: Time, todo: seq<Job>, clean: bool)
    | Unholding(effective: int, todo: seq<Job>, clean: bool)
    | Picking(effective: int, clean: bool)
    | Deciding(effective: int, clean: bool, next: Job, known: set<JobId>)
    | Dispatching(next: Job)

  datatype State = State(
    avail: int,
    jobs: Table,
    phase: Phase,
    live: set<JobId>,          // jobs with a runner goroutine, the keys of the supervisor's map
    clock: Time,
    // The rest is history, read by no event's guard except the freshness of ids.
    used: set<JobId>,          // every id ever inserted
    spawned: seq<JobId>,       // ids handed to Spawn, in order
    cancelled: set<JobId>,     // ids whose Cancel succeeded
    heldCheck: Option<Time>,   // clock of the last CheckHeld pass without a failed write
    stuckCheck: Option<Time>,  // clock of the last CheckStuck pass without a failed write
    fits: Option<int>)         // effective memory of the last un-hold pass, if no write of it failed

  datatype Event =
    // the scheduler goroutine
    | TickStart(snapshot: seq<Job>)
    | TickAbort
    | ReadMemory(free: int)
    | CheckHeldStep(fault: bool)
    | CheckHeldDone
    | CheckStuckStep(fault: bool)
    | CheckStuckDone
    | UnholdStep(fault: bool)
    | UnholdDone
    | Pick(next: Option<Job>)
    | DecideStep(fault: bool)
    | Spawn
    // everybody else
    | Insert(id: JobId, ram: nat, queuedAt: Time)
    | Cancel(id: JobId, fault: bool)
    | DeleteProject(ids: set<JobId>)
    | RunnerMove(id: JobId, to: Status, fault: bool)
    | RunnerFinish(id: JobId, to: Status, msg: string, fault: bool)
    | RunnerExit(id: JobId)
    | Advance(d: Time)
    | Crash
    | Boot(rows: seq<Job>)
    | RecoverStep(fault: bool)
    | RecoverDone

  predicate Up(p: Phase) { !p.Down? && !p.Recovering? }

  predicate HasSnapshot(p: Phase) { p.Listed? || p.CheckingHeld? || p.CheckingStuck? }

  predicate HasEffective(p: Phase) {
    p.CheckingHeld? || p.CheckingStuck? || p.Unholding? || p.Picking? || p.Deciding?
  }

  ghost predicate Init(s: State) {
    && s.avail >= 1
    && s == State(s.avail, map[], Down, {}, s.clock, {}, [], {}, None, None, None)
  }

  ghost predicate Enabled(s: State, e: Event) {
    match e
    case TickStart(snapshot) => s.phase.Idle? && IsActiveList(s.jobs, snapshot)
    case TickAbort => s.phase.Listed? || s.phase.Picking?
    case ReadMemory(free) => s.phase.Listed?
    case CheckHeldStep(_) => s.phase.CheckingHeld? && s.phase.todo != []
    case CheckHeldDone => s.phase.CheckingHeld? && s.phase.todo == []
    case CheckStuckStep(_) => s.phase.CheckingStuck? && s.phase.todo != []
    case CheckStuckDone => s.phase.CheckingStuck? && s.phase.todo == []
    case UnholdStep(_) => s.phase.Unholding? && s.phase.todo != []
    case UnholdDone => s.phase.Unholding? && s.phase.todo == []
    case Pick(next) => s.phase.Picking? && IsNextPending(s.jobs, next)
    case DecideStep(_) => s.phase.Deciding?
    case Spawn => s.phase.Dispatching?
    case Insert(id, _, _) => Up(s.phase) && id !in s.used
    case Cancel(_, _) => Up(s.phase)
    case DeleteProject(_) => Up(s.phase)
    case RunnerMove(id, to, _) => id in s.live && to in [Building, HealthCheck, Swapping, HotSwapping]
    case RunnerFinish(id, to, _, _) => id in s.live && Terminal(to)
    case RunnerExit(id) => id in s.live
    case Advance(d) => d >= 0
    case Crash => true
    case Boot(rows) => s.phase.Down? && IsActiveList(s.jobs, rows)
    case RecoverStep(_) => s.phase.Recovering? && s.phase.todo != []
    case RecoverDone => s.phase.Recovering? && s.phase.todo == []
  }

  ghost function JobsAfter(s: State, e: Event): Table
    requires Enabled(s, e)
  {
    match e
    case CheckHeldStep(fault) =>
      if fault then s.jobs else CheckHeldOne(s.jobs, s.phase.todo[0], s.avail, s.phase.now)
    case CheckStuckStep(fault) =>
      if fault then s.jobs else CheckStuckOne(s.jobs, s.phase.todo[0], s.phase.now)
    case UnholdStep(fault) =>
      if fault then s.jobs else UnholdOne(s.jobs, s.phase.todo[0], s.phase.effective)
    case DecideStep(fault) =>
      if fault then s.jobs else Decide(s.jobs, s.avail, s.phase.effective, s.phase.next, s.clock)
    case Insert(id, ram, queuedAt) => s.jobs[id := FreshRow(ram, queuedAt)]
    case Cancel(id, fault) => if fault then s.jobs else CancelIn(s.jobs, id, s.clock)
    case DeleteProject(ids) => s.jobs - ids
    case RunnerMove(id, to, fault) => if fault then s.jobs else MoveIn(s.jobs, id, to)
    case RunnerFinish(id, to, msg, fault) => if fault then s.jobs else FinishIn(s.jobs, id, to, msg, s.clock)
    case RecoverStep(fault) =>
      if !fault && Queue.Interrupted(s.phase.todo[0].row.status)
      then FailIn(s.jobs, s.phase.todo[0].id, INTERRUPTED_TEXT, s.clock) else s.jobs
    case _ => s.jobs
  }

  // Whether DecideStep ends in an accepted MarkStarted.
  predicate StartsJob(s: State, fault: bool)
    requires s.phase.Deciding?
  {
    !fault && Starts(s.jobs, s.avail, s.phase.effective, s.phase.next)
  }

  ghost function PhaseAfter(s: State, e: Event): Phase
    requires Enabled(s, e)
  {
    match e
    case TickStart(snapshot) => Listed(snapshot)
    case TickAbort => Idle
    case ReadMemory(free) =>
      CheckingHeld(s.phase.snap, Effective(free, s.avail, s.phase.snap), s.clock, HeldJobs(s.phase.snap), true)
    case CheckHeldStep(fault) =>
      CheckingHeld(s.phase.snap, s.phase.effective, s.phase.now, s.phase.todo[1..],
                   s.phase.clean && !(fault && HeldPassFails(s.phase.todo[0], s.avail, s.phase.now)))
    case CheckHeldDone => CheckingStuck(s.phase.snap, s.phase.effective, s.clock, s.phase.snap, true)
    case CheckStuckStep(fault) =>
      CheckingStuck(s.phase.snap, s.phase.effective, s.phase.now, s.phase.todo[1..],
                    s.phase.clean && !(fault && StuckPassFails(s.phase.todo[0], s.phase.now)))
    case CheckStuckDone => Unholding(s.phase.effective, HeldJobs(s.phase.snap), true)
    case UnholdStep(fault) =>
      Unholding(s.phase.effective, s.phase.todo[1..],
                s.phase.clean && !(fault && s.phase.todo[0].row.ram <= s.phase.effective))
    case UnholdDone => Picking(s.phase.effective, s.phase.clean)
    case Pick(next) =>
      if next.None? then Idle else Deciding(s.phase.effective, s.phase.clean, next.value, s.jobs.Keys)
    case DecideStep(fault) => if StartsJob(s, fault) then Dispatching(s.phase.next) else Idle
    case Spawn => Idle
    case Crash => Down
    case Boot(rows) => Recovering(rows, true)
    case RecoverStep(fault) =>
      Recovering(s.phase.todo[1..], s.phase.clean && !(fault && Queue.Interrupted(s.phase.todo[0].row.status)))
    case RecoverDone => Idle
    case _ => s.phase
  }

  // Spawn refuses a job that is still tracked.
  predicate SpawnRefused(s: State)
    requires s.phase.Dispatching?
  {
    s.phase.next.id in s.live
  }

  ghost function LiveAfter(s: State, e: Event): set<JobId>
    requires Enabled(s, e)
  {
    match e
    case Spawn => s.live + {s.phase.next.id}
    case RunnerExit(id) => s.live - {id}
    case Crash => {}
    case _ => s.live
  }

  ghost function Exec(s: State, e: Event): State
    requires Enabled(s, e)
  {
    State(
      s.avail,
      JobsAfter(s, e),
      PhaseAfter(s, e),
      LiveAfter(s, e),
      if e.Advance? then s.clock + e.d else s.clock,
      if e.Insert? then s.used + {e.id} else s.used,
      if e.Spawn? then s.spawned + [s.phase.next.id] else s.spawned,
      if e.Cancel? && !e.fault && Cancellable(s.jobs, e.id) then s.cancelled + {e.id} else s.cancelled,
      if e.CheckHeldDone? && s.phase.clean then Some(s.phase.now) else s.heldCheck,
      if e.CheckStuckDone? && s.phase.clean then Some(s.phase.now) else s.stuckCheck,
      if e.UnholdDone? then (if s.phase.clean then Some(s.phase.effective) else None) else s.fits)
  }

  // ---------------------------------------------------------------- runs

  ghost predicate IsRun(states: seq<State>, events: seq<Event>) {
    && |states| == |events| + 1
    && Init(states[0])
    && forall k :: 0 <= k < |events| ==> Enabled(states[k], events[k]) && states[k + 1] == Exec(states[k], events[k])
  }

  // ---------------------------------------------------------------- the inductive invariant

  ghost predicate RowsOk(s: State) {
    && s.avail >= 1
    && s.jobs.Keys <= s.used
    && forall id :: id in s.jobs ==> RowOk(s, s.jobs[id])
  }

  ghost predicate RowOk(s: State, r: Row) {
    && (r.status == Held ==> r.heldAt.Some? && r.heldAt.value <= s.clock && r.ram <= s.avail)
    && (InFlight(r.status) ==> r.startedAt.Some? && r.startedAt.value <= s.clock)
  }

  ghost predicate BudgetOk(s: State) {
    var load := Total(InFlightRam, s.jobs);
    && load <= s.avail
    && (s.phase.Listed? ==> load <= ListTotal(InFlightRam, s.phase.snap) <= s.avail)
    && (HasEffective(s.phase) ==> s.phase.effective + load <= s.avail)
  }

  ghost predicate HistoryOk(s: State) {
    && (forall i, j :: 0 <= i < j < |s.spawned| ==> s.spawned[i] != s.spawned[j])
    && (forall id :: id in s.spawned ==> id in s.used && id !in s.cancelled)
    && (forall id :: id in s.spawned && id in s.jobs ==> !Waiting(s.jobs[id].status))
    && (forall id :: id in s.live ==> id in s.spawned)
    && s.cancelled <= s.used
    && (forall id :: id in s.cancelled && id in s.jobs ==> s.jobs[id].status == Failed)
    && (!Up(s.phase) ==> s.live == {})
  }

  // The job tick is about to decide on, or to spawn.
  ghost predicate NextOk(s: State) {
    && (s.phase.Deciding? ==> Undispatched(s, s.phase.next) && s.phase.known <= s.used)
    && (s.phase.Dispatching? ==>
          var id := s.phase.next.id;
          id in s.used && id !in s.spawned && id !in s.cancelled && (id in s.jobs ==> s.jobs[id].status == Running))
  }

  ghost predicate Undispatched(s: State, j: Job) {
    && j.id in s.used && j.id !in s.spawned
    && (j.id in s.jobs ==>
          && s.jobs[j.id].ram == j.row.ram && s.jobs[j.id].queuedAt == j.row.queuedAt
          && (s.jobs[j.id].status == Pending || s.jobs[j.id].status == Failed))
  }

  // A held job of the snapshot is still held, since the same time, or has failed.
  ghost predicate StillHeld(s: State, j: Job) {
    && j.id in s.used && j.id !in s.spawned
    && (j.id in s.jobs ==>
          && s.jobs[j.id].ram == j.row.ram
          && (s.jobs[j.id].status == Failed || (s.jobs[j.id].status == Held && s.jobs[j.id].heldAt == j.row.heldAt)))
  }

  ghost predicate HeldIn(js: seq<Job>, id: JobId, r: Row) {
    exists j :: j in js && j.id == id && j.row.status == Held && j.row.heldAt == r.heldAt && j.row.ram == r.ram
  }

  ghost predicate InFlightIn(js: seq<Job>, id: JobId, r: Row) {
    exists j :: j in js && j.id == id && InFlight(j.row.status) && j.row.startedAt == r.startedAt
  }

  // Nothing becomes held, and nothing enters flight, between the snapshot and the end of the
  // passes over it; so every such row is in the snapshot.
  ghost predicate SnapshotOk(s: State) {
    HasSnapshot(s.phase) ==>
      && DistinctIds(s.phase.snap)
      && (forall j :: j in s.phase.snap ==> j.id in s.used)
      && (forall j :: j in s.phase.snap && j.row.status == Held ==> StillHeld(s, j))
      && (forall id :: id in s.jobs && s.jobs[id].status == Held ==> HeldIn(s.phase.snap, id, s.jobs[id]))
      && (forall id :: id in s.jobs && InFlight(s.jobs[id].status) ==> InFlightIn(s.phase.snap, id, s.jobs[id]))
  }

  ghost predicate UnholdOk(s: State) {
    s.phase.Unholding? ==>
      && DistinctIds(s.phase.todo)
      && (forall j :: j in s.phase.todo ==> StillHeld(s, j))
      && (forall id :: id in s.jobs && s.jobs[id].status == Held ==>
            !s.phase.clean || s.jobs[id].ram > s.phase.effective || HeldIn(s.phase.todo, id, s.jobs[id]))
  }

  // The last clean passes bound how long ago a row was held or started.
  ghost predicate TimelyOk(s: State) {
    && (s.heldCheck.Some? ==> s.heldCheck.value <= s.clock)
    && (s.stuckCheck.Some? ==> s.stuckCheck.value <= s.clock)
    && (forall id :: id in s.jobs && s.jobs[id].status == Held ==>
          s.heldCheck.Some? ==> s.jobs[id].heldAt.Some? && s.heldCheck.value - s.jobs[id].heldAt.value <= HOLD_AUTO_FAIL)
    && (forall id :: id in s.jobs && InFlight(s.jobs[id].status) ==>
          s.stuckCheck.Some? ==> s.jobs[id].startedAt.Some? && s.stuckCheck.value - s.jobs[id].startedAt.value <= STUCK_AFTER)
  }

  ghost predicate PassesOk(s: State) {
    && (s.phase.CheckingHeld? ==>
          && s.phase.now <= s.clock
          && (forall id :: id in s.jobs && s.jobs[id].status == Held && s.phase.clean ==>
                || (s.jobs[id].heldAt.Some? && s.phase.now - s.jobs[id].heldAt.value <= HOLD_AUTO_FAIL)
                || HeldIn(s.phase.todo, id, s.jobs[id])))
    && (s.phase.CheckingStuck? ==>
          && s.phase.now <= s.clock
          && (forall id :: id in s.jobs && InFlight(s.jobs[id].status) && s.phase.clean ==>
                || (s.jobs[id].startedAt.Some? && s.phase.now - s.jobs[id].startedAt.value <= STUCK_AFTER)
                || InFlightIn(s.phase.todo, id, s.jobs[id])))
    && (s.phase.CheckingHeld? ==> forall j :: j in s.phase.todo ==> j in s.phase.snap && j.row.status == Held)
    && (s.phase.CheckingStuck? ==> forall j :: j in s.phase.todo ==> j in s.phase.snap)
  }

  ghost predicate FitsOk(s: State) {
    && (s.fits.Some? ==> forall id :: id in s.jobs && s.jobs[id].status == Held ==> s.jobs[id].ram > s.fits.value)
    && (s.phase.Picking? || s.phase.Deciding? ==> s.fits == if s.phase.clean then Some(s.phase.effective) else None)
  }

  // Rows the pick could see and that are older than the job it chose.
  ghost predicate OvertakeOk(s: State) {
    s.phase.Deciding? && s.phase.clean ==>
      forall id :: id in s.phase.known && id in s.jobs && s.jobs[id].queuedAt < s.phase.next.row.queuedAt ==>
        || !Active(s.jobs[id].status)
        || InFlight(s.jobs[id].status)
        || (s.jobs[id].status == Held && s.jobs[id].ram > s.phase.effective)
  }

  // Nobody else writes while recovery walks its list, so the list stays up to date.
  ghost predicate RecoverOk(s: State) {
    s.phase.Recovering? ==>
      && DistinctIds(s.phase.todo)
      && (forall j :: j in s.phase.todo ==> j.id in s.jobs && s.jobs[j.id] == j.row)
      && (forall id :: id in s.jobs && Queue.Interrupted(s.jobs[id].status) && s.phase.clean ==>
            Job(id, s.jobs[id]) in s.phase.todo)
  }

  ghost predicate Inv(s: State) {
    && RowsOk(s) && BudgetOk(s) && HistoryOk(s) && NextOk(s) && SnapshotOk(s) && UnholdOk(s)
    && TimelyOk(s) && PassesOk(s) && FitsOk(s) && OvertakeOk(s) && RecoverOk(s)
  }
}
