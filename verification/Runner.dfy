/** One job's run through its pipeline. Stages are arbitrary successes or failures; between any
    two of the runner's own writes the rest of the system may do to the job's row whatever
    SystemTheorems.OthersKeepTheRely allows: nothing, fail it, or delete it. */
module Runner {
  import opened Basics
  import opened Jobs
  import opened Queue
  import opened SystemTheorems

  datatype Stage = Fetch | Build | Health | Swap | HotSwap

  // Everything the run depends on that is not the job's row.
  datatype Outcomes = Outcomes(
    logOpens: bool, projectLoads: bool, projectInstallation: int, appInstallation: int, tokenIssued: bool,
    fetch: bool, commitIsHead: bool, headResolves: bool, hotSwapMode: bool,
    hasEnv: bool, envDecrypts: bool, envWritten: bool,
    build: bool, health: bool, swap: bool, hotSwap: bool)

  // The actions of a run. A call into the queue carries the status the row had, if it still existed.
  datatype Action =
    | Ran(stage: Stage, ok: bool)
    | Moved(to: Status, seen: Option<Status>)
    | CleanedUp(succeeded: bool)
    | Finished(to: Status, seen: Option<Status>)
  {
    predicate QueueCall() { Moved? || Finished? }

    predicate Accepted()
      requires QueueCall()
    {
      seen.Some? && Allowed(seen.value, to)
    }
  }

  type Trace = seq<Action>

  // ---------------------------------------------------------------- what a run does

  // The phases after the fetch: announce a status and, if that is accepted, run the stage.
  datatype Plan = Finishing | Through(to: Status, stage: Stage, ok: bool, rest: Plan)

  function SwapPlan(o: Outcomes): Plan { Through(Swapping, Swap, o.swap, Finishing) }

  function HealthPlan(o: Outcomes): Plan { Through(HealthCheck, Health, o.health, SwapPlan(o)) }

  function PlanOf(o: Outcomes): Plan {
    if o.hotSwapMode then Through(HotSwapping, HotSwap, o.hotSwap, Finishing)
    else Through(Building, Build, o.build, HealthPlan(o))
  }

  // The rest of a run, from action n on.

  predicate Fails(t: Trace, n: nat) {
    |t| == n + 1 && t[n].Finished? && t[n].to == Failed
  }

  predicate CleansAndFails(t: Trace, n: nat) {
    |t| == n + 2 && t[n] == CleanedUp(false) && Fails(t, n + 1)
  }

  predicate CleansAndSucceeds(t: Trace, n: nat) {
    |t| == n + 2 && t[n] == CleanedUp(true) && t[n + 1].Finished? && t[n + 1].to == Success
  }

  // From action n on, t is a possible sequence of actions for the phases of p.
  predicate Follows(p: Plan, t: Trace, n: nat)
    decreases p
  {
    match p
    case Finishing => CleansAndSucceeds(t, n)
    case Through(to, stage, ok, rest) =>
      && |t| > n + 1 && t[n].Moved? && t[n].to == to
      && if !t[n].Accepted() then CleansAndFails(t, n + 1)
         else t[n + 1] == Ran(stage, ok) && (if ok then Follows(rest, t, n + 2) else CleansAndFails(t, n + 2))
  }

  function InstallationId(o: Outcomes): int {
    if o.projectInstallation == 0 && o.appInstallation > 0 then o.appInstallation else o.projectInstallation
  }

  predicate Prepared(o: Outcomes) {
    o.logOpens && o.projectLoads && InstallationId(o) != 0 && o.tokenIssued
  }

  predicate HeadKnown(o: Outcomes) {
    o.commitIsHead ==> o.headResolves
  }

  // Only rebuilds write the project's variables into the workspace.
  predicate EnvInjected(o: Outcomes) {
    !o.hotSwapMode && o.hasEnv ==> o.envDecrypts && o.envWritten
  }

  predicate ReachesBoundary(o: Outcomes) {
    Prepared(o) && o.fetch && HeadKnown(o) && EnvInjected(o)
  }

  predicate IsRunOf(o: Outcomes, t: Trace) {
    if !Prepared(o) then Fails(t, 0)
    else
      && t != [] && t[0] == Ran(Fetch, o.fetch)
      && if ReachesBoundary(o) then Follows(PlanOf(o), t, 1) else Fails(t, 1)
  }

  // The run returns nil exactly when it ends by reporting success.
  predicate ReturnsNil(t: Trace) {
    t != [] && t[|t| - 1].Finished? && t[|t| - 1].to == Success
  }

  // ---------------------------------------------------------------- what every plan guarantees

  predicate InPlan(p: Plan, to: Status, stage: Stage) {
    p.Through? && ((p.to == to && p.stage == stage) || InPlan(p.rest, to, stage))
  }

  // A stage starts only directly after its own move was accepted.
  lemma {:induction false} PlanStagesFollowTheirBoundary(p: Plan, t: Trace, n: nat, k: nat)
    requires Follows(p, t, n) && n <= k < |t| && t[k].Ran?
    ensures k > n && t[k - 1].Moved? && t[k - 1].Accepted() && InPlan(p, t[k - 1].to, t[k].stage)
  {
    if p.Through? && t[n].Accepted() && p.ok && k >= n + 2 {
      PlanStagesFollowTheirBoundary(p.rest, t, n + 2, k);
    }
  }

  // A rejected move ends the run: cleanup, the failing write, nothing else.
  lemma {:induction false} PlanRejectionEndsTheRun(p: Plan, t: Trace, n: nat, k: nat)
    requires Follows(p, t, n) && n <= k < |t| && t[k].Moved? && !t[k].Accepted()
    ensures CleansAndFails(t, k + 1)
  {
    if p.Through? && t[n].Accepted() && p.ok {
      PlanRejectionEndsTheRun(p.rest, t, n + 2, k);
    }
  }

  // The last two actions are the cleanup and the terminal write, and nothing else is either of them.
  lemma {:induction false} PlanEnd(p: Plan, t: Trace, n: nat)
    requires Follows(p, t, n)
    ensures |t| >= n + 2 && t[|t| - 1].Finished? && t[|t| - 1].to == (if ReturnsNil(t) then Success else Failed)
    ensures t[|t| - 2] == CleanedUp(ReturnsNil(t))
    ensures forall k :: n <= k < |t| - 2 ==> t[k].Moved? || t[k].Ran?
    ensures ReturnsNil(t) ==> AllOk(p)
    ensures AllOk(p) && AllAccepted(t, n) ==> ReturnsNil(t)
  {
    if p.Through? && t[n].Accepted() && p.ok {
      PlanEnd(p.rest, t, n + 2);
    }
  }

  predicate AllOk(p: Plan) {
    p.Through? ==> p.ok && AllOk(p.rest)
  }

  predicate AllAccepted(t: Trace, n: nat) {
    forall k :: n <= k < |t| && t[k].QueueCall() ==> t[k].Accepted()
  }

  // ---------------------------------------------------------------- what every run guarantees

  function StatusOf(stage: Stage): Status {
    match stage
    case Fetch => Running
    case Build => Building
    case Health => HealthCheck
    case Swap => Swapping
    case HotSwap => HotSwapping
  }

  lemma StagesFollowTheirBoundary(o: Outcomes, t: Trace, k: nat)
    requires IsRunOf(o, t) && k < |t| && t[k].Ran? && t[k].stage != Fetch
    ensures k > 0 && t[k - 1].Moved? && t[k - 1].Accepted() && t[k - 1].to == StatusOf(t[k].stage)
  {
    PlanStagesFollowTheirBoundary(PlanOf(o), t, 1, k);
    InPlanOf(o, t[k - 1].to, t[k].stage);
  }

  lemma InPlanOf(o: Outcomes, to: Status, stage: Stage)
    requires InPlan(PlanOf(o), to, stage)
    ensures to == StatusOf(stage)
    ensures if o.hotSwapMode then stage == HotSwap else stage == Build || stage == Health || stage == Swap
  {
    assert InPlan(SwapPlan(o), to, stage) <==> to == Swapping && stage == Swap;
    assert InPlan(HealthPlan(o), to, stage) <==>
      (to == HealthCheck && stage == Health) || InPlan(SwapPlan(o), to, stage);
  }

  // Hot-swap runs never build, check health or swap; rebuild runs never hot-swap.
  lemma ModesDoNotMix(o: Outcomes, t: Trace, k: nat)
    requires IsRunOf(o, t) && k < |t| && t[k].Ran? && k > 0
    ensures if o.hotSwapMode then t[k].stage == HotSwap
            else t[k].stage == Build || t[k].stage == Health || t[k].stage == Swap
  {
    PlanStagesFollowTheirBoundary(PlanOf(o), t, 1, k);
    InPlanOf(o, t[k - 1].to, t[k].stage);
  }

  // Swapping production happens only after fetch, build and health check succeeded, in this
  // order, and the move to swapping was accepted.
  lemma SwapOnlyWhenChecked(o: Outcomes, t: Trace, k: nat)
    requires IsRunOf(o, t) && k < |t| && t[k].Ran? && t[k].stage == Swap
    ensures k == 6
    ensures t[0] == Ran(Fetch, true) && t[2] == Ran(Build, true) && t[4] == Ran(Health, true)
    ensures t[1].Moved? && t[1].to == Building && t[1].Accepted()
    ensures t[3].Moved? && t[3].to == HealthCheck && t[3].Accepted()
    ensures t[5].Moved? && t[5].to == Swapping && t[5].Accepted()
  {
    ModesDoNotMix(o, t, k);
    assert Follows(PlanOf(o), t, 1);
    assert t[1].Accepted() && o.build && Follows(HealthPlan(o), t, 3);
    assert t[3].Accepted() && o.health && Follows(SwapPlan(o), t, 5);
  }

  // A boundary call rejected because the row was failed or deleted meanwhile ends the run.
  lemma RejectionEndsTheRun(o: Outcomes, t: Trace, k: nat)
    requires IsRunOf(o, t) && k < |t| && t[k].Moved? && !t[k].Accepted()
    ensures CleansAndFails(t, k + 1)
  {
    PlanRejectionEndsTheRun(PlanOf(o), t, 1, k);
  }

  // Exactly one terminal write, at the end. Cleanup runs exactly when a boundary was reached, and
  // then exactly once, right before that write and after every stage.
  lemma CleanupOnceThenFinish(o: Outcomes, t: Trace, k: nat)
    requires IsRunOf(o, t) && k < |t|
    ensures t[k].Finished? <==> k == |t| - 1
    ensures t[k].CleanedUp? <==> k == |t| - 2 && ReachesBoundary(o)
    ensures ReachesBoundary(o) <==> exists b :: 0 <= b < |t| && t[b].Moved?
    ensures t[k].CleanedUp? ==> t[k].succeeded == ReturnsNil(t)
  {
    if ReachesBoundary(o) {
      PlanEnd(PlanOf(o), t, 1);
      assert t[1].Moved?;
    }
  }

  // What a run needs in order to succeed.
  predicate Succeeds(o: Outcomes) {
    && o.logOpens && o.projectLoads
    && (o.projectInstallation != 0 || o.appInstallation > 0)
    && o.tokenIssued && o.fetch
    && (o.commitIsHead ==> o.headResolves)
    && if o.hotSwapMode then o.hotSwap
       else (o.hasEnv ==> o.envDecrypts && o.envWritten) && o.build && o.health && o.swap
  }

  // The hot swap runs only after the fetch succeeded and the move to hot_swapping was accepted.
  lemma HotSwapOnlyWhenAccepted(o: Outcomes, t: Trace, k: nat)
    requires IsRunOf(o, t) && k < |t| && t[k].Ran? && t[k].stage == HotSwap
    ensures k == 2 && o.hotSwapMode && t[0] == Ran(Fetch, true)
    ensures t[1].Moved? && t[1].to == HotSwapping && t[1].Accepted()
  {
    ModesDoNotMix(o, t, k);
    assert Follows(PlanOf(o), t, 1);
  }

  // A run that returns nil, action by action.
  lemma SuccessfulRun(o: Outcomes, t: Trace)
    requires IsRunOf(o, t) && ReturnsNil(t)
    ensures t[0] == Ran(Fetch, true)
    ensures o.hotSwapMode ==>
              |t| == 5 && t[2] == Ran(HotSwap, true) && t[3] == CleanedUp(true)
    ensures !o.hotSwapMode ==>
              |t| == 9 && t[2] == Ran(Build, true) && t[4] == Ran(Health, true) && t[6] == Ran(Swap, true)
              && t[7] == CleanedUp(true)
  {
    assert Follows(PlanOf(o), t, 1);
    if !o.hotSwapMode {
      assert Follows(HealthPlan(o), t, 3);
      assert Follows(SwapPlan(o), t, 5);
    }
  }

  // Returning nil always means that everything the run depends on succeeded; a run in which that
  // is so and every call into the queue is accepted returns nil.
  lemma NilMeansEverythingSucceeded(o: Outcomes, t: Trace)
    requires IsRunOf(o, t)
    ensures ReturnsNil(t) ==> Succeeds(o)
    ensures Succeeds(o) && AllAccepted(t, 0) ==> ReturnsNil(t)
    ensures !ReturnsNil(t) ==> t != [] && t[|t| - 1].Finished? && t[|t| - 1].to == Failed
  {
    if ReachesBoundary(o) {
      PlanEnd(PlanOf(o), t, 1);
      assert AllOk(SwapPlan(o)) <==> o.swap;
      assert AllOk(HealthPlan(o)) <==> o.health && o.swap;
      assert AllOk(PlanOf(o)) <==> if o.hotSwapMode then o.hotSwap else o.build && o.health && o.swap;
    }
  }

  // ---------------------------------------------------------------- the class

  function StatusIn(t: Table, id: JobId): Option<Status> {
    if id in t then Some(t[id].status) else None
  }

  predicate SameRow(a: Table, b: Table, id: JobId) {
    (id in a <==> id in b) && (id in a ==> a[id] == b[id])
  }

  // The statuses a row may show to the runner that left it at "from".
  predicate SeenAfter(from: Option<Status>, seen: Option<Status>, calm: bool) {
    seen == from || (!calm && (seen == None || seen == Some(Failed)))
  }

  // A row at this status, or failed or deleted meanwhile.
  predicate AtMost(seen: Option<Status>, expected: Status) {
    seen == None || seen == Some(Failed) || seen == Some(expected)
  }

  // What a run leaves: the row is gone, failed, or successful; successful exactly when the
  // run returned nil and its terminal write was accepted.
  ghost predicate RowLeft(last: Option<Status>, nil: bool, t: Trace) {
    && (last == None || last == Some(Failed) || last == Some(Success))
    && t != [] && t[|t| - 1].Finished?
    && (last == Some(Success) <==> nil && t[|t| - 1].Accepted())
    && (last == None ==> !t[|t| - 1].Accepted())
  }

  class Runner {
    const queue: Manager
    ghost var trace: Trace

    constructor (queue: Manager)
      ensures this.queue == queue && trace == []
    {
      this.queue := queue;
      trace := [];
    }

    // The rest of the system runs for a while. In calm runs it leaves this job's row alone.
    method Interfere(id: JobId, calm: bool)
      modifies queue.db
      ensures RunnerRely(old(queue.db.jobs), queue.db.jobs, id)
      ensures calm ==> SameRow(old(queue.db.jobs), queue.db.jobs, id)
    {
      var t: Table := *;
      if RunnerRely(queue.db.jobs, t, id) && (calm ==> SameRow(queue.db.jobs, t, id)) {
        queue.db.jobs := t;
      }
    }

    method RunStage(stage: Stage, outcome: bool) returns (ok: bool)
      modifies this
      ensures ok == outcome && trace == old(trace) + [Ran(stage, ok)]
    {
      ok := outcome;
      trace := trace + [Ran(stage, ok)];
    }

    method Cleanup(succeeded: bool)
      modifies this
      ensures trace == old(trace) + [CleanedUp(succeeded)]
    {
      trace := trace + [CleanedUp(succeeded)];
    }

    method Boundary(id: JobId, to: Status, calm: bool) returns (ok: bool, ghost seen: Option<Status>)
      modifies this, queue.db
      ensures trace == old(trace) + [Moved(to, seen)]
      ensures ok == Moved(to, seen).Accepted()
      ensures StatusIn(queue.db.jobs, id) == if ok then Some(to) else seen
      ensures SeenAfter(StatusIn(old(queue.db.jobs), id), seen, calm)
    {
      Interfere(id, calm);
      seen := StatusIn(queue.db.jobs, id);
      ok := queue.UpdateStatus(id, to);
      trace := trace + [Moved(to, seen)];
    }

    method Finish(id: JobId, to: Status, msg: string, calm: bool) returns (ghost seen: Option<Status>)
      modifies this, queue.db
      ensures trace == old(trace) + [Finished(to, seen)]
      ensures StatusIn(queue.db.jobs, id) == if Finished(to, seen).Accepted() then Some(to) else seen
      ensures SeenAfter(StatusIn(old(queue.db.jobs), id), seen, calm)
    {
      Interfere(id, calm);
      seen := StatusIn(queue.db.jobs, id);
      var now: Time := *;
      var _ := queue.MarkFinished(id, to, msg, now);
      trace := trace + [Finished(to, seen)];
    }

    // What the parts of a run promise: they append actions, they return nil exactly when the last
    // of these reports success, they leave the row as RowLeft says, and in a calm run that starts
    // from the status they expect every call into the queue is accepted.
    ghost predicate Done(before: Trace, nil: bool, last: Option<Status>, calm: bool)
      reads this
    {
      && before <= trace && |before| < |trace|
      && nil == ReturnsNil(trace)
      && RowLeft(last, nil, trace)
      && (calm ==> AllAccepted(trace, |before|))
    }

    // fail: record the failure, return the error.
    method Fail(id: JobId, msg: string, calm: bool) returns (nil: bool)
      requires StatusIn(queue.db.jobs, id) != Some(Success)
      modifies this, queue.db
      ensures Fails(trace, |old(trace)|)
      ensures Done(old(trace), nil, StatusIn(queue.db.jobs, id),
                   calm && old(StatusIn(queue.db.jobs, id).Some? && InFlight(StatusIn(queue.db.jobs, id).value)))
    {
      ghost var seen := Finish(id, Failed, msg, calm);
      if seen.Some? {
        StateGraph(seen.value, Failed);
      }
      nil := false;
    }

    method CleanupAndFail(id: JobId, msg: string, calm: bool) returns (nil: bool)
      requires StatusIn(queue.db.jobs, id) != Some(Success)
      modifies this, queue.db
      ensures CleansAndFails(trace, |old(trace)|)
      ensures Done(old(trace), nil, StatusIn(queue.db.jobs, id),
                   calm && old(StatusIn(queue.db.jobs, id).Some? && InFlight(StatusIn(queue.db.jobs, id).value)))
    {
      Cleanup(false);
      nil := Fail(id, msg, calm);
    }

    // The common end of both paths; a rejected success is only logged by the source.
    method CleanupAndSucceed(id: JobId, from: Status, calm: bool) returns (nil: bool)
      requires from == Swapping || from == HotSwapping
      requires AtMost(StatusIn(queue.db.jobs, id), from)
      modifies this, queue.db
      ensures CleansAndSucceeds(trace, |old(trace)|)
      ensures Done(old(trace), nil, StatusIn(queue.db.jobs, id), calm && old(StatusIn(queue.db.jobs, id)) == Some(from))
    {
      Cleanup(true);
      ghost var seen := Finish(id, Success, "", calm);
      nil := true;
    }

    method SwapAndFinish(id: JobId, o: Outcomes, calm: bool) returns (nil: bool)
      requires AtMost(StatusIn(queue.db.jobs, id), HealthCheck)
      modifies this, queue.db
      ensures Follows(SwapPlan(o), trace, |old(trace)|)
      ensures Done(old(trace), nil, StatusIn(queue.db.jobs, id), calm && old(StatusIn(queue.db.jobs, id)) == Some(HealthCheck))
    {
      var ok, seen := Boundary(id, Swapping, calm);
      if !ok {
        nil := CleanupAndFail(id, "move rejected", calm);
        return;
      }
      ok := RunStage(Swap, o.swap);
      if !ok {
        nil := CleanupAndFail(id, "swap", calm);
      } else {
        nil := CleanupAndSucceed(id, Swapping, calm);
      }
    }

    method CheckHealthAndGoOn(id: JobId, o: Outcomes, calm: bool) returns (nil: bool)
      requires AtMost(StatusIn(queue.db.jobs, id), Building)
      modifies this, queue.db
      ensures Follows(HealthPlan(o), trace, |old(trace)|)
      ensures Done(old(trace), nil, StatusIn(queue.db.jobs, id), calm && old(StatusIn(queue.db.jobs, id)) == Some(Building))
    {
      var ok, seen := Boundary(id, HealthCheck, calm);
      if !ok {
        nil := CleanupAndFail(id, "move rejected", calm);
        return;
      }
      ok := RunStage(Health, o.health);
      if !ok {
        nil := CleanupAndFail(id, "health check", calm);
      } else {
        nil := SwapAndFinish(id, o, calm);
      }
    }

    method BuildAndGoOn(id: JobId, o: Outcomes, calm: bool) returns (nil: bool)
      requires AtMost(StatusIn(queue.db.jobs, id), Running) && !o.hotSwapMode
      modifies this, queue.db
      ensures Follows(PlanOf(o), trace, |old(trace)|)
      ensures Done(old(trace), nil, StatusIn(queue.db.jobs, id), calm && old(StatusIn(queue.db.jobs, id)) == Some(Running))
    {
      var ok, seen := Boundary(id, Building, calm);
      if !ok {
        nil := CleanupAndFail(id, "move rejected", calm);
        return;
      }
      ok := RunStage(Build, o.build);
      if !ok {
        nil := CleanupAndFail(id, "build", calm);
      } else {
        nil := CheckHealthAndGoOn(id, o, calm);
      }
    }

    method RunHotSwapPath(id: JobId, o: Outcomes, calm: bool) returns (nil: bool)
      requires AtMost(StatusIn(queue.db.jobs, id), Running) && o.hotSwapMode
      modifies this, queue.db
      ensures Follows(PlanOf(o), trace, |old(trace)|)
      ensures Done(old(trace), nil, StatusIn(queue.db.jobs, id), calm && old(StatusIn(queue.db.jobs, id)) == Some(Running))
    {
      var ok, seen := Boundary(id, HotSwapping, calm);
      if !ok {
        nil := CleanupAndFail(id, "move rejected", calm);
        return;
      }
      ok := RunStage(HotSwap, o.hotSwap);
      if !ok {
        nil := CleanupAndFail(id, "hot swap", calm);
      } else {
        nil := CleanupAndSucceed(id, HotSwapping, calm);
      }
    }

    method AfterFetch(id: JobId, o: Outcomes, calm: bool) returns (nil: bool)
      requires AtMost(StatusIn(queue.db.jobs, id), Running) && Prepared(o) && o.fetch
      modifies this, queue.db
      ensures if ReachesBoundary(o) then Follows(PlanOf(o), trace, |old(trace)|) else Fails(trace, |old(trace)|)
      ensures Done(old(trace), nil, StatusIn(queue.db.jobs, id), calm && old(StatusIn(queue.db.jobs, id)) == Some(Running))
    {
      if o.commitIsHead && !o.headResolves {
        nil := Fail(id, "resolve HEAD", calm);
      } else if o.hotSwapMode {
        nil := RunHotSwapPath(id, o, calm);
      } else if o.hasEnv && (!o.envDecrypts || !o.envWritten) {
        nil := Fail(id, "env vars", calm);
      } else {
        nil := BuildAndGoOn(id, o, calm);
      }
    }

    // The run of one job. The result is the source's nil error. Whatever happened to the row
    // meanwhile, the actions form a run and the row ends as RowLeft says; if nothing happened to
    // it, the row is successful exactly when the run returns nil, and failed otherwise.
    method Run(id: JobId, o: Outcomes, calm: bool) returns (nil: bool)
      requires AtMost(StatusIn(queue.db.jobs, id), Running) && trace == []
      modifies this, queue.db
      ensures IsRunOf(o, trace) && nil == ReturnsNil(trace)
      ensures RowLeft(StatusIn(queue.db.jobs, id), nil, trace)
      ensures calm && old(StatusIn(queue.db.jobs, id)) == Some(Running) ==>
              && nil == Succeeds(o)
              && AllAccepted(trace, 0)
              && StatusIn(queue.db.jobs, id) == Some(if nil then Success else Failed)
    {
      var installID := o.projectInstallation;
      if installID == 0 && o.appInstallation > 0 {
        installID := o.appInstallation;
      }
      if !o.logOpens || !o.projectLoads || installID == 0 || !o.tokenIssued {
        nil := Fail(id, "preparation failed", calm);
        return;
      }
      var ok := RunStage(Fetch, o.fetch);
      if !ok {
        nil := Fail(id, "fetch", calm);
      } else {
        nil := AfterFetch(id, o, calm);
      }
      NilMeansEverythingSucceeded(o, trace);
    }
  }
}
