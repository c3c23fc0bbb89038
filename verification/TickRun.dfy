/** The scheduler's tick, run without interruption, is one run of the transition system; and a
    run in which a tick, interrupted at the wrong moment, overwrites a success. */
module TickRun {
  import opened Basics
  import opened Jobs
  import opened Ticks
  import opened System
  import opened SystemInvariant

  ghost predicate Steps(s: State, es: seq<Event>, t: State)
    decreases |es|
  {
    if es == [] then t == s
    else Enabled(s, es[0]) && Steps(Exec(s, es[0]), es[1..], t)
  }

  lemma {:induction false} StepsThen(s: State, es: seq<Event>, t: State, fs: seq<Event>, u: State)
    requires Steps(s, es, t) && Steps(t, fs, u)
    ensures Steps(s, es + fs, u)
    decreases |es|
  {
    if es == [] {
      assert es + fs == fs;
    } else {
      StepsThen(Exec(s, es[0]), es[1..], t, fs, u);
      assert (es + fs)[1..] == es[1..] + fs;
    }
  }

  lemma OneStep(s: State, e: Event)
    requires Enabled(s, e)
    ensures Steps(s, [e], Exec(s, e))
  {
    assert Steps(Exec(s, e), [e][1..], Exec(s, e));
  }

  lemma StepsSnoc(s: State, es: seq<Event>, t: State, e: Event) returns (all: seq<Event>)
    requires Steps(s, es, t) && Enabled(t, e)
    ensures Steps(s, all, Exec(t, e))
  {
    OneStep(t, e);
    StepsThen(s, es, t, [e], Exec(t, e));
    all := es + [e];
  }

  // ---------------------------------------------------------------- the passes

  lemma {:induction false} HeldPass(s: State) returns (es: seq<Event>, t: State)
    requires s.phase.CheckingHeld? && s.phase.clean
    ensures Steps(s, es, t)
    ensures t == s.(jobs := CheckHeldAll(s.jobs, s.phase.todo, s.avail, s.phase.now), phase := CheckingHeld(s.phase.snap, s.phase.effective, s.phase.now, [], true))
    decreases |s.phase.todo|
  {
    if s.phase.todo == [] {
      es, t := [], s;
    } else {
      var e := CheckHeldStep(false);
      es, t := HeldPass(Exec(s, e));
      es := [e] + es;
    }
  }

  lemma {:induction false} StuckPass(s: State) returns (es: seq<Event>, t: State)
    requires s.phase.CheckingStuck? && s.phase.clean
    ensures Steps(s, es, t)
    ensures t == s.(jobs := CheckStuckAll(s.jobs, s.phase.todo, s.phase.now), phase := CheckingStuck(s.phase.snap, s.phase.effective, s.phase.now, [], true))
    decreases |s.phase.todo|
  {
    if s.phase.todo == [] {
      es, t := [], s;
    } else {
      var e := CheckStuckStep(false);
      es, t := StuckPass(Exec(s, e));
      es := [e] + es;
    }
  }

  lemma {:induction false} UnholdPass(s: State) returns (es: seq<Event>, t: State)
    requires s.phase.Unholding? && s.phase.clean
    ensures Steps(s, es, t)
    ensures t == s.(jobs := UnholdAll(s.jobs, s.phase.todo, s.phase.effective), phase := Unholding(s.phase.effective, [], true))
    decreases |s.phase.todo|
  {
    if s.phase.todo == [] {
      es, t := [], s;
    } else {
      var e := UnholdStep(false);
      es, t := UnholdPass(Exec(s, e));
      es := [e] + es;
    }
  }

  // ---------------------------------------------------------------- the tick

  ghost predicate TickPossible(s: State, i: TickInput) {
    && s.phase.Idle? && TickInputOk(s.jobs, s.avail, i)
    && s.clock <= i.nowHeld <= i.nowStuck <= i.nowWrite
  }

  lemma SnapshotRun(s: State, i: TickInput) returns (es: seq<Event>, t: State)
    requires TickPossible(s, i)
    ensures Steps(s, es, t)
    ensures t == s.(clock := i.nowHeld,
                    phase := CheckingHeld(i.snapshot, Effective(i.free, s.avail, i.snapshot), i.nowHeld,
                                          HeldJobs(i.snapshot), true))
  {
    es := StepsSnoc(s, [], s, Advance(i.nowHeld - s.clock));
    var a := s.(clock := i.nowHeld);
    es := StepsSnoc(s, es, a, TickStart(i.snapshot));
    var b := a.(phase := Listed(i.snapshot));
    es := StepsSnoc(s, es, b, ReadMemory(i.free));
    t := Exec(b, ReadMemory(i.free));
  }

  lemma HeldDoneRun(s: State, now: Time) returns (es: seq<Event>, t: State)
    requires s.phase.CheckingHeld? && s.phase.clean && s.phase.todo == [] && s.clock <= now
    ensures Steps(s, es, t)
    ensures t == s.(clock := now, heldCheck := Some(s.phase.now),
                    phase := CheckingStuck(s.phase.snap, s.phase.effective, now, s.phase.snap, true))
  {
    es := StepsSnoc(s, [], s, Advance(now - s.clock));
    var a := s.(clock := now);
    es := StepsSnoc(s, es, a, CheckHeldDone);
    t := Exec(a, CheckHeldDone);
  }

  // From the snapshot to the end of the stuck check.
  lemma ChecksRun(s: State, i: TickInput) returns (es: seq<Event>, t: State)
    requires TickPossible(s, i)
    ensures Steps(s, es, t)
    ensures t.phase == CheckingStuck(i.snapshot, Effective(i.free, s.avail, i.snapshot), i.nowStuck, [], true)
    ensures t.jobs == CheckStuckAll(CheckHeldAll(s.jobs, HeldJobs(i.snapshot), s.avail, i.nowHeld), i.snapshot, i.nowStuck)
    ensures t.clock == i.nowStuck && t.avail == s.avail && t.spawned == s.spawned && t.live == s.live
  {
    var fs: seq<Event>;
    var a, b, c: State;
    es, a := SnapshotRun(s, i);
    fs, b := HeldPass(a);
    StepsThen(s, es, a, fs, b);
    es := es + fs;
    fs, c := HeldDoneRun(b, i.nowStuck);
    StepsThen(s, es, b, fs, c);
    es := es + fs;
    fs, t := StuckPass(c);
    StepsThen(s, es, c, fs, t);
    es := es + fs;
  }

  // From there to the moment before the second query.
  lemma PassesRun(s: State, i: TickInput) returns (es: seq<Event>, t: State)
    requires TickPossible(s, i)
    ensures Steps(s, es, t)
    ensures t.phase == Picking(Effective(i.free, s.avail, i.snapshot), true)
    ensures t.jobs == AfterPasses(s.jobs, s.avail, i)
    ensures t.clock == i.nowStuck && t.avail == s.avail && t.spawned == s.spawned && t.live == s.live
  {
    var fs: seq<Event>;
    var g, k: State;
    es, g := ChecksRun(s, i);
    es := StepsSnoc(s, es, g, CheckStuckDone);
    var h := g.(stuckCheck := Some(g.phase.now), phase := Unholding(g.phase.effective, HeldJobs(g.phase.snap), true));
    fs, k := UnholdPass(h);
    StepsThen(s, es, h, fs, k);
    es := StepsSnoc(s, es + fs, k, UnholdDone);
    t := Exec(k, UnholdDone);
  }

  ghost function StartedList(started: Option<JobId>): seq<JobId> {
    if started.Some? then [started.value] else []
  }

  ghost function StartedSet(started: Option<JobId>): set<JobId> {
    if started.Some? then {started.value} else {}
  }

  // The decision on the job picked, and the spawn if it was started.
  lemma DecisionRun(s: State) returns (es: seq<Event>, t: State)
    requires s.phase.Deciding?
    ensures Steps(s, es, t) && t.phase.Idle?
    ensures t.jobs == Decide(s.jobs, s.avail, s.phase.effective, s.phase.next, s.clock)
    ensures t.avail == s.avail && t.clock == s.clock
    ensures var started := if StartsJob(s, false) then Some(s.phase.next.id) else None;
            t.spawned == s.spawned + StartedList(started) && t.live == s.live + StartedSet(started)
  {
    es := StepsSnoc(s, [], s, DecideStep(false));
    t := Exec(s, DecideStep(false));
    if StartsJob(s, false) {
      es := StepsSnoc(s, es, t, Spawn);
      t := Exec(t, Spawn);
    }
  }

  // The table, the spawned jobs and the tracked jobs after an uninterrupted tick, as the tick
  // function gives them, are what some run of the system arrives at.
  lemma TickIsARun(s: State, i: TickInput) returns (es: seq<Event>, t: State)
    requires TickPossible(s, i)
    ensures Steps(s, es, t) && t.phase.Idle?
    ensures t.jobs == TickTable(s.jobs, s.avail, i)
    ensures t.spawned == s.spawned + StartedList(TickStarted(s.jobs, s.avail, i))
    ensures t.live == s.live + StartedSet(TickStarted(s.jobs, s.avail, i))
    ensures t.avail == s.avail && s.clock <= t.clock <= i.nowWrite
  {
    var a: State;
    var fs: seq<Event>;
    es, a := PassesRun(s, i);
    fs, t := PickRun(a, i.next, i.nowWrite);
    StepsThen(s, es, a, fs, t);
    es := es + fs;
  }

  lemma PickRun(s: State, next: Option<Job>, now: Time) returns (es: seq<Event>, t: State)
    requires s.phase.Picking? && IsNextPending(s.jobs, next) && s.clock <= now
    ensures Steps(s, es, t) && t.phase.Idle? && t.avail == s.avail && s.clock <= t.clock <= now
    ensures t.jobs == if next.None? then s.jobs else Decide(s.jobs, s.avail, s.phase.effective, next.value, now)
    ensures var started := if next.Some? && Starts(s.jobs, s.avail, s.phase.effective, next.value)
                           then Some(next.value.id) else None;
            t.spawned == s.spawned + StartedList(started) && t.live == s.live + StartedSet(started)
  {
    if next.None? {
      es := StepsSnoc(s, [], s, Pick(next));
      t := Exec(s, Pick(next));
    } else {
      var c: State;
      var fs: seq<Event>;
      es, c := PickedRun(s, next.value, now);
      fs, t := DecisionRun(c);
      StepsThen(s, es, c, fs, t);
      es := es + fs;
    }
  }

  lemma PickedRun(s: State, next: Job, now: Time) returns (es: seq<Event>, t: State)
    requires s.phase.Picking? && IsNextPending(s.jobs, Some(next)) && s.clock <= now
    ensures Steps(s, es, t)
    ensures t == s.(phase := Deciding(s.phase.effective, s.phase.clean, next, s.jobs.Keys), clock := now)
  {
    es := StepsSnoc(s, [], s, Pick(Some(next)));
    var b := s.(phase := Deciding(s.phase.effective, s.phase.clean, next, s.jobs.Keys));
    es := StepsSnoc(s, es, b, Advance(now - s.clock));
    t := Exec(b, Advance(now - s.clock));
  }

  // ---------------------------------------------------------------- runs

  lemma {:induction false} StepsGiveARun(s: State, es: seq<Event>, t: State, states: seq<State>, events: seq<Event>)
    returns (allStates: seq<State>, allEvents: seq<Event>)
    requires IsRun(states, events) && states[|events|] == s && Steps(s, es, t)
    ensures IsRun(allStates, allEvents) && allStates[|allEvents|] == t
    decreases |es|
  {
    if es == [] {
      allStates, allEvents := states, events;
    } else {
      var next := Exec(s, es[0]);
      allStates, allEvents := states + [next], events + [es[0]];
      assert IsRun(allStates, allEvents) by {
        RunExtends(states, events, es[0]);
      }
      allStates, allEvents := StepsGiveARun(next, es[1..], t, allStates, allEvents);
    }
  }

  lemma RunExtends(states: seq<State>, events: seq<Event>, e: Event)
    requires IsRun(states, events) && Enabled(states[|events|], e)
    ensures IsRun(states + [Exec(states[|events|], e)], events + [e])
  {
    var allStates, allEvents := states + [Exec(states[|events|], e)], events + [e];
    forall k | 0 <= k < |allEvents|
      ensures Enabled(allStates[k], allEvents[k]) && allStates[k + 1] == Exec(allStates[k], allEvents[k])
    {
      if k < |events| {
        assert allStates[k] == states[k] && allStates[k + 1] == states[k + 1];
      }
    }
  }

  // ---------------------------------------------------------------- success is not absorbing

  ghost const OneJob: JobId := "j"

  // A machine with one job, hot swapping for eleven minutes.
  lemma LongHotSwap() returns (es: seq<Event>, s: State, t: State)
    ensures Init(s) && Steps(s, es, t) && t.phase.Idle? && OneJob in t.live && t.avail == 1000
    ensures t.jobs == map[OneJob := SetStatus(SetStarted(FreshRow(0, 0), 0, 0), HotSwapping)]
    ensures t.clock == 11 * MINUTE
  {
    var c, d: State;
    var ds: seq<Event>;
    es, s, c := OneJobInserted();
    ds, d := FirstTick(c);
    StepsThen(s, es, c, ds, d);
    es := es + ds;
    ds, t := HotSwapFor(d);
    StepsThen(s, es, d, ds, t);
    es := es + ds;
  }

  lemma HotSwapFor(s: State) returns (es: seq<Event>, t: State)
    requires OneJob in s.live && s.clock == 0 && s.jobs == map[OneJob := SetStarted(FreshRow(0, 0), 0, 0)]
    ensures Steps(s, es, t)
    ensures t == s.(clock := 11 * MINUTE, jobs := map[OneJob := SetStatus(SetStarted(FreshRow(0, 0), 0, 0), HotSwapping)])
  {
    var a := s.(jobs := map[OneJob := SetStatus(SetStarted(FreshRow(0, 0), 0, 0), HotSwapping)]);
    HotSwapBegins(s, a);
    es := StepsSnoc(s, [], s, RunnerMove(OneJob, HotSwapping, false));
    es := StepsSnoc(s, es, a, Advance(11 * MINUTE));
    t := Exec(a, Advance(11 * MINUTE));
  }

  lemma HotSwapBegins(s: State, t: State)
    requires OneJob in s.live && s.jobs == map[OneJob := SetStarted(FreshRow(0, 0), 0, 0)]
    requires t == s.(jobs := map[OneJob := SetStatus(SetStarted(FreshRow(0, 0), 0, 0), HotSwapping)])
    ensures Enabled(s, RunnerMove(OneJob, HotSwapping, false)) && t == Exec(s, RunnerMove(OneJob, HotSwapping, false))
  {
  }

  lemma OneJobInserted() returns (es: seq<Event>, s: State, t: State)
    ensures Init(s) && Steps(s, es, t) && t.phase.Idle? && t.clock == 0 && t.avail == 1000
    ensures t.jobs == map[OneJob := FreshRow(0, 0)]
  {
    s := State(1000, map[], Down, {}, 0, {}, [], {}, None, None, None);
    es := StepsSnoc(s, [], s, Boot([]));
    var a := s.(phase := Recovering([], true));
    es := StepsSnoc(s, es, a, RecoverDone);
    var b := s.(phase := Idle);
    es := StepsSnoc(s, es, b, Insert(OneJob, 0, 0));
    t := Exec(b, Insert(OneJob, 0, 0));
  }

  lemma FirstTick(s: State) returns (es: seq<Event>, t: State)
    requires s.phase.Idle? && s.clock == 0 && s.avail == 1000
    requires s.jobs == map[OneJob := FreshRow(0, 0)]
    ensures Steps(s, es, t) && t.phase.Idle? && t.clock == 0 && t.avail == 1000
    ensures t.jobs == map[OneJob := SetStarted(FreshRow(0, 0), 0, 0)] && OneJob in t.live
  {
    var j := Job(OneJob, FreshRow(0, 0));
    var i := TickInput([j], 500, 0, 0, Some(j), 0);
    assert IsActiveList(s.jobs, i.snapshot);
    PassesArePointwise(s.jobs, s.avail, i, OneJob);
    assert AfterPasses(s.jobs, s.avail, i) == s.jobs;
    assert InFlightRam(j.row) == 0;
    assert ListTotal(InFlightRam, [j]) == 0 by { ListTotalAppend(InFlightRam, [], j); assert [] + [j] == [j]; }
    es, t := TickIsARun(s, i);
  }

  // The runner reports success after the snapshot and before the stuck check reaches the job:
  // the stuck check then writes "failed" over "success".
  lemma SuccessCanBeOverwritten() returns (states: seq<State>, events: seq<Event>, k: nat)
    ensures IsRun(states, events) && k + 1 < |states|
    ensures OneJob in states[k].jobs && states[k].jobs[OneJob].status == Success
    ensures OneJob in states[k + 1].jobs && states[k + 1].jobs[OneJob].status == Failed
  {
    var es, s, a := LongHotSwap();
    var fs, e := SuccessDuringTick(a);
    StepsThen(s, es, a, fs, e);
    states, events := StepsGiveARun(s, es + fs, e, [s], []);
    k := |events|;
    RunExtends(states, events, CheckStuckStep(false));
    states, events := states + [Exec(e, CheckStuckStep(false))], events + [CheckStuckStep(false)];
  }

  lemma SuccessDuringTick(a: State) returns (es: seq<Event>, t: State)
    requires a.phase.Idle? && OneJob in a.live && a.clock == 11 * MINUTE
    requires a.jobs == map[OneJob := SetStatus(SetStarted(FreshRow(0, 0), 0, 0), HotSwapping)]
    ensures Steps(a, es, t) && OneJob in t.jobs && t.jobs[OneJob].status == Success
    ensures t.phase.CheckingStuck? && t.phase.todo == [Job(OneJob, a.jobs[OneJob])] && t.phase.now == 11 * MINUTE
  {
    var c, d: State;
    var fs: seq<Event>;
    es, c := SnapshotOfOneJob(a);
    fs, d := HeldDoneRun(c, a.clock);
    StepsThen(a, es, c, fs, d);
    es := es + fs;
    fs, t := SuccessReported(d);
    StepsThen(a, es, d, fs, t);
    es := es + fs;
  }

  lemma SnapshotOfOneJob(a: State) returns (es: seq<Event>, t: State)
    requires a.phase.Idle? && OneJob in a.jobs && a.jobs.Keys == {OneJob} && InFlight(a.jobs[OneJob].status)
    ensures Steps(a, es, t)
    ensures t.phase.CheckingHeld? && t == a.(phase := CheckingHeld([Job(OneJob, a.jobs[OneJob])], t.phase.effective, a.clock, [], true))
  {
    var j := Job(OneJob, a.jobs[OneJob]);
    assert IsActiveList(a.jobs, [j]);
    es := StepsSnoc(a, [], a, TickStart([j]));
    var b := a.(phase := Listed([j]));
    es := StepsSnoc(a, es, b, ReadMemory(500));
    t := Exec(b, ReadMemory(500));
    assert HeldJobs([j]) == [];
  }

  lemma SuccessReported(d: State) returns (es: seq<Event>, t: State)
    requires d.phase.CheckingStuck? && OneJob in d.live && OneJob in d.jobs && d.jobs[OneJob].status == HotSwapping
    ensures Steps(d, es, t) && t.phase == d.phase && OneJob in t.jobs && t.jobs[OneJob].status == Success
  {
    es := StepsSnoc(d, [], d, RunnerFinish(OneJob, Success, "", false));
    t := Exec(d, RunnerFinish(OneJob, Success, "", false));
  }
}
