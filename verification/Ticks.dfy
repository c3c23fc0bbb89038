/** One scheduler tick as a function of the table it starts from, and what a sequence of
    undisturbed ticks achieves. */
module Ticks {
  import opened Basics
  import opened Jobs

  const MINUTE: Time := 60 * 1_000_000_000
  const HOLD_AUTO_FAIL: Time := 30 * MINUTE
  const STUCK_AFTER: Time := 10 * MINUTE

  const IMPOSSIBLE_HELD_TEXT := "job RAM estimate exceeds machine capacity — cannot run"
  const HELD_TOO_LONG_TEXT := "held for more than 30 minutes — insufficient memory to run"
  const IMPOSSIBLE_TEXT := "RAM estimate exceeds machine capacity"
  const HOLD_REASON_MEMORY := "insufficient_memory"

  // The source also prints the rounded duration.
  function StuckText(s: Status): string {
    match s
    case Running => "stuck in running — auto-failed"
    case Building => "stuck in building — auto-failed"
    case HealthCheck => "stuck in health_check — auto-failed"
    case Swapping => "stuck in swapping — auto-failed"
    case HotSwapping => "stuck in hot_swapping — auto-failed"
    case _ => "auto-failed"
  }

  predicate IsImpossible(j: Job, avail: int) {
    j.row.ram > 0 && j.row.ram > avail
  }

  function Min(a: int, b: int): int { if a < b then a else b }

  // ---------------------------------------------------------------- the three passes over the snapshot

  predicate HeldPassFails(j: Job, avail: int, now: Time) {
    j.row.heldAt.Some? && (IsImpossible(j, avail) || now - j.row.heldAt.value > HOLD_AUTO_FAIL)
  }

  function HeldPassText(j: Job, avail: int): string {
    if IsImpossible(j, avail) then IMPOSSIBLE_HELD_TEXT else HELD_TOO_LONG_TEXT
  }

  function CheckHeldOne(t: Table, j: Job, avail: int, now: Time): Table {
    if HeldPassFails(j, avail, now) then FailIn(t, j.id, HeldPassText(j, avail), now) else t
  }

  function CheckHeldAll(t: Table, js: seq<Job>, avail: int, now: Time): Table {
    if js == [] then t else CheckHeldAll(CheckHeldOne(t, js[0], avail, now), js[1..], avail, now)
  }

  predicate StuckPassFails(j: Job, now: Time) {
    InFlight(j.row.status) && j.row.startedAt.Some? && now - j.row.startedAt.value > STUCK_AFTER
  }

  function CheckStuckOne(t: Table, j: Job, now: Time): Table {
    if StuckPassFails(j, now) then FailIn(t, j.id, StuckText(j.row.status), now) else t
  }

  function CheckStuckAll(t: Table, js: seq<Job>, now: Time): Table {
    if js == [] then t else CheckStuckAll(CheckStuckOne(t, js[0], now), js[1..], now)
  }

  function UnholdOne(t: Table, j: Job, effective: int): Table {
    if j.row.ram <= effective then MoveIn(t, j.id, Pending) else t
  }

  function UnholdAll(t: Table, js: seq<Job>, effective: int): Table {
    if js == [] then t else UnholdAll(UnholdOne(t, js[0], effective), js[1..], effective)
  }

  function HeldJobs(js: seq<Job>): seq<Job> {
    if js == [] then []
    else if js[0].row.status == Held then [js[0]] + HeldJobs(js[1..])
    else HeldJobs(js[1..])
  }

  ghost function Effective(free: int, avail: int, snapshot: seq<Job>): int {
    Min(free, avail - ListTotal(InFlightRam, snapshot))
  }

  // ---------------------------------------------------------------- the whole tick

  // What a tick reads: the snapshot, free memory, the clock at its three reads,
  // and which of the equally old pending rows the second query returned first.
  datatype TickInput = TickInput(snapshot: seq<Job>, free: int,
                                 nowHeld: Time, nowStuck: Time, next: Option<Job>, nowWrite: Time)

  ghost function AfterPasses(t: Table, avail: int, i: TickInput): Table {
    var held := HeldJobs(i.snapshot);
    var a := CheckHeldAll(t, held, avail, i.nowHeld);
    var b := CheckStuckAll(a, i.snapshot, i.nowStuck);
    UnholdAll(b, held, Effective(i.free, avail, i.snapshot))
  }

  function Decide(t: Table, avail: int, effective: int, j: Job, now: Time): Table {
    if IsImpossible(j, avail) then FinishIn(t, j.id, Failed, IMPOSSIBLE_TEXT, now)
    else if j.row.ram > effective then HoldIn(t, j.id, HOLD_REASON_MEMORY, now)
    else StartIn(t, j.id, 0, now)
  }

  predicate Starts(t: Table, avail: int, effective: int, j: Job) {
    !IsImpossible(j, avail) && j.row.ram <= effective && Accepts(t, j.id, Running)
  }

  ghost function TickTable(t: Table, avail: int, i: TickInput): Table {
    var u := AfterPasses(t, avail, i);
    if i.next.None? then u
    else Decide(u, avail, Effective(i.free, avail, i.snapshot), i.next.value, i.nowWrite)
  }

  ghost function TickStarted(t: Table, avail: int, i: TickInput): Option<JobId> {
    if i.next.Some? && Starts(AfterPasses(t, avail, i), avail, Effective(i.free, avail, i.snapshot), i.next.value)
    then Some(i.next.value.id) else None
  }

  ghost predicate TickInputOk(t: Table, avail: int, i: TickInput) {
    IsActiveList(t, i.snapshot) && IsNextPending(AfterPasses(t, avail, i), i.next)
  }

  // The tick put together from what its parts did.
  lemma TickParts(before: Table, checked: Table, after: Table, avail: int, i: TickInput, started: Option<JobId>)
    requires IsActiveList(before, i.snapshot) && avail >= 1 && IsNextPending(checked, i.next)
    requires var held, effective := HeldJobs(i.snapshot), Effective(i.free, avail, i.snapshot);
             && checked == UnholdAll(CheckStuckAll(CheckHeldAll(before, held, avail, i.nowHeld), i.snapshot, i.nowStuck), held, effective)
             && after == (if i.next.None? then checked else Decide(checked, avail, effective, i.next.value, i.nowWrite))
             && started == (if i.next.Some? && Starts(checked, avail, effective, i.next.value) then Some(i.next.value.id) else None)
    ensures TickInputOk(before, avail, i) && after == TickTable(before, avail, i) && started == TickStarted(before, avail, i)
    ensures started == if i.next.Some? && Fits(i.next.value.row.ram, before, avail, i.free) then Some(i.next.value.id) else None
  {
    if i.next.Some? {
      TickDecides(before, avail, i);
    }
  }

  // ---------------------------------------------------------------- a pass treats each row on its own

  lemma {:induction false} HeldJobsMembers(js: seq<Job>)
    ensures forall j :: j in HeldJobs(js) <==> j in js && j.row.status == Held
    ensures DistinctIds(js) ==> DistinctIds(HeldJobs(js))
  {
    if js != [] {
      HeldJobsMembers(js[1..]);
      assert js == [js[0]] + js[1..];
      if DistinctIds(js) && js[0].row.status == Held {
        var rest := HeldJobs(js[1..]);
        forall n | 0 <= n < |rest| ensures rest[n].id != js[0].id {
          assert rest[n] in rest;
          var m :| 0 <= m < |js[1..]| && js[1..][m] == rest[n];
          assert js[m + 1] == rest[n];
        }
        assert DistinctIds(js[1..]);
      }
    }
  }

  // Job j is the entry for its id, if the list has one.
  predicate OnlyEntry(js: seq<Job>, j: Job) {
    DistinctIds(js) && (j in js || !Lists(js, j.id))
  }

  lemma OnlyEntryOfTail(js: seq<Job>, j: Job)
    requires js != [] && OnlyEntry(js, j)
    ensures OnlyEntry(js[1..], j)
    ensures js[0].id == j.id ==> js[0] == j && j !in js[1..]
    ensures js[0].id != j.id ==> (j in js <==> j in js[1..])
  {
    ListsHeadOrTail(js, j.id);
    HeadOrTail(js, j);
    assert js[0] in js;
    if j in js[1..] {
      HeadIsNotInTail(js, j);
    }
  }

  lemma {:induction false} CheckHeldPointwise(t: Table, js: seq<Job>, avail: int, now: Time, j: Job)
    requires OnlyEntry(js, j) && j.id in t
    ensures CheckHeldAll(t, js, avail, now).Keys == t.Keys
    ensures CheckHeldAll(t, js, avail, now)[j.id] ==
            if j in js && HeldPassFails(j, avail, now) then SetFinished(t[j.id], Failed, HeldPassText(j, avail), now)
            else t[j.id]
    decreases |js|
  {
    if js != [] {
      OnlyEntryOfTail(js, j);
      CheckHeldPointwise(CheckHeldOne(t, js[0], avail, now), js[1..], avail, now, j);
    }
  }

  lemma {:induction false} CheckStuckPointwise(t: Table, js: seq<Job>, now: Time, j: Job)
    requires OnlyEntry(js, j) && j.id in t
    ensures CheckStuckAll(t, js, now).Keys == t.Keys
    ensures CheckStuckAll(t, js, now)[j.id] ==
            if j in js && StuckPassFails(j, now) then SetFinished(t[j.id], Failed, StuckText(j.row.status), now)
            else t[j.id]
    decreases |js|
  {
    if js != [] {
      OnlyEntryOfTail(js, j);
      CheckStuckPointwise(CheckStuckOne(t, js[0], now), js[1..], now, j);
    }
  }

  lemma {:induction false} UnholdPointwise(t: Table, js: seq<Job>, effective: int, j: Job)
    requires OnlyEntry(js, j) && j.id in t
    ensures UnholdAll(t, js, effective).Keys == t.Keys
    ensures UnholdAll(t, js, effective)[j.id] ==
            if j in js && j.row.ram <= effective && t[j.id].status == Held then SetStatus(t[j.id], Pending) else t[j.id]
    decreases |js|
  {
    if js != [] {
      StateGraph(t[j.id].status, Pending);
      OnlyEntryOfTail(js, j);
      UnholdPointwise(UnholdOne(t, js[0], effective), js[1..], effective, j);
    }
  }

  lemma HeadOrTail(js: seq<Job>, j: Job)
    requires js != []
    ensures j in js <==> j == js[0] || j in js[1..]
  {
    assert js == [js[0]] + js[1..];
  }

  lemma HeadIsNotInTail(js: seq<Job>, j: Job)
    requires js != [] && DistinctIds(js) && j in js[1..]
    ensures j.id != js[0].id
  {
    var n :| 0 <= n < |js[1..]| && js[1..][n] == j;
    assert js[n + 1] == j;
  }

  lemma ListsHeadOrTail(js: seq<Job>, id: JobId)
    requires js != []
    ensures Lists(js, id) <==> js[0].id == id || Lists(js[1..], id)
  {
    assert js[0] in js;
    if Lists(js, id) {
      var j :| j in js && j.id == id;
      HeadOrTail(js, j);
    }
    if Lists(js[1..], id) {
      var j :| j in js[1..] && j.id == id;
      HeadOrTail(js, j);
    }
  }

  // What the passes do to a row, said without any list.
  function RowAfterPasses(r: Row, avail: int, effective: int, nowHeld: Time, nowStuck: Time): Row {
    if r.status == Held then
      if r.heldAt.Some? && r.ram > avail && r.ram > 0 then SetFinished(r, Failed, IMPOSSIBLE_HELD_TEXT, nowHeld)
      else if r.heldAt.Some? && nowHeld - r.heldAt.value > HOLD_AUTO_FAIL then
        SetFinished(r, Failed, HELD_TOO_LONG_TEXT, nowHeld)
      else if r.ram <= effective then SetStatus(r, Pending)
      else r
    else if InFlight(r.status) && r.startedAt.Some? && nowStuck - r.startedAt.value > STUCK_AFTER then
      SetFinished(r, Failed, StuckText(r.status), nowStuck)
    else r
  }

  // Where a row is in the snapshot.
  lemma SnapshotPlaces(t: Table, snapshot: seq<Job>, id: JobId)
    requires IsActiveList(t, snapshot) && id in t
    ensures var j := Job(id, t[id]);
            && OnlyEntry(snapshot, j) && (j in snapshot <==> Active(t[id].status))
            && OnlyEntry(HeldJobs(snapshot), j) && (j in HeldJobs(snapshot) <==> t[id].status == Held)
  {
    HeldJobsMembers(snapshot);
  }

  // The three loops over the snapshot amount to a simultaneous update of every row.
  lemma PassesArePointwise(t: Table, avail: int, i: TickInput, id: JobId)
    requires IsActiveList(t, i.snapshot) && id in t
    ensures AfterPasses(t, avail, i).Keys == t.Keys
    ensures AfterPasses(t, avail, i)[id] ==
            RowAfterPasses(t[id], avail, Effective(i.free, avail, i.snapshot), i.nowHeld, i.nowStuck)
  {
    var held := HeldJobs(i.snapshot);
    var j := Job(id, t[id]);
    SnapshotPlaces(t, i.snapshot, id);
    var a := CheckHeldAll(t, held, avail, i.nowHeld);
    CheckHeldPointwise(t, held, avail, i.nowHeld, j);
    var b := CheckStuckAll(a, i.snapshot, i.nowStuck);
    CheckStuckPointwise(a, i.snapshot, i.nowStuck, j);
    UnholdPointwise(b, held, Effective(i.free, avail, i.snapshot), j);
  }

  // ---------------------------------------------------------------- what a tick leaves behind

  ghost predicate Dated(r: Row) {
    && (r.status == Held ==> r.heldAt.Some?)
    && (r.status in {Running, Building, HealthCheck, Swapping, HotSwapping} ==> r.startedAt.Some?)
  }

  // An estimate fits: into the memory just read as free, and into the budget beside what the table
  // has in flight.
  ghost predicate Fits(ram: nat, t: Table, avail: int, free: int) {
    ram <= free && ram + Total(Ram, Flying(t)) <= avail
  }

  // The effective memory is the smaller of what is free and what the budget leaves beside the snapshot.
  lemma EffectiveIs(free: int, avail: int, snapshot: seq<Job>)
    ensures var e, load := Effective(free, avail, snapshot), RamSum(FlyingJobs(snapshot));
            e <= free && e + load <= avail && (e == free || e + load == avail)
  {
    LoadOfList(snapshot);
  }

  lemma FitsIsEffective(ram: nat, t: Table, avail: int, i: TickInput)
    requires IsActiveList(t, i.snapshot)
    ensures ram <= Effective(i.free, avail, i.snapshot) <==> Fits(ram, t, avail, i.free)
  {
    ListTotalIsTotal(InFlightRam, t, i.snapshot);
    LoadOfFlying(t);
  }

  // What the checks and the un-hold pass do to a row: who is failed, who waits again, who is left alone.
  lemma PassesOnRow(t: Table, avail: int, i: TickInput, id: JobId)
    requires IsActiveList(t, i.snapshot) && avail >= 1 && id in t && Dated(t[id])
    ensures id in AfterPasses(t, avail, i)
    ensures var r, u := t[id], AfterPasses(t, avail, i)[id];
            && (r.status == Held ==>
                  if r.ram > avail || i.nowHeld - r.heldAt.value > 30 * 60 * 1_000_000_000
                  then u == r.(status := Failed, finishedAt := Some(i.nowHeld), error := u.error)
                  else if Fits(r.ram, t, avail, i.free) then u == r.(status := Pending)
                  else u == r)
            && (r.status in {Running, Building, HealthCheck, Swapping, HotSwapping} ==>
                  if i.nowStuck - r.startedAt.value > 10 * 60 * 1_000_000_000
                  then u == r.(status := Failed, finishedAt := Some(i.nowStuck), error := u.error)
                  else u == r)
            && (r.status in {Pending, Success, Failed} ==> u == r)
  {
    PassesArePointwise(t, avail, i, id);
    FitsIsEffective(t[id].ram, t, avail, i);
  }

  // What the tick does with the job it picked. It starts the job exactly when the job fits, holds
  // it when it could run but does not fit, and fails it when it could never run; no other row changes.
  lemma TickDecides(t: Table, avail: int, i: TickInput)
    requires TickInputOk(t, avail, i) && avail >= 1 && i.next.Some?
    ensures i.next.value.id in t && AfterPasses(t, avail, i).Keys == t.Keys
    ensures var j := i.next.value;
            TickStarted(t, avail, i) == if Fits(j.row.ram, t, avail, i.free) then Some(j.id) else None
    ensures var j, u := i.next.value, AfterPasses(t, avail, i);
            TickTable(t, avail, i) ==
            if Fits(j.row.ram, t, avail, i.free)
            then u[j.id := j.row.(status := Running, workerId := 0, startedAt := Some(i.nowWrite))]
            else if j.row.ram <= avail
            then u[j.id := j.row.(status := Held, holdReason := Some("insufficient_memory"), heldAt := Some(i.nowWrite))]
            else u[j.id := j.row.(status := Failed, finishedAt := Some(i.nowWrite),
                                  error := Some("RAM estimate exceeds machine capacity"))]
  {
    PickIsInTable(t, avail, i);
    FitsIsEffective(i.next.value.row.ram, t, avail, i);
    Edges(Pending, Running);
    Edges(Pending, Held);
    Edges(Pending, Failed);
  }

  lemma PickIsInTable(t: Table, avail: int, i: TickInput)
    requires TickInputOk(t, avail, i) && i.next.Some?
    ensures i.next.value.id in t && AfterPasses(t, avail, i).Keys == t.Keys
  {
    if t == map[] {
      EmptyPasses(t, avail, i);
    } else {
      var any :| any in t;
      PassesArePointwise(t, avail, i, any);
    }
  }

  // Whatever is held after a tick could run on this machine, does not fit at the moment, and was
  // held at most 30 minutes ago or just now; whatever is in flight was started at most 10 minutes
  // ago or just now.
  lemma PostTick(t: Table, avail: int, i: TickInput, id: JobId)
    requires TickInputOk(t, avail, i) && avail >= 1 && id in t && Dated(t[id])
    ensures id in TickTable(t, avail, i) && Dated(TickTable(t, avail, i)[id])
    ensures var r := TickTable(t, avail, i)[id];
            r.status == Held ==>
              && !Fits(r.ram, t, avail, i.free) && r.ram <= avail
              && (i.nowHeld - r.heldAt.value <= 30 * 60 * 1_000_000_000 || r.heldAt.value == i.nowWrite)
    ensures var r := TickTable(t, avail, i)[id];
            r.status in {Running, Building, HealthCheck, Swapping, HotSwapping} ==>
              i.nowStuck - r.startedAt.value <= 10 * 60 * 1_000_000_000 || r.startedAt.value == i.nowWrite
  {
    PassesOnRow(t, avail, i, id);
    if i.next.Some? {
      TickDecides(t, avail, i);
    }
  }

  // ---------------------------------------------------------------- bounded drain

  // Between two ticks only the runners of in-flight jobs write.
  ghost predicate OnlyRunners(before: Table, after: Table) {
    && after.Keys == before.Keys
    && forall id :: id in before ==>
         if InFlight(before[id].status)
         then !Waiting(after[id].status) && after[id].ram == before[id].ram
         else after[id] == before[id]
  }

  datatype Round = Round(before: Table, input: TickInput)

  ghost predicate RoundOk(r: Round, avail: int) {
    && TickInputOk(r.before, avail, r.input)
    && forall id :: id in r.before && Waiting(r.before[id].status) ==> r.before[id].ram <= r.input.free
  }

  ghost function After(r: Round, avail: int): Table {
    TickTable(r.before, avail, r.input)
  }

  ghost predicate Drains(rounds: seq<Round>, avail: int) {
    && (forall n :: 0 <= n < |rounds| ==> RoundOk(rounds[n], avail))
    && (forall n :: 0 < n < |rounds| ==> OnlyRunners(After(rounds[n - 1], avail), rounds[n].before))
  }

  // When everything active fits together, the effective budget covers each waiting job.
  lemma EveryWaitingJobFits(r: Round, avail: int, id: JobId)
    requires RoundOk(r, avail) && Total(ActiveRam, r.before) <= avail
    requires id in r.before && Waiting(r.before[id].status)
    ensures r.before[id].ram <= Effective(r.input.free, avail, r.input.snapshot)
    ensures r.before[id].ram <= avail
  {
    ListTotalIsTotal(InFlightRam, r.before, r.input.snapshot);
    TotalWithout(ActiveRam, r.before, id);
    TotalWithout(InFlightRam, r.before, id);
    TotalMonotone(InFlightRam, ActiveRam, r.before - {id});
  }

  lemma {:induction false} TotalMonotone(w: Row -> nat, v: Row -> nat, t: Table)
    requires forall r :: w(r) <= v(r)
    ensures Total(w, t) <= Total(v, t)
    decreases |t|
  {
    if t != map[] {
      var id :| id in t;
      TotalWithout(w, t, id);
      TotalWithout(v, t, id);
      SmallerWithout(t, id);
      TotalMonotone(w, v, t - {id});
    }
  }

  // A table whose rows are row by row no heavier than another's weighs no more.
  lemma {:induction false} TotalPointwise(w: Row -> nat, t: Table, u: Table)
    requires u.Keys == t.Keys
    requires forall id :: id in t ==> w(u[id]) <= w(t[id])
    ensures Total(w, u) <= Total(w, t)
    decreases |t|
  {
    if t != map[] {
      var id :| id in t;
      TotalWithout(w, t, id);
      TotalWithout(w, u, id);
      SmallerWithout(t, id);
      assert (u - {id}).Keys == (t - {id}).Keys;
      TotalPointwise(w, t - {id}, u - {id});
    } else {
      assert u.Keys == {};
      assert u == map[];
    }
  }

  // The same with one row strictly lighter.
  lemma TotalDrops(w: Row -> nat, t: Table, u: Table, id: JobId)
    requires u.Keys == t.Keys && id in t
    requires forall k :: k in t ==> w(u[k]) <= w(t[k])
    requires w(u[id]) < w(t[id])
    ensures Total(w, u) < Total(w, t)
  {
    TotalWithout(w, t, id);
    TotalWithout(w, u, id);
    assert (u - {id}).Keys == (t - {id}).Keys;
    TotalPointwise(w, t - {id}, u - {id});
  }

  // With room for everybody, the passes leave no held row behind and put nobody back to waiting.
  lemma PassesMakeReady(r: Round, avail: int, id: JobId)
    requires RoundOk(r, avail) && Total(ActiveRam, r.before) <= avail && id in r.before
    ensures var u := AfterPasses(r.before, avail, r.input);
            && u.Keys == r.before.Keys
            && u[id].ram == r.before[id].ram && u[id].queuedAt == r.before[id].queuedAt
            && u[id].status != Held
            && (Active(u[id].status) ==> Active(r.before[id].status))
            && (Waiting(u[id].status) ==> Waiting(r.before[id].status))
  {
    PassesArePointwise(r.before, avail, r.input, id);
    if r.before[id].status == Held {
      EveryWaitingJobFits(r, avail, id);
    }
  }

  // A round keeps every active row's estimate and leaves no held row behind.
  lemma RoundRows(r: Round, avail: int, id: JobId)
    requires RoundOk(r, avail) && Total(ActiveRam, r.before) <= avail && id in r.before
    ensures After(r, avail).Keys == r.before.Keys
    ensures After(r, avail)[id].ram == r.before[id].ram && After(r, avail)[id].queuedAt == r.before[id].queuedAt
    ensures Active(After(r, avail)[id].status) ==> Active(r.before[id].status)
    ensures Waiting(After(r, avail)[id].status) ==> Waiting(r.before[id].status)
    ensures After(r, avail)[id].status != Held
    ensures Waiting(After(r, avail)[id].status) ==>
              r.input.next.Some? && r.input.next.value.id != id
              && r.input.next.value.row.queuedAt <= r.before[id].queuedAt
  {
    PassesMakeReady(r, avail, id);
    if r.input.next.Some? {
      var n := r.input.next.value;
      PassesMakeReady(r, avail, n.id);
      EveryWaitingJobFits(r, avail, n.id);
    }
  }

  // A round with something waiting takes at least one job out of waiting; any job it starts is the oldest one waiting.
  lemma RoundMakesProgress(r: Round, avail: int)
    requires RoundOk(r, avail) && Total(ActiveRam, r.before) <= avail
    ensures Total(ActiveRam, After(r, avail)) <= Total(ActiveRam, r.before)
    ensures Total(WaitingCount, After(r, avail)) <= Total(WaitingCount, r.before)
    ensures Total(WaitingCount, r.before) > 0 ==> Total(WaitingCount, After(r, avail)) < Total(WaitingCount, r.before)
  {
    var a := After(r, avail);
    forall id | id in r.before
      ensures a.Keys == r.before.Keys
      ensures ActiveRam(a[id]) <= ActiveRam(r.before[id])
      ensures WaitingCount(a[id]) <= WaitingCount(r.before[id])
    {
      RoundRows(r, avail, id);
    }
    if r.before == map[] {
      assert AfterPasses(r.before, avail, r.input) == map[] by { EmptyPasses(r.before, avail, r.input); }
      assert a == map[];
    } else {
      var any :| any in r.before;
      assert a.Keys == r.before.Keys;
      TotalPointwise(ActiveRam, r.before, a);
      TotalPointwise(WaitingCount, r.before, a);
      if Total(WaitingCount, r.before) > 0 {
        SomeoneLeaves(r, avail);
      }
    }
  }

  lemma EmptyPasses(t: Table, avail: int, i: TickInput)
    requires IsActiveList(t, i.snapshot) && t == map[]
    ensures AfterPasses(t, avail, i) == map[]
  {
    EmptyOrMember(i.snapshot);
  }

  lemma EmptyOrMember(js: seq<Job>)
    ensures js == [] || exists j :: j in js
  {
    if js != [] {
      assert js[0] in js;
    }
  }

  lemma SomeoneLeaves(r: Round, avail: int)
    requires RoundOk(r, avail) && Total(ActiveRam, r.before) <= avail
    requires Total(WaitingCount, r.before) > 0
    ensures Total(WaitingCount, After(r, avail)) < Total(WaitingCount, r.before)
  {
    if forall id :: id in r.before ==> WaitingCount(r.before[id]) == 0 {
      TotalZero(WaitingCount, r.before);
    }
    var w :| w in r.before && WaitingCount(r.before[w]) != 0;
    RoundRows(r, avail, w);
    var a := After(r, avail);
    var out := if Waiting(a[w].status) then r.input.next.value.id else w;
    if out != w {
      PickedLeaves(r, avail);
    }
    forall id | id in r.before ensures WaitingCount(a[id]) <= WaitingCount(r.before[id]) {
      RoundRows(r, avail, id);
    }
    TotalDrops(WaitingCount, r.before, a, out);
  }

  // The job the second query returns was waiting, and stops waiting.
  lemma PickedLeaves(r: Round, avail: int)
    requires RoundOk(r, avail) && Total(ActiveRam, r.before) <= avail
    requires r.input.next.Some?
    ensures var id := r.input.next.value.id;
            id in r.before && Waiting(r.before[id].status)
            && id in After(r, avail) && !Waiting(After(r, avail)[id].status)
  {
    WasWaiting(r, avail);
    var id := r.input.next.value.id;
    RoundRows(r, avail, id);
    EveryWaitingJobFits(r, avail, id);
    PassesArePointwise(r.before, avail, r.input, id);
  }

  lemma RunnersKeepWaiting(before: Table, after: Table)
    requires OnlyRunners(before, after)
    ensures Total(ActiveRam, after) <= Total(ActiveRam, before)
    ensures Total(WaitingCount, after) <= Total(WaitingCount, before)
  {
    TotalPointwise(ActiveRam, before, after);
    TotalPointwise(WaitingCount, before, after);
  }

  // The measure: after n + 1 ticks at most (waiting at the start) - (n + 1) jobs still wait.
  lemma {:induction false} BoundedDrain(rounds: seq<Round>, avail: int, n: nat)
    requires Drains(rounds, avail) && n < |rounds|
    requires Total(ActiveRam, rounds[0].before) <= avail
    ensures Total(ActiveRam, rounds[n].before) <= avail
    ensures var waiting := Total(WaitingCount, After(rounds[n], avail));
            waiting == 0 || waiting + n + 1 <= Total(WaitingCount, rounds[0].before)
  {
    if n > 0 {
      BoundedDrain(rounds, avail, n - 1);
      RoundMakesProgress(rounds[n - 1], avail);
      RunnersKeepWaiting(After(rounds[n - 1], avail), rounds[n].before);
    }
    RoundMakesProgress(rounds[n], avail);
  }

  // As many ticks as jobs were waiting are enough for nobody to wait any more.
  lemma DrainedInTime(rounds: seq<Round>, avail: int, id: JobId)
    requires Drains(rounds, avail) && rounds != []
    requires Total(ActiveRam, rounds[0].before) <= avail
    requires |rounds| >= Total(WaitingCount, rounds[0].before)
    requires id in After(rounds[|rounds| - 1], avail)
    ensures !Waiting(After(rounds[|rounds| - 1], avail)[id].status)
  {
    BoundedDrain(rounds, avail, |rounds| - 1);
    TotalBounds(WaitingCount, After(rounds[|rounds| - 1], avail), id);
  }

  // A job waiting before round m was waiting, with the same place in the queue, after every earlier round.
  lemma {:induction false} WaitedAllAlong(rounds: seq<Round>, avail: int, k: nat, m: nat, id: JobId)
    requires Drains(rounds, avail) && k < m < |rounds|
    requires Total(ActiveRam, rounds[0].before) <= avail
    requires id in rounds[m].before && Waiting(rounds[m].before[id].status)
    ensures id in After(rounds[k], avail) && Waiting(After(rounds[k], avail)[id].status)
    ensures id in rounds[k].before && rounds[k].before[id].queuedAt == rounds[m].before[id].queuedAt
    decreases m - k
  {
    WaitedLastRound(rounds[m - 1], avail, rounds[m].before, id) by {
      BoundedDrain(rounds, avail, m - 1);
    }
    if k < m - 1 {
      WaitedAllAlong(rounds, avail, k, m - 1, id);
    }
  }

  lemma WaitedLastRound(r: Round, avail: int, later: Table, id: JobId)
    requires RoundOk(r, avail) && Total(ActiveRam, r.before) <= avail
    requires OnlyRunners(After(r, avail), later)
    requires id in later && Waiting(later[id].status)
    ensures id in After(r, avail) && Waiting(After(r, avail)[id].status)
    ensures id in r.before && Waiting(r.before[id].status) && r.before[id].queuedAt == later[id].queuedAt
  {
    PassKeys(r, avail);
    RoundRows(r, avail, id);
  }

  lemma PassKeys(r: Round, avail: int)
    requires RoundOk(r, avail)
    ensures After(r, avail).Keys == r.before.Keys
  {
    if r.before == map[] {
      EmptyPasses(r.before, avail, r.input);
    } else {
      var any :| any in r.before;
      PassesArePointwise(r.before, avail, r.input, any);
    }
  }

  // Jobs are started in the order they were queued.
  lemma StartedInQueueOrder(rounds: seq<Round>, avail: int, k: nat, m: nat)
    requires Drains(rounds, avail) && k < m < |rounds|
    requires Total(ActiveRam, rounds[0].before) <= avail
    requires TickStarted(rounds[k].before, avail, rounds[k].input).Some?
    requires TickStarted(rounds[m].before, avail, rounds[m].input).Some?
    ensures var a := TickStarted(rounds[k].before, avail, rounds[k].input).value;
            var b := TickStarted(rounds[m].before, avail, rounds[m].input).value;
            && a in rounds[k].before && b in rounds[k].before && a != b
            && rounds[k].before[a].queuedAt <= rounds[k].before[b].queuedAt
  {
    var a := TickStarted(rounds[k].before, avail, rounds[k].input).value;
    var b := TickStarted(rounds[m].before, avail, rounds[m].input).value;
    PassKeys(rounds[k], avail);
    PassKeys(rounds[m], avail);
    BoundedDrain(rounds, avail, m);
    BoundedDrain(rounds, avail, k);
    assert b in rounds[m].before && Waiting(rounds[m].before[b].status) by {
      WasWaiting(rounds[m], avail);
    }
    WaitedAllAlong(rounds, avail, k, m, b);
    RoundRows(rounds[k], avail, b);
    WasWaiting(rounds[k], avail);
  }

  lemma WasWaiting(r: Round, avail: int)
    requires RoundOk(r, avail) && r.input.next.Some?
    ensures r.input.next.value.id in r.before
    ensures Waiting(r.before[r.input.next.value.id].status)
    ensures r.before[r.input.next.value.id].queuedAt == r.input.next.value.row.queuedAt
  {
    var id := r.input.next.value.id;
    assert id in AfterPasses(r.before, avail, r.input);
    if r.before == map[] {
      EmptyPasses(r.before, avail, r.input);
      assert false;
    } else {
      var any :| any in r.before;
      PassesArePointwise(r.before, avail, r.input, any);
    }
    PassesArePointwise(r.before, avail, r.input, id);
  }
}
