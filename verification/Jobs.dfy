/** The deploy-job table, the state graph every status change is checked against,
    and the meaning of the SQL statements that read and write the table. */
module Jobs {

  import opened Basics

  type JobId = string

  datatype Status =
    | Pending | Held
    | Running | Building | HealthCheck | Swapping | HotSwapping
    | Success | Failed

  datatype Row = Row(
    status: Status,
    ram: nat,
    workerId: int,
    queuedAt: Time,
    heldAt: Option<Time>,
    startedAt: Option<Time>,
    finishedAt: Option<Time>,
    holdReason: Option<string>,
    error: Option<string>)

  type Table = map<JobId, Row>

  // A row as a query returned it: the caller's copy, which later writes do not change.
  datatype Job = Job(id: JobId, row: Row)

  // ---------------------------------------------------------------- state graph

  function AllowedTransitions(from: Status): seq<Status> {
    match from
    case Pending => [Held, Running, Failed]
    case Held => [Pending, Failed]
    case Running => [Building, HotSwapping, Failed]
    case Building => [HealthCheck, Failed]
    case HealthCheck => [Swapping, Failed]
    case Swapping => [Success, Failed]
    case HotSwapping => [Success, Failed]
    case Success => []
    case Failed => []
  }

  predicate Allowed(from: Status, to: Status) {
    to in AllowedTransitions(from)
  }

  predicate Waiting(s: Status) { s.Pending? || s.Held? }

  // The statuses whose estimates the scheduler counts against the budget.
  predicate InFlight(s: Status) {
    s.Running? || s.Building? || s.HealthCheck? || s.Swapping? || s.HotSwapping?
  }

  predicate Terminal(s: Status) { s.Success? || s.Failed? }

  predicate Active(s: Status) { !Terminal(s) }

  // How far a job has come; pending and held are the same place.
  function Rank(s: Status): nat {
    match s
    case Pending => 0
    case Held => 0
    case Running => 1
    case Building => 2
    case HealthCheck => 3
    case Swapping => 4
    case HotSwapping => 4
    case Success => 5
    case Failed => 6
  }

  // The graph has no cycle except pending <-> held, nothing leaves a terminal status,
  // the only way into flight is pending -> running, and every live status can fail.
  lemma StateGraph(from: Status, to: Status)
    ensures Allowed(from, to) ==> Rank(from) < Rank(to) || (Waiting(from) && Waiting(to))
    ensures Terminal(from) <==> AllowedTransitions(from) == []
    ensures Allowed(from, to) && !InFlight(from) && InFlight(to) ==> from == Pending && to == Running
    ensures Allowed(from, Failed) <==> Active(from)
    ensures Allowed(from, Pending) <==> from == Held
    ensures Allowed(from, Success) <==> from == Swapping || from == HotSwapping
  {
  }

  // Which statuses are which, and the edges of the graph, spelled out.
  lemma StatusKinds(s: Status)
    ensures Waiting(s) <==> s in {Pending, Held}
    ensures InFlight(s) <==> s in {Running, Building, HealthCheck, Swapping, HotSwapping}
    ensures Terminal(s) <==> s in {Success, Failed}
    ensures Active(s) <==> s !in {Success, Failed}
  {
  }

  lemma Edges(from: Status, to: Status)
    ensures Allowed(from, to) <==>
              || (to == Failed && from !in {Success, Failed})
              || (from, to) in {(Pending, Held), (Held, Pending), (Pending, Running),
                                (Running, Building), (Building, HealthCheck), (HealthCheck, Swapping), (Swapping, Success),
                                (Running, HotSwapping), (HotSwapping, Success)}
  {
  }

  // ---------------------------------------------------------------- row updates

  function ErrorText(msg: string): Option<string> {
    if msg == "" then None else Some(msg)
  }

  function FreshRow(ram: nat, queuedAt: Time): Row {
    Row(Pending, ram, 0, queuedAt, None, None, None, None, None)
  }

  function SetStatus(r: Row, to: Status): Row { r.(status := to) }

  function SetHeld(r: Row, reason: string, now: Time): Row {
    r.(status := Held, holdReason := Some(reason), heldAt := Some(now))
  }

  function SetStarted(r: Row, worker: int, now: Time): Row {
    r.(status := Running, workerId := worker, startedAt := Some(now))
  }

  function SetFinished(r: Row, to: Status, msg: string, now: Time): Row {
    r.(status := to, finishedAt := Some(now), error := ErrorText(msg))
  }

  // ---------------------------------------------------------------- manager operations

  // The check every manager method makes before it writes.
  predicate Accepts(t: Table, id: JobId, to: Status) {
    id in t && Allowed(t[id].status, to)
  }

  function MoveIn(t: Table, id: JobId, to: Status): Table {
    if Accepts(t, id, to) then t[id := SetStatus(t[id], to)] else t
  }

  function HoldIn(t: Table, id: JobId, reason: string, now: Time): Table {
    if Accepts(t, id, Held) then t[id := SetHeld(t[id], reason, now)] else t
  }

  function StartIn(t: Table, id: JobId, worker: int, now: Time): Table {
    if Accepts(t, id, Running) then t[id := SetStarted(t[id], worker, now)] else t
  }

  function FinishIn(t: Table, id: JobId, to: Status, msg: string, now: Time): Table {
    if Accepts(t, id, to) then t[id := SetFinished(t[id], to, msg, now)] else t
  }

  predicate Cancellable(t: Table, id: JobId) {
    id in t && Waiting(t[id].status)
  }

  function CancelIn(t: Table, id: JobId, now: Time): Table {
    if Cancellable(t, id) then t[id := SetFinished(t[id], Failed, "cancelled by user", now)] else t
  }

  // The monitor and the restart recovery write without consulting the state graph.
  function FailIn(t: Table, id: JobId, msg: string, now: Time): Table {
    if id in t then t[id := SetFinished(t[id], Failed, msg, now)] else t
  }

  // ---------------------------------------------------------------- queries

  predicate SortedByQueue(js: seq<Job>) {
    forall i, j :: 0 <= i < j < |js| ==> js[i].row.queuedAt <= js[j].row.queuedAt
  }

  predicate DistinctIds(js: seq<Job>) {
    forall i, j :: 0 <= i < j < |js| ==> js[i].id != js[j].id
  }

  predicate Lists(js: seq<Job>, id: JobId) {
    exists j :: j in js && j.id == id
  }

  // A result of ListActiveJobs: each active row once, oldest first, ties in any order.
  ghost predicate IsActiveList(t: Table, js: seq<Job>) {
    && DistinctIds(js)
    && SortedByQueue(js)
    && (forall j :: j in js ==> j.id in t && j.row == t[j.id] && Active(j.row.status))
    && (forall id :: id in t && Active(t[id].status) ==> Job(id, t[id]) in js)
  }

  // A result of NextPendingAny: an oldest pending row, or nothing when none is pending.
  ghost predicate IsNextPending(t: Table, next: Option<Job>) {
    match next
    case None => forall id :: id in t ==> t[id].status != Pending
    case Some(j) =>
      && j.id in t && t[j.id] == j.row && j.row.status == Pending
      && forall id :: id in t && t[id].status == Pending ==> j.row.queuedAt <= t[id].queuedAt
  }

  // ---------------------------------------------------------------- sums over the table

  function InFlightRam(r: Row): nat { if InFlight(r.status) then r.ram else 0 }

  function ActiveRam(r: Row): nat { if Active(r.status) then r.ram else 0 }

  function WaitingCount(r: Row): nat { if Waiting(r.status) then 1 else 0 }

  ghost function Total(w: Row -> nat, t: Table): nat
    decreases |t|
  {
    if t == map[] then 0 else
      var id :| id in t;
      assert |t - {id}| < |t| by { SmallerWithout(t, id); }
      w(t[id]) + Total(w, t - {id})
  }

  lemma SmallerWithout(t: Table, id: JobId)
    requires id in t
    ensures |t - {id}| == |t| - 1
  {
    assert (t - {id}).Keys == t.Keys - {id};
    assert |(t - {id}).Keys| == |t.Keys| - 1;
  }

  lemma {:induction false} TotalWithout(w: Row -> nat, t: Table, id: JobId)
    requires id in t
    ensures Total(w, t) == w(t[id]) + Total(w, t - {id})
    decreases |t|
  {
    var first :| first in t && Total(w, t) == w(t[first]) + Total(w, t - {first});
    if first != id {
      SmallerWithout(t, first);
      TotalWithout(w, t - {first}, id);
      TotalWithoutBoth(w, t, first, id);
      SmallerWithout(t, id);
      TotalWithout(w, t - {id}, first);
    }
  }

  lemma TotalWithoutBoth(w: Row -> nat, t: Table, a: JobId, b: JobId)
    requires a in t && b in t && a != b
    ensures t - {a} - {b} == t - {b} - {a}
  {
  }

  lemma TotalPut(w: Row -> nat, t: Table, id: JobId, r: Row)
    requires id in t
    ensures Total(w, t[id := r]) == Total(w, t) - w(t[id]) + w(r)
  {
    TotalWithout(w, t, id);
    TotalWithout(w, t[id := r], id);
    assert t[id := r] - {id} == t - {id};
  }

  lemma TotalInsert(w: Row -> nat, t: Table, id: JobId, r: Row)
    requires id !in t
    ensures Total(w, t[id := r]) == Total(w, t) + w(r)
  {
    TotalWithout(w, t[id := r], id);
    assert t[id := r] - {id} == t;
  }

  lemma {:induction false} TotalDelete(w: Row -> nat, t: Table, ids: set<JobId>)
    ensures Total(w, t - ids) <= Total(w, t)
    decreases |ids|
  {
    if ids == {} {
      assert t - ids == t;
    } else {
      var id :| id in ids;
      var rest := ids - {id};
      TotalDelete(w, t, rest);
      if id in t {
        TotalWithout(w, t - rest, id);
        assert t - rest - {id} == t - ids;
      } else {
        assert t - ids == t - rest;
      }
    }
  }

  // Every row's weight is part of the sum, so is the sum of two rows.
  lemma TotalBounds(w: Row -> nat, t: Table, id: JobId)
    requires id in t
    ensures w(t[id]) <= Total(w, t)
  {
    TotalWithout(w, t, id);
  }

  // The sum the scheduler computes by walking a list.
  ghost function ListTotal(w: Row -> nat, js: seq<Job>): nat {
    if js == [] then 0 else w(js[0].row) + ListTotal(w, js[1..])
  }

  lemma {:induction false} ListTotalAppend(w: Row -> nat, js: seq<Job>, j: Job)
    ensures ListTotal(w, js + [j]) == ListTotal(w, js) + w(j.row)
  {
    if js == [] {
      assert ListTotal(w, [j]) == w(j.row) + ListTotal(w, [j][1..]);
    } else {
      assert (js + [j])[1..] == js[1..] + [j];
      ListTotalAppend(w, js[1..], j);
    }
  }

  // Walking any duplicate-free list that covers the rows of non-zero weight gives the sum over the table.
  lemma {:induction false} ListTotalIsTotal(w: Row -> nat, t: Table, js: seq<Job>)
    requires DistinctIds(js)
    requires forall j :: j in js ==> j.id in t && t[j.id] == j.row
    requires forall id :: id in t && w(t[id]) > 0 ==> Job(id, t[id]) in js
    ensures ListTotal(w, js) == Total(w, t)
    decreases |js|
  {
    if js == [] {
      TotalZero(w, t);
    } else {
      var j := js[0];
      var rest := js[1..];
      assert j in js;
      var u := t - {j.id};
      forall k | k in rest ensures k.id in u && u[k.id] == k.row {
        var n :| 0 <= n < |rest| && rest[n] == k;
        assert js[n + 1] == k && js[0].id != js[n + 1].id;
      }
      forall id | id in u && w(u[id]) > 0 ensures Job(id, u[id]) in rest {
        assert Job(id, t[id]) in js;
      }
      ListTotalIsTotal(w, u, rest);
      TotalWithout(w, t, j.id);
    }
  }

  lemma {:induction false} TotalZero(w: Row -> nat, t: Table)
    requires forall id :: id in t ==> w(t[id]) == 0
    ensures Total(w, t) == 0
    decreases |t|
  {
    if t != map[] {
      var id :| id in t;
      TotalWithout(w, t, id);
      SmallerWithout(t, id);
      TotalZero(w, t - {id});
    }
  }

  // ---------------------------------------------------------------- plain sums of estimates

  function Ram(r: Row): nat { r.ram }

  function RamSum(js: seq<Job>): nat {
    if js == [] then 0 else js[0].row.ram + RamSum(js[1..])
  }

  // The part of a table with these ids.
  function Only(t: Table, ids: set<JobId>): Table {
    map id | id in t && id in ids :: t[id]
  }

  // The part of a table, or of a list, that occupies memory.
  function Flying(t: Table): Table {
    map id | id in t && t[id].status in {Running, Building, HealthCheck, Swapping, HotSwapping} :: t[id]
  }

  function FlyingJobs(js: seq<Job>): seq<Job> {
    if js == [] then []
    else if js[0].row.status in {Running, Building, HealthCheck, Swapping, HotSwapping} then [js[0]] + FlyingJobs(js[1..])
    else FlyingJobs(js[1..])
  }

  lemma {:induction false} TotalSame(w: Row -> nat, v: Row -> nat, t: Table)
    requires forall id :: id in t ==> w(t[id]) == v(t[id])
    ensures Total(w, t) == Total(v, t)
    decreases |t|
  {
    if t != map[] {
      var id :| id in t;
      TotalWithout(w, t, id);
      TotalWithout(v, t, id);
      SmallerWithout(t, id);
      TotalSame(w, v, t - {id});
    }
  }

  // Rows that weigh nothing may go.
  lemma {:induction false} TotalDeleteZero(w: Row -> nat, t: Table, ids: set<JobId>)
    requires forall id :: id in ids && id in t ==> w(t[id]) == 0
    ensures Total(w, t - ids) == Total(w, t)
    decreases |ids|
  {
    if ids == {} {
      assert t - ids == t;
    } else {
      var id :| id in ids;
      var rest := ids - {id};
      TotalDeleteZero(w, t, rest);
      if id in t {
        TotalWithout(w, t - rest, id);
        assert t - rest - {id} == t - ids;
      } else {
        assert t - ids == t - rest;
      }
    }
  }

  // The weighed sum over the table is the plain sum over the jobs that occupy memory.
  lemma LoadOfFlying(t: Table)
    ensures Total(InFlightRam, t) == Total(Ram, Flying(t))
  {
    var others := t.Keys - Flying(t).Keys;
    assert Flying(t) == t - others;
    TotalDeleteZero(InFlightRam, t, others);
    TotalSame(Ram, InFlightRam, Flying(t));
  }

  // No selection of them sums to more.
  lemma LoadOfSome(t: Table, ids: set<JobId>)
    requires forall id :: id in ids ==> id in t && t[id].status in {Running, Building, HealthCheck, Swapping, HotSwapping}
    ensures Total(Ram, Only(t, ids)) <= Total(InFlightRam, t)
  {
    assert Only(t, ids) == t - (t.Keys - ids);
    TotalDelete(InFlightRam, t, t.Keys - ids);
    TotalSame(Ram, InFlightRam, Only(t, ids));
  }

  lemma {:induction false} LoadOfList(js: seq<Job>)
    ensures ListTotal(InFlightRam, js) == RamSum(FlyingJobs(js))
  {
    if js != [] {
      LoadOfList(js[1..]);
    }
  }
}
