/** The supervisor's books: the map of tracked jobs and the wait group, under every
    interleaving of callers of Spawn with the goroutines Spawn starts. */
module Supervision {
  import opened Basics
  import opened Jobs

  // Spawn inserts the job under the lock, then adds to the wait group and starts the goroutine.
  // When the job's function has returned, the deferred calls run last-in first-out:
  // release deletes the job from the map, and only then is the wait group decremented.
  datatype Life = Inserted | Live | Returned | Released | Exited

  datatype Goroutine = Goroutine(job: JobId, life: Life)

  datatype Books = Books(active: set<JobId>, waitGroup: int, goroutines: seq<Goroutine>)

  datatype Event =
    | Insert(id: JobId)
    | Launch(n: nat)
    | Return(n: nat)
    | Release(n: nat)
    | WgDone(n: nat)

  predicate At(b: Books, n: nat, life: Life) {
    n < |b.goroutines| && b.goroutines[n].life == life
  }

  predicate Enabled(b: Books, e: Event) {
    match e
    case Insert(id) => id !in b.active
    case Launch(n) => At(b, n, Inserted)
    case Return(n) => At(b, n, Live)
    case Release(n) => At(b, n, Returned)
    case WgDone(n) => At(b, n, Released)
  }

  function Moved(b: Books, n: nat, to: Life): seq<Goroutine>
    requires n < |b.goroutines|
  {
    b.goroutines[n := b.goroutines[n].(life := to)]
  }

  function Exec(b: Books, e: Event): Books
    requires Enabled(b, e)
  {
    match e
    case Insert(id) => Books(b.active + {id}, b.waitGroup, b.goroutines + [Goroutine(id, Inserted)])
    case Launch(n) => Books(b.active, b.waitGroup + 1, Moved(b, n, Live))
    case Return(n) => b.(goroutines := Moved(b, n, Returned))
    case Release(n) => Books(b.active - {b.goroutines[n].job}, b.waitGroup, Moved(b, n, Released))
    case WgDone(n) => Books(b.active, b.waitGroup - 1, Moved(b, n, Exited))
  }

  const EmptyBooks := Books({}, 0, [])

  // ---------------------------------------------------------------- counting

  function Count(gs: seq<Goroutine>, lives: set<Life>): nat {
    if gs == [] then 0
    else (if gs[0].life in lives then 1 else 0) + Count(gs[1..], lives)
  }

  lemma {:induction false} CountMoved(gs: seq<Goroutine>, lives: set<Life>, n: nat, g: Goroutine)
    requires n < |gs|
    ensures Count(gs[n := g], lives)
            == Count(gs, lives) - (if gs[n].life in lives then 1 else 0) + (if g.life in lives then 1 else 0)
  {
    if n == 0 {
      assert gs[n := g][1..] == gs[1..];
    } else {
      CountMoved(gs[1..], lives, n - 1, g);
      assert gs[n := g][1..] == gs[1..][n - 1 := g];
    }
  }

  lemma {:induction false} CountAppend(gs: seq<Goroutine>, lives: set<Life>, g: Goroutine)
    ensures Count(gs + [g], lives) == Count(gs, lives) + (if g.life in lives then 1 else 0)
  {
    if gs == [] {
      assert ([] + [g])[1..] == [];
    } else {
      CountAppend(gs[1..], lives, g);
      assert (gs + [g])[1..] == gs[1..] + [g];
    }
  }

  lemma {:induction false} CountZero(gs: seq<Goroutine>, lives: set<Life>)
    ensures Count(gs, lives) == 0 <==> forall k :: 0 <= k < |gs| ==> gs[k].life !in lives
  {
    if gs != [] {
      CountZero(gs[1..], lives);
      assert forall k :: 0 < k < |gs| ==> gs[k] == gs[1..][k - 1];
      assert forall k :: 0 <= k < |gs[1..]| ==> gs[1..][k] == gs[k + 1];
    }
  }

  lemma {:induction false} CountSplit(gs: seq<Goroutine>, a: set<Life>, b: set<Life>)
    requires a !! b
    ensures Count(gs, a + b) == Count(gs, a) + Count(gs, b)
  {
    if gs != [] {
      CountSplit(gs[1..], a, b);
    }
  }

  const TRACKED: set<Life> := {Inserted, Live, Returned}
  const COUNTED: set<Life> := {Live, Returned, Released}

  // ---------------------------------------------------------------- accounting

  ghost predicate Balanced(b: Books) {
    && b.waitGroup == Count(b.goroutines, COUNTED)
    && |b.active| == Count(b.goroutines, TRACKED)
  }

  predicate Tracked(gs: seq<Goroutine>, k: int) {
    0 <= k < |gs| && (gs[k].life.Inserted? || gs[k].life.Live? || gs[k].life.Returned?)
  }

  ghost predicate HasGoroutine(gs: seq<Goroutine>, id: JobId) {
    exists k :: Tracked(gs, k) && gs[k].job == id
  }

  // The map holds exactly the jobs of the tracked goroutines, one goroutine each.
  ghost predicate OneEach(b: Books) {
    && (forall k :: Tracked(b.goroutines, k) ==> b.goroutines[k].job in b.active)
    && (forall id :: id in b.active ==> HasGoroutine(b.goroutines, id))
    && (forall j, k | Tracked(b.goroutines, j) && Tracked(b.goroutines, k) ::
          b.goroutines[j].job == b.goroutines[k].job ==> j == k)
  }

  ghost predicate Accounted(b: Books) {
    Balanced(b) && OneEach(b)
  }

  ghost predicate Next(a: Books, b: Books) {
    exists e :: Enabled(a, e) && b == Exec(a, e)
  }

  ghost predicate Reachable(trace: seq<Books>) {
    && trace != [] && trace[0] == EmptyBooks
    && forall k :: 0 < k < |trace| ==> Next(trace[k - 1], trace[k])
  }

  lemma InsertBalanced(b: Books, id: JobId)
    requires Balanced(b) && id !in b.active
    ensures Balanced(Exec(b, Insert(id)))
  {
    CountAppend(b.goroutines, COUNTED, Goroutine(id, Inserted));
    CountAppend(b.goroutines, TRACKED, Goroutine(id, Inserted));
  }

  lemma InsertOneEach(b: Books, id: JobId)
    requires OneEach(b) && id !in b.active
    ensures OneEach(Exec(b, Insert(id)))
  {
    var gs := b.goroutines;
    var hs := gs + [Goroutine(id, Inserted)];
    assert Tracked(hs, |gs|);
    assert forall k :: 0 <= k < |gs| ==> Tracked(hs, k) == Tracked(gs, k) && hs[k] == gs[k];
    forall x | x in b.active ensures HasGoroutine(hs, x) {
      var k :| Tracked(gs, k) && gs[k].job == x;
      assert Tracked(hs, k);
    }
  }

  lemma MoveBalanced(b: Books, e: Event)
    requires Accounted(b) && Enabled(b, e) && !e.Insert?
    ensures Balanced(Exec(b, e))
  {
    var g := Exec(b, e).goroutines[e.n];
    CountMoved(b.goroutines, COUNTED, e.n, g);
    CountMoved(b.goroutines, TRACKED, e.n, g);
    if e.Release? {
      assert Tracked(b.goroutines, e.n);
      assert |b.active - {g.job}| == |b.active| - 1;
    }
  }

  lemma MoveOneEach(b: Books, e: Event)
    requires OneEach(b) && Enabled(b, e) && !e.Insert?
    ensures OneEach(Exec(b, e))
  {
    var gs := b.goroutines;
    var after := Exec(b, e);
    var hs := after.goroutines;
    assert forall k :: k != e.n ==> Tracked(hs, k) == Tracked(gs, k);
    assert forall k :: 0 <= k < |gs| ==> hs[k].job == gs[k].job;
    assert Tracked(hs, e.n) == (Tracked(gs, e.n) && !e.Release?);
    forall x | x in after.active ensures HasGoroutine(hs, x) {
      var k :| Tracked(gs, k) && gs[k].job == x;
      assert Tracked(hs, k);
    }
  }

  lemma StepAccounted(b: Books, e: Event)
    requires Accounted(b) && Enabled(b, e)
    ensures Accounted(Exec(b, e))
  {
    if e.Insert? {
      InsertBalanced(b, e.id);
      InsertOneEach(b, e.id);
    } else {
      MoveBalanced(b, e);
      MoveOneEach(b, e);
    }
  }

  lemma {:induction false} EveryInterleavingAccounted(trace: seq<Books>)
    requires Reachable(trace)
    ensures Accounted(trace[|trace| - 1])
    decreases |trace|
  {
    var n := |trace| - 1;
    if n > 0 {
      EveryInterleavingAccounted(trace[..n]);
      assert Next(trace[n - 1], trace[n]);
      var e :| Enabled(trace[n - 1], e) && trace[n] == Exec(trace[n - 1], e);
      StepAccounted(trace[n - 1], e);
    }
  }

  // Wait-group count = tracked jobs + released but not yet done - inserted but not yet added.
  lemma WaitGroupEquation(trace: seq<Books>)
    requires Reachable(trace)
    ensures var b := trace[|trace| - 1];
            b.waitGroup == |b.active| + Count(b.goroutines, {Released}) - Count(b.goroutines, {Inserted})
            && b.waitGroup >= 0
  {
    EveryInterleavingAccounted(trace);
    var b := trace[|trace| - 1];
    assert COUNTED == {Live, Returned} + {Released};
    assert TRACKED == {Live, Returned} + {Inserted};
    CountSplit(b.goroutines, {Live, Returned}, {Released});
    CountSplit(b.goroutines, {Live, Returned}, {Inserted});
  }

  // What a completed Drain means: the wait group was zero, so no job function is running, and
  // nothing is tracked any more exactly when no Spawn was half-way between its insert and its add.
  lemma DrainComplete(trace: seq<Books>)
    requires Reachable(trace) && trace[|trace| - 1].waitGroup == 0
    ensures var b := trace[|trace| - 1];
            && (forall k :: 0 <= k < |b.goroutines| ==> b.goroutines[k].life.Inserted? || b.goroutines[k].life.Exited?)
            && (b.active == {} <==> forall k :: 0 <= k < |b.goroutines| ==> !b.goroutines[k].life.Inserted?)
  {
    EveryInterleavingAccounted(trace);
    var b := trace[|trace| - 1];
    CountZero(b.goroutines, COUNTED);
    if b.active == {} {
      forall k | 0 <= k < |b.goroutines| ensures !b.goroutines[k].life.Inserted? {
        assert !Tracked(b.goroutines, k);
      }
    } else {
      var id :| id in b.active;
      var k :| Tracked(b.goroutines, k) && b.goroutines[k].job == id;
    }
  }

  // The half-way Spawn is real: Drain can return while a job is tracked and about to run.
  lemma DrainMissesHalfwaySpawn(id: JobId)
    ensures var trace := [EmptyBooks, Exec(EmptyBooks, Insert(id))];
            Reachable(trace) && trace[1].waitGroup == 0 && trace[1].active == {id}
  {
    assert Enabled(EmptyBooks, Insert(id));
  }

  // ---------------------------------------------------------------- the class

  class Supervisor {
    var active: set<JobId>
    var waitGroup: int
    ghost var goroutines: seq<Goroutine>

    ghost function State(): Books
      reads this
    {
      Books(active, waitGroup, goroutines)
    }

    ghost predicate Valid()
      reads this
    {
      Accounted(State())
    }

    constructor ()
      ensures Valid() && State() == EmptyBooks
    {
      active, waitGroup, goroutines := {}, 0, [];
    }

    // First half of Spawn, under the lock.
    method TryInsert(id: JobId) returns (ok: bool)
      requires Valid()
      modifies this
      ensures Valid()
      ensures ok == (id !in old(active))
      ensures State() == if ok then Exec(old(State()), Insert(id)) else old(State())
    {
      if id in active {
        return false;
      }
      StepAccounted(State(), Insert(id));
      active := active + {id};
      goroutines := goroutines + [Goroutine(id, Inserted)];
      ok := true;
    }

    // Second half of Spawn: add to the wait group, start the goroutine.
    method Start(ghost n: nat)
      requires Valid() && At(State(), n, Inserted)
      modifies this
      ensures Valid() && State() == Exec(old(State()), Launch(n))
      ensures active == old(active) && waitGroup == old(waitGroup) + 1
    {
      StepAccounted(State(), Launch(n));
      waitGroup := waitGroup + 1;
      goroutines := goroutines[n := goroutines[n].(life := Live)];
    }

    method Spawn(id: JobId) returns (ok: bool)
      requires Valid()
      modifies this
      ensures Valid()
      ensures ok == (id !in old(active))
      ensures !ok ==> State() == old(State())
      ensures ok ==> active == old(active) + {id} && waitGroup == old(waitGroup) + 1
      ensures ok ==> goroutines == old(goroutines) + [Goroutine(id, Live)]
    {
      ok := TryInsert(id);
      if ok {
        Start(|goroutines| - 1);
      }
    }

    method FunctionReturned(ghost n: nat)
      requires Valid() && At(State(), n, Live)
      modifies this
      ensures Valid() && State() == Exec(old(State()), Return(n))
    {
      StepAccounted(State(), Return(n));
      goroutines := goroutines[n := goroutines[n].(life := Returned)];
    }

    method ReleaseJob(id: JobId, ghost n: nat)
      requires Valid() && At(State(), n, Returned) && goroutines[n].job == id
      modifies this
      ensures Valid() && State() == Exec(old(State()), Release(n))
      ensures active == old(active) - {id} && waitGroup == old(waitGroup)
    {
      StepAccounted(State(), Release(n));
      active := active - {id};
      goroutines := goroutines[n := goroutines[n].(life := Released)];
    }

    method Done(ghost n: nat)
      requires Valid() && At(State(), n, Released)
      modifies this
      ensures Valid() && State() == Exec(old(State()), WgDone(n))
      ensures active == old(active) && waitGroup == old(waitGroup) - 1
    {
      StepAccounted(State(), WgDone(n));
      waitGroup := waitGroup - 1;
      goroutines := goroutines[n := goroutines[n].(life := Exited)];
    }

    method ActiveCount() returns (n: nat)
      requires Valid()
      ensures n == |active| == Count(goroutines, TRACKED)
    {
      n := |active|;
    }
  }
}
