/** The fixed-window rate limiter: one bucket per address, dropped or replaced once its window
    has passed, and a periodic pass that deletes stale buckets. */
module RateLimiting {

  import opened Basics

  type Ip = string

  datatype Bucket = Bucket(count: int, resetAt: Time)

  type Buckets = map<Ip, Bucket>

  // ---------------------------------------------------------------- one request, one clean-up

  function Lookup(b: Buckets, ip: Ip): Option<Bucket> {
    if ip in b then Some(b[ip]) else None
  }

  function Hit(b: Option<Bucket>, now: Time, window: nat): Bucket {
    if b.None? || now > b.value.resetAt then Bucket(1, now + window)
    else b.value.(count := b.value.count + 1)
  }

  predicate Admits(b: Bucket, maxReq: int) {
    b.count <= maxReq
  }

  function AfterCleanup(b: Buckets, now: Time): Buckets {
    map ip | ip in b && now <= b[ip].resetAt :: b[ip]
  }

  datatype Event = Request(ip: Ip, now: Time) | Cleanup(now: Time)

  function Exec(b: Buckets, e: Event, window: nat): Buckets {
    match e
    case Request(ip, now) => b[ip := Hit(Lookup(b, ip), now, window)]
    case Cleanup(now) => AfterCleanup(b, now)
  }

  // The buckets after a history.
  function After(es: seq<Event>, window: nat): Buckets {
    if es == [] then map[] else Exec(After(es[..|es| - 1], window), es[|es| - 1], window)
  }

  // The decision on the request at position k of a history.
  predicate Admitted(es: seq<Event>, k: nat, maxReq: int, window: nat)
    requires k < |es| && es[k].Request?
  {
    Admits(Hit(Lookup(After(es[..k], window), es[k].ip), es[k].now, window), maxReq)
  }

  predicate Monotone(es: seq<Event>) {
    forall i, j :: 0 <= i < j < |es| ==> es[i].now <= es[j].now
  }

  // ---------------------------------------------------------------- the request times of one address

  function Times(es: seq<Event>, ip: Ip): seq<Time> {
    if es == [] then []
    else
      var e := es[|es| - 1];
      Times(es[..|es| - 1], ip) + if e.Request? && e.ip == ip then [e.now] else []
  }

  // What the limiter would do for an address that is alone, without any clean-up.
  function Own(ts: seq<Time>, window: nat): Option<Bucket> {
    if ts == [] then None else Some(Hit(Own(ts[..|ts| - 1], window), ts[|ts| - 1], window))
  }

  lemma OwnSnoc(ts: seq<Time>, t: Time, window: nat)
    ensures Own(ts + [t], window) == Some(Hit(Own(ts, window), t, window))
  {
    assert (ts + [t])[..|ts|] == ts;
  }

  predicate SameFrom(a: Option<Bucket>, b: Option<Bucket>, now: Time) {
    a == b || ((a.Some? ==> now > a.value.resetAt) && (b.Some? ==> now > b.value.resetAt))
  }

  // The shared map with its clean-ups treats each address as if it were alone.
  lemma {:induction false} EachAddressIsAlone(es: seq<Event>, ip: Ip, now: Time, window: nat)
    requires Monotone(es) && forall k :: 0 <= k < |es| ==> es[k].now <= now
    ensures SameFrom(Lookup(After(es, window), ip), Own(Times(es, ip), window), now)
  {
    if es != [] {
      var init, e := es[..|es| - 1], es[|es| - 1];
      EachAddressIsAlone(init, ip, e.now, window);
      if e.Request? && e.ip == ip {
        OwnSnoc(Times(init, ip), e.now, window);
        assert Times(es, ip) == Times(init, ip) + [e.now];
      } else {
        assert Times(es, ip) == Times(init, ip);
      }
    }
  }

  // So no decision depends on clean-ups or on other addresses.
  lemma DecisionsAreOwn(es: seq<Event>, k: nat, maxReq: int, window: nat)
    requires Monotone(es) && k < |es| && es[k].Request?
    ensures Admitted(es, k, maxReq, window)
            <==> Admits(Hit(Own(Times(es[..k], es[k].ip), window), es[k].now, window), maxReq)
  {
    EachAddressIsAlone(es[..k], es[k].ip, es[k].now, window);
  }

  function Requests(es: seq<Event>): seq<Event> {
    if es == [] then []
    else Requests(es[..|es| - 1]) + if es[|es| - 1].Request? then [es[|es| - 1]] else []
  }

  lemma {:induction false} TimesOfRequests(es: seq<Event>, ip: Ip)
    ensures Times(Requests(es), ip) == Times(es, ip)
  {
    if es != [] {
      TimesOfRequests(es[..|es| - 1], ip);
      var rs, e := Requests(es[..|es| - 1]), es[|es| - 1];
      if e.Request? {
        assert Requests(es) == rs + [e];
        assert (rs + [e])[..|rs|] == rs;
      } else {
        assert Requests(es) == rs;
      }
    }
  }

  // Two histories with the same requests, and clean-ups inserted wherever one likes, decide alike.
  lemma CleanupsAreInvisible(es: seq<Event>, fs: seq<Event>, k: nat, m: nat, maxReq: int, window: nat)
    requires Monotone(es) && Monotone(fs)
    requires k < |es| && m < |fs| && es[k].Request? && fs[m] == es[k]
    requires Requests(es[..k]) == Requests(fs[..m])
    ensures Admitted(es, k, maxReq, window) <==> Admitted(fs, m, maxReq, window)
  {
    DecisionsAreOwn(es, k, maxReq, window);
    DecisionsAreOwn(fs, m, maxReq, window);
    TimesOfRequests(es[..k], es[k].ip);
    TimesOfRequests(fs[..m], es[k].ip);
  }

  // ---------------------------------------------------------------- nobody is rejected without cause

  // How many requests of an address a history has from a time on.
  function RequestsFrom(es: seq<Event>, ip: Ip, lo: Time): nat {
    if es == [] then 0
    else
      var e := es[|es| - 1];
      RequestsFrom(es[..|es| - 1], ip, lo) + if e.Request? && e.ip == ip && lo <= e.now then 1 else 0
  }

  function CountFrom(ts: seq<Time>, lo: Time): nat {
    if ts == [] then 0 else CountFrom(ts[..|ts| - 1], lo) + if lo <= ts[|ts| - 1] then 1 else 0
  }

  lemma {:induction false} RequestsFromIsCount(es: seq<Event>, ip: Ip, lo: Time)
    ensures RequestsFrom(es, ip, lo) == CountFrom(Times(es, ip), lo)
  {
    if es != [] {
      var init, e := es[..|es| - 1], es[|es| - 1];
      RequestsFromIsCount(init, ip, lo);
      if e.Request? && e.ip == ip {
        assert Times(es, ip) == Times(init, ip) + [e.now];
        assert Times(es, ip)[..|Times(init, ip)|] == Times(init, ip);
      } else {
        assert Times(es, ip) == Times(init, ip);
      }
    }
  }

  lemma {:induction false} CountFromEarlier(ts: seq<Time>, lo: Time, earlier: Time)
    requires earlier <= lo
    ensures CountFrom(ts, lo) <= CountFrom(ts, earlier)
  {
    if ts != [] {
      CountFromEarlier(ts[..|ts| - 1], lo, earlier);
    }
  }

  // A bucket counts only requests made since it was opened, one window before it is reset.
  lemma {:induction false} OwnCounts(ts: seq<Time>, window: nat)
    requires ts != [] && forall i, j :: 0 <= i < j < |ts| ==> ts[i] <= ts[j]
    ensures Own(ts, window).Some?
    ensures var b := Own(ts, window).value;
            && b.resetAt - window <= ts[|ts| - 1] <= b.resetAt
            && b.count <= CountFrom(ts, b.resetAt - window)
  {
    if |ts| > 1 {
      OwnCounts(ts[..|ts| - 1], window);
    }
  }

  // A request is admitted if its address has made at most maxReq requests, itself included, within
  // the last window.
  lemma ModestClientsAreAdmitted(es: seq<Event>, k: nat, maxReq: int, window: nat)
    requires Monotone(es) && k < |es| && es[k].Request?
    requires RequestsFrom(es[..k + 1], es[k].ip, es[k].now - window) <= maxReq
    ensures Admitted(es, k, maxReq, window)
  {
    var ip, now := es[k].ip, es[k].now;
    var before, upTo := Times(es[..k], ip), Times(es[..k + 1], ip);
    assert es[..k + 1][..k] == es[..k];
    assert upTo == before + [now];
    TimesAreSorted(es[..k + 1], ip);
    OwnSnoc(before, now, window);
    OwnCounts(upTo, window);
    var b := Own(upTo, window).value;
    CountFromEarlier(upTo, b.resetAt - window, now - window);
    RequestsFromIsCount(es[..k + 1], ip, now - window);
    DecisionsAreOwn(es, k, maxReq, window);
  }

  // ---------------------------------------------------------------- windows

  // A request of one address: when, in which of its buckets, since when that bucket runs, and the
  // how-manieth of the bucket it is.
  datatype Mark = Mark(time: Time, bucket: nat, start: Time, place: nat)

  function Next(last: Mark, t: Time, window: nat): Mark {
    if t > last.start + window then Mark(t, last.bucket + 1, t, 1)
    else Mark(t, last.bucket, last.start, last.place + 1)
  }

  function Marks(ts: seq<Time>, window: nat): (ms: seq<Mark>)
    ensures |ms| == |ts|
  {
    if ts == [] then []
    else
      var ms := Marks(ts[..|ts| - 1], window);
      ms + [if ms == [] then Mark(ts[0], 0, ts[0], 1) else Next(ms[|ms| - 1], ts[|ts| - 1], window)]
  }

  lemma {:induction false} MarksFollowTheBucket(ts: seq<Time>, window: nat)
    requires ts != []
    ensures var m := Marks(ts, window)[|ts| - 1];
            m.time == ts[|ts| - 1] && Own(ts, window) == Some(Bucket(m.place, m.start + window))
  {
    if |ts| > 1 {
      MarksFollowTheBucket(ts[..|ts| - 1], window);
    }
  }

  predicate Sorted(ts: seq<Time>) {
    forall i, j :: 0 <= i < j < |ts| ==> ts[i] <= ts[j]
  }

  predicate MarkOk(m: Mark, t: Time, window: nat) {
    && m.time == t && m.start <= t <= m.start + window
    && m.place >= 1 && (m.place == 1 ==> m.time == m.start)
  }

  // Buckets come one after the other; each starts more than a full window after the one before.
  predicate InOrder(a: Mark, b: Mark, window: nat) {
    && a.bucket <= b.bucket
    && (a.bucket == b.bucket ==> a.start == b.start)
    && (a.bucket < b.bucket ==> a.start + window < b.start)
    && (a.bucket + 1 < b.bucket ==> a.start + window + window < b.start)
  }

  predicate Ordered(ms: seq<Mark>, window: nat) {
    && (forall k :: 0 <= k < |ms| ==> MarkOk(ms[k], ms[k].time, window))
    && (forall j, k :: 0 <= j < k < |ms| ==> InOrder(ms[j], ms[k], window))
  }

  lemma {:induction false} MarksAreOrdered(ts: seq<Time>, window: nat)
    requires Sorted(ts)
    ensures forall k :: 0 <= k < |ts| ==> MarkOk(Marks(ts, window)[k], ts[k], window)
    ensures forall j, k :: 0 <= j < k < |ts| ==> InOrder(Marks(ts, window)[j], Marks(ts, window)[k], window)
    decreases |ts|
  {
    if |ts| > 1 {
      var n := |ts| - 1;
      MarksAreOrdered(ts[..n], window);
      var before, ms := Marks(ts[..n], window), Marks(ts, window);
      assert ms == before + [Next(before[n - 1], ts[n], window)];
      assert MarkOk(before[n - 1], ts[..n][n - 1], window);
      forall j | 0 <= j < n ensures InOrder(ms[j], ms[n], window) {
        if j < n - 1 {
          assert InOrder(before[j], before[n - 1], window);
        }
      }
    }
  }

  lemma MarksOrdered(ts: seq<Time>, window: nat)
    requires Sorted(ts)
    ensures Ordered(Marks(ts, window), window)
  {
    MarksAreOrdered(ts, window);
    var ms := Marks(ts, window);
    forall k | 0 <= k < |ms| ensures MarkOk(ms[k], ms[k].time, window) {
      assert MarkOk(ms[k], ts[k], window);
    }
  }

  // ---------------------------------------------------------------- counting

  function Count(ms: seq<Mark>, p: Mark -> bool): nat {
    if ms == [] then 0 else Count(ms[..|ms| - 1], p) + if p(ms[|ms| - 1]) then 1 else 0
  }

  lemma {:induction false} CountSplit(ms: seq<Mark>, p: Mark -> bool, q: Mark -> bool, r: Mark -> bool)
    requires forall k :: 0 <= k < |ms| && p(ms[k]) ==> q(ms[k]) || r(ms[k])
    ensures Count(ms, p) <= Count(ms, q) + Count(ms, r)
  {
    if ms != [] {
      CountSplit(ms[..|ms| - 1], p, q, r);
    }
  }

  // Those of a bucket that are admitted, except that the first "skip" of it are left out.
  function InBucket(bucket: nat, maxReq: nat, skip: nat): Mark -> bool {
    (m: Mark) => m.bucket == bucket && skip < m.place <= maxReq
  }

  lemma {:induction false} BucketBound(ts: seq<Time>, window: nat, bucket: nat, maxReq: nat, skip: nat)
    requires Sorted(ts)
    ensures var ms := Marks(ts, window);
            var c := Count(ms, InBucket(bucket, maxReq, skip));
            && c <= (if maxReq > skip then maxReq - skip else 0)
            && (ms != [] && ms[|ms| - 1].bucket < bucket ==> c == 0)
            && (ms != [] && ms[|ms| - 1].bucket == bucket ==>
                  c <= (if ms[|ms| - 1].place > skip then ms[|ms| - 1].place - skip else 0))
  {
    if ts != [] {
      BucketBound(ts[..|ts| - 1], window, bucket, maxReq, skip);
      var ms := Marks(ts, window);
      assert ms[..|ms| - 1] == Marks(ts[..|ts| - 1], window);
    }
  }

  function InWindow(lo: Time, window: nat, maxReq: nat): Mark -> bool {
    (m: Mark) => lo <= m.time <= lo + window && m.place <= maxReq
  }

  // Per bucket at most maxReq; per closed interval of length window at most 2 * maxReq - 1.
  lemma WindowBound(ts: seq<Time>, window: nat, lo: Time, maxReq: nat)
    requires Sorted(ts)
    ensures Count(Marks(ts, window), InWindow(lo, window, maxReq)) <= (if maxReq == 0 then 0 else 2 * maxReq - 1)
  {
    var ms := Marks(ts, window);
    var p := InWindow(lo, window, maxReq);
    if exists k :: 0 <= k < |ms| && p(ms[k]) {
      var j := FirstIn(ms, p);
      assert maxReq > 0 by { MarksAreOrdered(ts, window); assert MarkOk(ms[j], ts[j], window); }
      var b := ms[j].bucket;
      if far :| 0 <= far < |ms| && p(ms[far]) && ms[far].bucket != b {
        MarksOrdered(ts, window);
        MeetsTwoBuckets(ms, window, lo, maxReq, j, far);
        TwoBucketsBound(ts, window, lo, maxReq, b);
      } else {
        var q := InBucket(b, maxReq, 0);
        MarksInBucket(ts, window, lo, maxReq, b);
        CountWeaken(ms, p, q);
        BucketBound(ts, window, b, maxReq, 0);
      }
    } else {
      CountNone(ms, p);
    }
  }

  lemma MarksInBucket(ts: seq<Time>, window: nat, lo: Time, maxReq: nat, b: nat)
    requires Sorted(ts)
    ensures forall k | 0 <= k < |ts| && InWindow(lo, window, maxReq)(Marks(ts, window)[k]) ::
              Marks(ts, window)[k].bucket == b ==> InBucket(b, maxReq, 0)(Marks(ts, window)[k])
  {
    MarksAreOrdered(ts, window);
    forall k | 0 <= k < |ts| ensures Marks(ts, window)[k].place >= 1 {
      assert MarkOk(Marks(ts, window)[k], ts[k], window);
    }
  }

  lemma MeetsTwoBuckets(ms: seq<Mark>, window: nat, lo: Time, maxReq: nat, j: nat, far: nat)
    requires Ordered(ms, window) && j < |ms| && far < |ms|
    requires Meets(ms, lo, window, maxReq, j, far)
    ensures forall k :: 0 <= k < |ms| && InWindow(lo, window, maxReq)(ms[k]) ==>
              InBucket(ms[j].bucket, maxReq, 1)(ms[k]) || InBucket(ms[j].bucket + 1, maxReq, 0)(ms[k])
  {
    forall k | 0 <= k < |ms| && InWindow(lo, window, maxReq)(ms[k])
      ensures InBucket(ms[j].bucket, maxReq, 1)(ms[k]) || InBucket(ms[j].bucket + 1, maxReq, 0)(ms[k])
    {
      assert InOrder(ms[j], ms[far], window);
      assert j < k ==> InOrder(ms[j], ms[k], window);
    }
  }

  // The window's first admitted request is number j, and "far" is one from another bucket.
  predicate Meets(ms: seq<Mark>, lo: Time, window: nat, maxReq: nat, j: nat, far: nat)
    requires j < |ms| && far < |ms|
  {
    var p := InWindow(lo, window, maxReq);
    p(ms[j]) && p(ms[far]) && ms[far].bucket != ms[j].bucket && forall k :: 0 <= k < j ==> !p(ms[k])
  }

  lemma TwoBucketsBound(ts: seq<Time>, window: nat, lo: Time, maxReq: nat, b: nat)
    requires Sorted(ts) && maxReq > 0
    requires forall k | 0 <= k < |ts| && InWindow(lo, window, maxReq)(Marks(ts, window)[k]) ::
               InBucket(b, maxReq, 1)(Marks(ts, window)[k]) || InBucket(b + 1, maxReq, 0)(Marks(ts, window)[k])
    ensures Count(Marks(ts, window), InWindow(lo, window, maxReq)) <= 2 * maxReq - 1
  {
    var ms := Marks(ts, window);
    CountSplit(ms, InWindow(lo, window, maxReq), InBucket(b, maxReq, 1), InBucket(b + 1, maxReq, 0));
    BucketBound(ts, window, b, maxReq, 1);
    BucketBound(ts, window, b + 1, maxReq, 0);
  }

  lemma FirstIn(ms: seq<Mark>, p: Mark -> bool) returns (j: nat)
    requires exists k :: 0 <= k < |ms| && p(ms[k])
    ensures j < |ms| && p(ms[j]) && forall k :: 0 <= k < j ==> !p(ms[k])
  {
    j := 0;
    while !p(ms[j])
      invariant j < |ms| && forall k :: 0 <= k < j ==> !p(ms[k])
      decreases |ms| - j
    {
      j := j + 1;
    }
  }

  lemma {:induction false} CountWeaken(ms: seq<Mark>, p: Mark -> bool, q: Mark -> bool)
    requires forall k :: 0 <= k < |ms| && p(ms[k]) ==> q(ms[k])
    ensures Count(ms, p) <= Count(ms, q)
  {
    if ms != [] {
      CountWeaken(ms[..|ms| - 1], p, q);
    }
  }

  lemma {:induction false} CountNone(ms: seq<Mark>, p: Mark -> bool)
    requires forall k :: 0 <= k < |ms| ==> !p(ms[k])
    ensures Count(ms, p) == 0
  {
    if ms != [] {
      CountNone(ms[..|ms| - 1], p);
    }
  }

  // One request at 0, then n at the end of its window, then m just after it.
  function Burst(n: nat, m: nat, window: nat): seq<Time>
    decreases m, n
  {
    if m > 0 then Burst(n, m - 1, window) + [window + 1]
    else if n > 0 then Burst(n - 1, 0, window) + [window]
    else [0]
  }

  lemma {:induction false} BurstShape(n: nat, m: nat, window: nat)
    ensures |Burst(n, m, window)| == n + m + 1 && Sorted(Burst(n, m, window))
    ensures forall k :: 0 <= k < n + m + 1 ==> Burst(n, m, window)[k] <= if m > 0 then window + 1 else window
    decreases m, n
  {
    if m > 0 {
      BurstShape(n, m - 1, window);
    } else if n > 0 {
      BurstShape(n - 1, 0, window);
    }
  }

  lemma MarksSnoc(ts: seq<Time>, t: Time, window: nat)
    requires ts != []
    ensures Marks(ts + [t], window) == Marks(ts, window) + [Next(Marks(ts, window)[|ts| - 1], t, window)]
  {
    assert (ts + [t])[..|ts|] == ts;
  }

  lemma CountSnoc(ms: seq<Mark>, m: Mark, p: Mark -> bool)
    ensures Count(ms + [m], p) == Count(ms, p) + if p(m) then 1 else 0
  {
    assert (ms + [m])[..|ms|] == ms;
  }

  function BurstLast(n: nat, m: nat, window: nat): Mark {
    if m > 0 then Mark(window + 1, 1, window + 1, m) else if n > 0 then Mark(window, 0, 0, n + 1) else Mark(0, 0, 0, 1)
  }

  // The last mark of a burst, and how many of its marks satisfy p.
  ghost predicate Ends(ts: seq<Time>, last: Mark, count: nat, window: nat, p: Mark -> bool) {
    var ms := Marks(ts, window);
    ts != [] && ms[|ts| - 1] == last && Count(ms, p) == count
  }

  lemma BurstGrows(ts: seq<Time>, t: Time, last: Mark, count: nat, window: nat, p: Mark -> bool)
    requires Ends(ts, last, count, window, p) && p(Next(last, t, window))
    ensures Ends(ts + [t], Next(last, t, window), count + 1, window, p)
  {
    MarksSnoc(ts, t, window);
    CountSnoc(Marks(ts, window), Next(last, t, window), p);
  }

  lemma BurstBegins(window: nat, maxReq: nat)
    ensures Ends([0], Mark(0, 0, 0, 1), 0, window, InWindow(1, window, maxReq))
  {
    assert [0][..0] == [];
    assert Marks([0], window) == [] + [Mark(0, 0, 0, 1)];
    CountSnoc([], Mark(0, 0, 0, 1), InWindow(1, window, maxReq));
  }

  lemma FirstWindowGrows(n: nat, window: nat, maxReq: nat)
    requires window >= 1 && 0 < n < maxReq
    requires Ends(Burst(n - 1, 0, window), BurstLast(n - 1, 0, window), n - 1, window, InWindow(1, window, maxReq))
    ensures Ends(Burst(n, 0, window), BurstLast(n, 0, window), n, window, InWindow(1, window, maxReq))
  {
    BurstGrows(Burst(n - 1, 0, window), window, BurstLast(n - 1, 0, window), n - 1, window, InWindow(1, window, maxReq));
  }

  lemma SecondWindowGrows(n: nat, m: nat, window: nat, maxReq: nat)
    requires window >= 1 && n < maxReq && 0 < m <= maxReq
    requires Ends(Burst(n, m - 1, window), BurstLast(n, m - 1, window), n + m - 1, window, InWindow(1, window, maxReq))
    ensures Ends(Burst(n, m, window), BurstLast(n, m, window), n + m, window, InWindow(1, window, maxReq))
  {
    BurstGrows(Burst(n, m - 1, window), window + 1, BurstLast(n, m - 1, window), n + m - 1, window,
               InWindow(1, window, maxReq));
  }

  // The requests at the end of the first window, and those just after it.
  lemma {:induction false} BurstMarks(n: nat, m: nat, window: nat, maxReq: nat)
    requires window >= 1 && n < maxReq && m <= maxReq
    ensures Ends(Burst(n, m, window), BurstLast(n, m, window), n + m, window, InWindow(1, window, maxReq))
    decreases m, n
  {
    if m > 0 {
      BurstMarks(n, m - 1, window, maxReq);
      SecondWindowGrows(n, m, window, maxReq);
    } else if n > 0 {
      BurstMarks(n - 1, 0, window, maxReq);
      FirstWindowGrows(n, window, maxReq);
    } else {
      BurstBegins(window, maxReq);
    }
  }

  // ---------------------------------------------------------------- whole histories

  // How many requests of an address a history admits in the closed interval from lo to lo + window.
  function AdmittedIn(es: seq<Event>, ip: Ip, lo: Time, maxReq: int, window: nat): nat {
    if es == [] then 0
    else
      var n := |es| - 1;
      var e := es[n];
      AdmittedIn(es[..n], ip, lo, maxReq, window)
      + if e.Request? && e.ip == ip && lo <= e.now <= lo + window && Admitted(es, n, maxReq, window) then 1 else 0
  }

  function AtLeastZero(n: int): nat { if n < 0 then 0 else n }

  predicate NoneAfter(ts: seq<Time>, now: Time) {
    forall k :: 0 <= k < |ts| ==> ts[k] <= now
  }

  lemma {:induction false} TimesAreSorted(es: seq<Event>, ip: Ip)
    requires Monotone(es)
    ensures Sorted(Times(es, ip))
    ensures es != [] ==> NoneAfter(Times(es, ip), es[|es| - 1].now)
  {
    if es != [] {
      TimesAreSorted(es[..|es| - 1], ip);
    }
  }

  lemma {:induction false} AdmittedInIsCount(es: seq<Event>, ip: Ip, lo: Time, maxReq: int, window: nat)
    requires Monotone(es)
    ensures Sorted(Times(es, ip))
    ensures AdmittedIn(es, ip, lo, maxReq, window)
            == Count(Marks(Times(es, ip), window), InWindow(lo, window, AtLeastZero(maxReq)))
  {
    TimesAreSorted(es, ip);
    if es != [] {
      var n := |es| - 1;
      AdmittedInIsCount(es[..n], ip, lo, maxReq, window);
      if es[n].Request? && es[n].ip == ip {
        LastMark(es, ip, lo, maxReq, window);
      } else {
        assert Times(es, ip) == Times(es[..n], ip);
      }
    }
  }

  lemma LastMark(es: seq<Event>, ip: Ip, lo: Time, maxReq: int, window: nat)
    requires es != [] && Monotone(es) && Sorted(Times(es, ip))
    requires es[|es| - 1].Request? && es[|es| - 1].ip == ip
    ensures var n := |es| - 1;
            var ms, us := Marks(Times(es, ip), window), Marks(Times(es[..n], ip), window);
            && |ms| == |us| + 1 && ms[..|us|] == us && ms[|us|].time == es[n].now
            && (Admitted(es, n, maxReq, window) <==> ms[|us|].place <= AtLeastZero(maxReq))
  {
    var n := |es| - 1;
    var us, ts := Times(es[..n], ip), Times(es, ip);
    assert ts == us + [es[n].now];
    assert ts[..|us|] == us;
    DecisionsAreOwn(es, n, maxReq, window);
    OwnSnoc(us, es[n].now, window);
    MarksFollowTheBucket(ts, window);
    MarksAreOrdered(ts, window);
    assert MarkOk(Marks(ts, window)[|us|], ts[|us|], window);
  }

  // Over any history of requests and clean-ups with a clock that does not run backwards: at most
  // 2 * maxReq - 1 requests of an address are admitted in any closed interval of length window.
  lemma AdmissionBound(es: seq<Event>, ip: Ip, lo: Time, maxReq: int, window: nat)
    requires Monotone(es)
    ensures AdmittedIn(es, ip, lo, maxReq, window) <= (if maxReq <= 0 then 0 else 2 * maxReq - 1)
  {
    AdmittedInIsCount(es, ip, lo, maxReq, window);
    WindowBound(Times(es, ip), window, lo, AtLeastZero(maxReq));
  }

  function RequestsAt(ip: Ip, ts: seq<Time>): seq<Event> {
    seq(|ts|, k requires 0 <= k < |ts| => Request(ip, ts[k]))
  }

  lemma {:induction false} TimesOfRequestsAt(ip: Ip, ts: seq<Time>)
    ensures Times(RequestsAt(ip, ts), ip) == ts
  {
    if ts != [] {
      var n := |ts| - 1;
      assert RequestsAt(ip, ts)[..n] == RequestsAt(ip, ts[..n]);
      TimesOfRequestsAt(ip, ts[..n]);
    }
  }

  lemma RequestsAtAreMonotone(ip: Ip, ts: seq<Time>)
    requires Sorted(ts)
    ensures Monotone(RequestsAt(ip, ts))
  {
  }

  // The bound is attained, for every limit and every window.
  lemma AdmissionBoundIsTight(ip: Ip, window: nat, maxReq: nat)
    requires window >= 1 && maxReq >= 1
    ensures var es := RequestsAt(ip, Burst(maxReq - 1, maxReq, window));
            Monotone(es) && AdmittedIn(es, ip, 1, maxReq, window) == 2 * maxReq - 1
  {
    var ts := Burst(maxReq - 1, maxReq, window);
    BurstShape(maxReq - 1, maxReq, window);
    BurstMarks(maxReq - 1, maxReq, window, maxReq);
    TimesOfRequestsAt(ip, ts);
    RequestsAtAreMonotone(ip, ts);
    AdmittedInIsCount(RequestsAt(ip, ts), ip, 1, maxReq, window);
  }

  // ---------------------------------------------------------------- the class

  class RateLimiter {
    const maxReq: int
    const window: nat
    var buckets: Buckets

    constructor (maxReq: int, window: nat)
      ensures this.maxReq == maxReq && this.window == window && buckets == After([], window)
    {
      this.maxReq := maxReq;
      this.window := window;
      buckets := map[];
    }

    method Handle(ip: Ip, now: Time) returns (admitted: bool)
      modifies this
      ensures buckets == Exec(old(buckets), Request(ip, now), window)
      ensures admitted == Admits(Hit(Lookup(old(buckets), ip), now, window), maxReq)
      ensures buckets == old(buckets)[ip :=
                if ip in old(buckets) && now <= old(buckets)[ip].resetAt
                then Bucket(old(buckets)[ip].count + 1, old(buckets)[ip].resetAt)
                else Bucket(1, now + window)]
      ensures admitted <==> buckets[ip].count <= maxReq
    {
      if ip !in buckets || now > buckets[ip].resetAt {
        buckets := buckets[ip := Bucket(0, now + window)];
      }
      buckets := buckets[ip := buckets[ip].(count := buckets[ip].count + 1)];
      admitted := buckets[ip].count <= maxReq;
    }

    method Purge(now: Time)
      modifies this
      ensures buckets == Exec(old(buckets), Cleanup(now), window)
      ensures forall ip :: ip in buckets <==> ip in old(buckets) && now <= old(buckets)[ip].resetAt
      ensures forall ip :: ip in buckets ==> buckets[ip] == old(buckets)[ip]
    {
      var todo := buckets.Keys;
      while todo != {}
        invariant todo <= old(buckets).Keys
        invariant buckets == map ip | ip in old(buckets) && (ip in todo || now <= old(buckets)[ip].resetAt) :: old(buckets)[ip]
        decreases |todo|
      {
        var ip :| ip in todo;
        todo := todo - {ip};
        if now > buckets[ip].resetAt {
          buckets := buckets - {ip};
        }
      }
    }
  }
}
