/**
 Expiring every stale lease of the plane in one transaction.
 */
module Sweep {
  import opened Options
  import opened Lifecycle
  import opened Tables
  import opened Events
  import opened PlaneInvariant
  import opened PlaneSteps
  import opened PlaneTheorems

  predicate Stale(p: Plane, r: nat, now: int) {
    r in p.leases && p.leases[r].expiresAt < now
  }

  /** The plane once every stale lease from run `i` on has lapsed, in key order; `None` if
      one of them cannot be closed, which aborts the whole transaction. */
  function Swept(p: Plane, i: nat, now: int): Option<Plane>
    decreases |p.runs| - i
  {
    if i >= |p.runs| then Some(p)
    else if !Stale(p, i, now) then Swept(p, i + 1, now)
    else if CanLapse(p, i, now) then Swept(Lapsed(p, i, now), i + 1, now)
    else None
  }

  /** Stale leases of `w` from run `i` on that still hold a reservation. */
  function StaleReservations(p: Plane, i: nat, now: int, w: string): nat
    decreases |p.runs| - i
  {
    if i >= |p.runs| then 0
    else (if Stale(p, i, now) && p.leases[i].worker == w && p.runs[i].quotaState == Reserved then 1 else 0)
         + StaleReservations(p, i + 1, now, w)
  }

  /** Every one of them can bump its profile's revision once. */
  ghost predicate SweepFits(p: Plane, i: nat, now: int) {
    forall w :: w in p.profiles ==> p.profiles[w].revision + StaleReservations(p, i, now, w) <= MAX_ROUTING_INTEGER
  }

  lemma {:induction false} StaleReservationsAgree(p: Plane, q: Plane, i: nat, now: int, w: string)
    requires SameFrom(p, q, i)
    ensures StaleReservations(q, i, now, w) == StaleReservations(p, i, now, w)
    decreases |p.runs| - i
  {
    if i < |p.runs| {
      StaleReservationsAgree(p, q, i + 1, now, w);
    }
  }

  /** Rows from `i` on are the same in both planes. */
  ghost predicate SameFrom(p: Plane, q: Plane, i: nat) {
    && |q.runs| == |p.runs|
    && (forall k :: i <= k < |p.runs| ==> q.runs[k] == p.runs[k])
    && (forall k :: i <= k ==> (k in p.leases <==> k in q.leases) && (k in p.leases ==> p.leases[k] == q.leases[k]))
  }

  /** A lapse returns at most one reservation and then no longer counts as one. */
  lemma LapseTrades(p: Plane, i: nat, now: int, w: string)
    requires i < |p.runs| && CanLapse(p, i, now) && w in p.profiles
    requires p.runs[i].quotaState == Reserved ==> p.runs[i].route.reserved > 0
    ensures var q := Lapsed(p, i, now);
            w in q.profiles
            && p.profiles[w].revision + StaleReservations(p, i, now, w)
               == q.profiles[w].revision + StaleReservations(q, i + 1, now, w)
  {
    var q := Lapsed(p, i, now);
    assert SameFrom(p, q, i + 1);
    StaleReservationsAgree(p, q, i + 1, now, w);
  }

  lemma LapseFits(p: Plane, i: nat, now: int)
    requires i < |p.runs| && CanLapse(p, i, now)
    requires p.runs[i].quotaState == Reserved ==> p.runs[i].route.reserved > 0
    ensures SweepFits(p, i, now) <==> SweepFits(Lapsed(p, i, now), i + 1, now)
  {
    var q := Lapsed(p, i, now);
    assert q.profiles.Keys == p.profiles.Keys;
    forall w | w in p.profiles
      ensures w in q.profiles
      ensures p.profiles[w].revision + StaleReservations(p, i, now, w)
              == q.profiles[w].revision + StaleReservations(q, i + 1, now, w)
    {
      LapseTrades(p, i, now, w);
    }
  }

  lemma LapseKeepsInv(p: Plane, i: nat, now: int)
    requires Inv(p) && CanLapse(p, i, now)
    ensures Inv(Lapsed(p, i, now)) && i < |p.runs| && |Lapsed(p, i, now).runs| == |p.runs|
    ensures p.runs[i].quotaState == Reserved ==> p.runs[i].route.reserved > 0
  {
    ActiveRows(p, i);
    CloseStep(p, i, LapseClosing(p.runs[i]), now);
  }

  lemma StuckDoesNotFit(p: Plane, i: nat, now: int)
    requires Inv(p) && Stale(p, i, now) && i < |p.runs| && !CanLapse(p, i, now)
    ensures !SweepFits(p, i, now)
  {
    ClosableIff(p, i);
    assert StaleReservations(p, i, now, p.leases[i].worker) >= 1 by {
      ActiveRows(p, i);
    }
  }

  lemma EndFits(p: Plane, i: nat, now: int)
    requires Inv(p) && i >= |p.runs|
    ensures SweepFits(p, i, now)
  {
    forall w | w in p.profiles
      ensures p.profiles[w].revision <= MAX_ROUTING_INTEGER
    {
      assert AccountOk(p.runs, w, p.profiles[w], p.ledger[w]);
    }
  }

  lemma SkipFits(p: Plane, i: nat, now: int)
    requires i < |p.runs| && !Stale(p, i, now)
    ensures SweepFits(p, i, now) <==> SweepFits(p, i + 1, now)
  {
    assert forall w :: w in p.profiles ==> StaleReservations(p, i, now, w) == StaleReservations(p, i + 1, now, w);
  }

  /** The transaction succeeds exactly if, for every profile, its revision plus its stale
      reservations does not exceed the ceiling. */
  lemma {:induction false} SweepSucceedsIff(p: Plane, i: nat, now: int)
    requires Inv(p)
    ensures Swept(p, i, now).Some? <==> SweepFits(p, i, now)
    decreases |p.runs| - i
  {
    if i >= |p.runs| {
      EndFits(p, i, now);
    } else if !Stale(p, i, now) {
      SkipFits(p, i, now);
      SweepSucceedsIff(p, i + 1, now);
    } else if CanLapse(p, i, now) {
      LapseKeepsInv(p, i, now);
      LapseFits(p, i, now);
      SweepSucceedsIff(Lapsed(p, i, now), i + 1, now);
    } else {
      StuckDoesNotFit(p, i, now);
    }
  }

  /** The lapse events a sweep amounts to. */
  function LapsesFrom(p: Plane, i: nat, now: int): seq<Event>
    decreases |p.runs| - i
  {
    if i >= |p.runs| then []
    else if !Stale(p, i, now) then LapsesFrom(p, i + 1, now)
    else if CanLapse(p, i, now) then [Lapse(i, now)] + LapsesFrom(Lapsed(p, i, now), i + 1, now)
    else []
  }

  lemma LapseApplies(hash: Identity -> string, p: Plane, r: nat, now: int)
    requires CanLapse(p, r, now)
    ensures Apply(hash, p, Lapse(r, now)) == Lapsed(p, r, now)
  {
  }

  lemma {:induction false} SweepIsTrace(hash: Identity -> string, p: Plane, i: nat, now: int)
    requires Swept(p, i, now).Some?
    ensures Swept(p, i, now).value == Trace(hash, p, LapsesFrom(p, i, now))
    decreases |p.runs| - i
  {
    if i < |p.runs| {
      if !Stale(p, i, now) {
        SweepIsTrace(hash, p, i + 1, now);
      } else {
        var es := LapsesFrom(p, i, now);
        LapseApplies(hash, p, i, now);
        SweepIsTrace(hash, Lapsed(p, i, now), i + 1, now);
        assert es[0] == Lapse(i, now) && es[1..] == LapsesFrom(Lapsed(p, i, now), i + 1, now);
      }
    }
  }

  // ----- what a sweep changes -----

  predicate StaleFrom(p: Plane, i: nat, r: nat, now: int) {
    i <= r && Stale(p, r, now)
  }

  /** A run whose lease expired: timed out, its unspent reservation released. */
  function ExpiredRun(run: Run, now: int): Run {
    run.(status := RunTimedOut, finishedAt := Some(now), artifacts := [], evidence := None,
         quotaState := if run.quotaState == Reserved then Released else run.quotaState)
  }

  /** Its order: back in the queue, otherwise as it was. */
  function RequeuedOrder(order: WorkOrder, run: Run, now: int): WorkOrder {
    order.(status := Queued, queuedAt := Some(now),
           quotaState := if run.quotaState == Reserved then Some(Released) else order.quotaState)
  }

  ghost predicate LeasesSwept(p: Plane, q: Plane, i: nat, now: int) {
    && (forall r: nat :: r in q.leases <==> r in p.leases && !StaleFrom(p, i, r, now))
    && (forall r: nat :: r in q.leases && r in p.leases ==> q.leases[r] == p.leases[r])
  }

  ghost predicate RunsSwept(p: Plane, q: Plane, i: nat, now: int) {
    && |q.runs| == |p.runs|
    && (forall r: nat :: r < |p.runs| && !StaleFrom(p, i, r, now) ==> q.runs[r] == p.runs[r])
    && (forall r: nat :: r < |p.runs| && StaleFrom(p, i, r, now) ==> q.runs[r] == ExpiredRun(p.runs[r], now))
  }

  ghost predicate OrdersSwept(p: Plane, q: Plane, i: nat, now: int) {
    && |q.orders| == |p.orders|
    && (forall o: nat :: o < |p.orders| && q.orders[o] != p.orders[o] ==>
          exists r: nat :: StaleFrom(p, i, r, now) && p.leases[r].order == o)
    && (forall r: nat :: StaleFrom(p, i, r, now) && r < |p.runs| && p.leases[r].order < |p.orders| ==>
          q.orders[p.leases[r].order] == RequeuedOrder(p.orders[p.leases[r].order], p.runs[r], now))
  }

  /** Stale leases of `w` from run `i` on. */
  function StaleLeases(p: Plane, i: nat, now: int, w: string): nat
    decreases |p.runs| - i
  {
    if i >= |p.runs| then 0
    else (if Stale(p, i, now) && p.leases[i].worker == w then 1 else 0) + StaleLeases(p, i + 1, now, w)
  }

  /** Quota units still reserved under them. */
  function StaleUnits(p: Plane, i: nat, now: int, w: string): nat
    decreases |p.runs| - i
  {
    if i >= |p.runs| then 0
    else (if Stale(p, i, now) && p.leases[i].worker == w && p.runs[i].quotaState == Reserved
          then p.runs[i].route.reserved else 0)
         + StaleUnits(p, i + 1, now, w)
  }

  lemma {:induction false} StaleCountsAgree(p: Plane, q: Plane, i: nat, now: int, w: string)
    requires SameFrom(p, q, i)
    ensures StaleLeases(q, i, now, w) == StaleLeases(p, i, now, w)
    ensures StaleUnits(q, i, now, w) == StaleUnits(p, i, now, w)
    decreases |p.runs| - i
  {
    if i < |p.runs| {
      StaleCountsAgree(p, q, i + 1, now, w);
    }
  }

  /** `n` slots of a worker are freed; a draining or offline worker stays so. */
  predicate SlotsFreed(a: Worker, b: Worker, n: nat) {
    && b.active + n == a.active
    && b == a.(active := b.active, status := b.status)
    && (n == 0 ==> b == a)
    && (n > 0 ==> b.status == if a.status in {Draining, Offline} then a.status
                              else if b.active >= b.maxConcurrency then Busy else Online)
  }

  /** Each worker gets back exactly the slots of its stale leases. */
  ghost predicate WorkersSwept(p: Plane, q: Plane, i: nat, now: int) {
    && q.workers.Keys == p.workers.Keys
    && (forall w :: w in p.workers ==> SlotsFreed(p.workers[w], q.workers[w], StaleLeases(p, i, now, w)))
  }

  /** The refund of `units` in `n` releases. */
  predicate QuotaReturned(a: Profile, b: Profile, units: nat, n: nat) {
    b == a.(remaining := a.remaining + units, revision := a.revision + n)
  }

  /** Each profile gets back exactly the units reserved under stale leases, one revision per
      release. */
  ghost predicate ProfilesSwept(p: Plane, q: Plane, i: nat, now: int) {
    && q.profiles.Keys == p.profiles.Keys
    && (forall w :: w in p.profiles ==>
          QuotaReturned(p.profiles[w], q.profiles[w], StaleUnits(p, i, now, w), StaleReservations(p, i, now, w)))
  }

  lemma LapseSweepsWorkers(p: Plane, q: Plane, i: nat, now: int)
    requires CanLapse(p, i, now) && WorkersSwept(Lapsed(p, i, now), q, i + 1, now)
    ensures WorkersSwept(p, q, i, now)
  {
    var mid := Lapsed(p, i, now);
    assert SameFrom(p, mid, i + 1);
    forall w | w in p.workers
      ensures SlotsFreed(p.workers[w], q.workers[w], StaleLeases(p, i, now, w))
    {
      assert w in mid.workers;
      StaleCountsAgree(p, mid, i + 1, now, w);
      assert SlotsFreed(mid.workers[w], q.workers[w], StaleLeases(p, i + 1, now, w));
    }
  }

  lemma LapseSweepsProfiles(p: Plane, q: Plane, i: nat, now: int)
    requires CanLapse(p, i, now) && ProfilesSwept(Lapsed(p, i, now), q, i + 1, now)
    requires p.runs[i].quotaState == Reserved ==> p.runs[i].route.reserved > 0
    ensures ProfilesSwept(p, q, i, now)
  {
    var mid := Lapsed(p, i, now);
    assert SameFrom(p, mid, i + 1);
    forall w | w in p.profiles
      ensures w in q.profiles
      ensures QuotaReturned(p.profiles[w], q.profiles[w], StaleUnits(p, i, now, w), StaleReservations(p, i, now, w))
    {
      assert w in mid.profiles;
      StaleCountsAgree(p, mid, i + 1, now, w);
      StaleReservationsAgree(p, mid, i + 1, now, w);
    }
  }

  lemma LapseSweepsLeases(p: Plane, q: Plane, i: nat, now: int)
    requires CanLapse(p, i, now) && LeasesSwept(Lapsed(p, i, now), q, i + 1, now)
    ensures LeasesSwept(p, q, i, now)
  {
    var mid := Lapsed(p, i, now);
    forall r: nat | r in p.leases
      ensures r in q.leases <==> !StaleFrom(p, i, r, now)
    {
      assert r in mid.leases <==> r != i;
    }
  }

  lemma LapseSweepsRuns(p: Plane, q: Plane, i: nat, now: int)
    requires CanLapse(p, i, now) && RunsSwept(Lapsed(p, i, now), q, i + 1, now)
    ensures RunsSwept(p, q, i, now)
  {
    var mid := Lapsed(p, i, now);
    forall r: nat | r < |p.runs|
      ensures StaleFrom(p, i, r, now) <==> r == i || StaleFrom(mid, i + 1, r, now)
    {
      assert r in mid.leases <==> r in p.leases && r != i;
    }
    assert !StaleFrom(mid, i + 1, i, now);
    assert q.runs[i] == mid.runs[i];
  }

  lemma LapseSweepsOrders(p: Plane, q: Plane, i: nat, now: int)
    requires CanLapse(p, i, now) && OneLeasePerOrder(p.leases) && OrdersSwept(Lapsed(p, i, now), q, i + 1, now)
    ensures OrdersSwept(p, q, i, now)
  {
    var mid, oi := Lapsed(p, i, now), p.leases[i].order;
    assert StaleFrom(p, i, i, now) && mid.orders[oi] == RequeuedOrder(p.orders[oi], p.runs[i], now);
    forall r: nat | StaleFrom(mid, i + 1, r, now)
      ensures StaleFrom(p, i, r, now) && mid.leases[r] == p.leases[r] && p.leases[r].order != oi
    {
    }
    assert q.orders[oi] == mid.orders[oi];
    forall r: nat | StaleFrom(p, i, r, now) && r != i
      ensures StaleFrom(mid, i + 1, r, now) && mid.leases[r] == p.leases[r]
    {
      assert r in mid.leases;
    }
    assert forall o: nat :: o < |p.orders| && o != oi ==> mid.orders[o] == p.orders[o];
  }

  /** From run `i` on, `q` is `p` without its stale leases. */
  ghost predicate SweptOnly(p: Plane, q: Plane, i: nat, now: int) {
    && LeasesSwept(p, q, i, now)
    && RunsSwept(p, q, i, now)
    && OrdersSwept(p, q, i, now)
    && WorkersSwept(p, q, i, now)
    && ProfilesSwept(p, q, i, now)
    && q.ledger == p.ledger
  }

  lemma SkipSweepsOnly(p: Plane, q: Plane, i: nat, now: int)
    requires i < |p.runs| && !Stale(p, i, now) && SweptOnly(p, q, i + 1, now)
    ensures SweptOnly(p, q, i, now)
  {
    assert forall r: nat :: StaleFrom(p, i, r, now) <==> StaleFrom(p, i + 1, r, now);
    assert forall w :: w in p.workers ==> StaleLeases(p, i, now, w) == StaleLeases(p, i + 1, now, w);
    assert forall w :: w in p.profiles ==> StaleUnits(p, i, now, w) == StaleUnits(p, i + 1, now, w)
                                           && StaleReservations(p, i, now, w) == StaleReservations(p, i + 1, now, w);
  }

  lemma LapseSweepsOnly(p: Plane, q: Plane, i: nat, now: int)
    requires CanLapse(p, i, now) && SweptOnly(Lapsed(p, i, now), q, i + 1, now) && OneLeasePerOrder(p.leases)
    requires p.runs[i].quotaState == Reserved ==> p.runs[i].route.reserved > 0
    ensures SweptOnly(p, q, i, now)
  {
    LapseSweepsLeases(p, q, i, now);
    LapseSweepsRuns(p, q, i, now);
    LapseSweepsOrders(p, q, i, now);
    LapseSweepsWorkers(p, q, i, now);
    LapseSweepsProfiles(p, q, i, now);
  }

  /** A sweep removes exactly the stale leases, times out exactly their runs, requeues
      exactly their orders, frees exactly their slots, returns exactly their unspent quota,
      and touches nothing else. */
  lemma {:induction false} SweepIsExact(p: Plane, i: nat, now: int)
    requires Inv(p) && Swept(p, i, now).Some?
    ensures SweptOnly(p, Swept(p, i, now).value, i, now)
    decreases |p.runs| - i
  {
    var q := Swept(p, i, now).value;
    if i >= |p.runs| {
      NoLeaseBeyond(p, i, now);
    } else if !Stale(p, i, now) {
      SweepIsExact(p, i + 1, now);
      SkipSweepsOnly(p, q, i, now);
    } else {
      LapseKeepsInv(p, i, now);
      SweepIsExact(Lapsed(p, i, now), i + 1, now);
      LapseSweepsOnly(p, q, i, now);
    }
  }

  lemma NoLeaseBeyond(p: Plane, i: nat, now: int)
    requires Inv(p) && i >= |p.runs|
    ensures forall r: nat :: !StaleFrom(p, i, r, now)
  {
    forall r: nat | r in p.leases
      ensures r < i
    {
      ActiveRows(p, r);
    }
  }

  /** The invariant survives a sweep, and nothing is stale afterwards. */
  lemma SweepKeepsInv(hash: Identity -> string, p: Plane, now: int)
    requires Inv(p) && Swept(p, 0, now).Some?
    ensures var q := Swept(p, 0, now).value;
            Inv(q) && (forall r: nat :: !Stale(q, r, now)) && Swept(q, 0, now) == Some(q)
  {
    var q := Swept(p, 0, now).value;
    SweepIsTrace(hash, p, 0, now);
    TraceKeepsInv(hash, p, LapsesFrom(p, 0, now));
    SweepIsExact(p, 0, now);
    forall r: nat
      ensures !Stale(q, r, now)
    {
      if r in q.leases {
        assert r in p.leases && !StaleFrom(p, 0, r, now);
      }
    }
    NothingToSweep(q, 0, now);
  }

  lemma {:induction false} NothingToSweep(p: Plane, i: nat, now: int)
    requires forall r: nat :: !Stale(p, r, now)
    ensures Swept(p, i, now) == Some(p)
    decreases |p.runs| - i
  {
    if i < |p.runs| {
      NothingToSweep(p, i + 1, now);
    }
  }
}
