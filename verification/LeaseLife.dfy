/**
 How long a lease lives: its expiry is what the last accepted beat, or its claim, set, and
 until then nobody but its owner or an operator ends it.
 */
module LeaseLife {
  import opened Options
  import opened Lifecycle
  import opened Tables
  import opened Reuse
  import opened Events
  import opened PlaneInvariant
  import opened Changes
  import opened PlaneSteps
  import opened PlaneTheorems
  import opened Sweep

  // ----- what an accepted beat writes -----

  /** What a beat at `now` leaves behind: the lease runs until `until` on lease and run alike,
      run and order are running since the first beat, its reservation is spent, and every
      other row is as it was. */
  ghost predicate BeatRecorded(p: Plane, q: Plane, r: nat, w: string, now: int, until: int) {
    && r in p.leases && r < |p.runs| && |q.runs| == |p.runs| && |q.orders| == |p.orders|
    && var o := p.leases[r].order;
    && o < |p.orders|
    // the lease, and its copy on the run
    && q.leases == p.leases[r := Lease(o, w, until)]
    && q.runs[r].leaseExpiresAt == until
    // the first beat starts the run and its order; later ones leave the start alone
    && q.runs[r].status == RunRunning && q.orders[o].status == Running
    && q.runs[r].startedAt == (if p.runs[r].startedAt.None? then Some(now) else p.runs[r].startedAt)
    && q.orders[o].startedAt == (if p.runs[r].startedAt.None? then Some(now) else p.orders[o].startedAt)
    // a reservation is spent
    && q.runs[r].quotaState == (if p.runs[r].route.reserved > 0 then Consumed else NotRequired)
    && q.orders[o].quotaState == Some(q.runs[r].quotaState)
    && q.profiles == p.profiles && q.workers == p.workers && q.ledger == p.ledger
    // nothing else
    && q.runs[r] == p.runs[r].(leaseExpiresAt := q.runs[r].leaseExpiresAt, status := q.runs[r].status,
                               startedAt := q.runs[r].startedAt, quotaState := q.runs[r].quotaState)
    && q.orders[o] == p.orders[o].(status := q.orders[o].status, startedAt := q.orders[o].startedAt,
                                   quotaState := q.orders[o].quotaState)
    && (forall k :: 0 <= k < |p.runs| && k != r ==> q.runs[k] == p.runs[k])
    && (forall k :: 0 <= k < |p.orders| && k != o ==> q.orders[k] == p.orders[k])
  }

  lemma BeatIsRecorded(p: Plane, r: nat, w: string, now: int, until: int)
    requires Inv(p) && Leased(p, r) && OwnsLive(p, r, w, now)
    ensures BeatRecorded(p, RunBeaten(p, r, now, until), r, w, now, until)
  {
    ActiveRows(p, r);
    assert LeaseOk(p.orders, p.runs, p.leases, r) && RunOk(p, r);
  }

  // ----- one event and one lease -----

  /** What may end a lease: its owner reporting an outcome, an operator cancelling the order,
      or expiry after its time. */
  predicate MayEnd(p: Plane, e: Event, r: nat)
    requires r in p.leases
  {
    || (e.Complete? && e.run == r && e.worker == p.leases[r].worker)
    || (e.Cancel? && e.order == p.leases[r].order)
    || (e.Lapse? && e.run == r && p.leases[r].expiresAt < e.now)
  }

  /** The lease after an event that does not end it. */
  predicate KeptBy(p: Plane, q: Plane, e: Event, r: nat)
    requires r in p.leases
  {
    && r in q.leases && q.leases[r].order == p.leases[r].order && q.leases[r].worker == p.leases[r].worker
    && q.leases[r].expiresAt == if AcceptedBeat(p, e, r) then e.expiresAt else p.leases[r].expiresAt
  }

  /** Among the changes, only a beat touches a lease, and only closing it removes it. */
  lemma ChangeKeepsLease(hash: Identity -> string, p: Plane, c: Change, r: nat)
    requires Legal(hash, p, c) && r in p.leases && r < |p.runs|
    requires !((c.Finishing? || c.Lapsing?) && c.run == r)
    ensures var q := Perform(hash, p, c);
            && r in q.leases
            && q.leases[r] == if c.Beating? && c.run == r then p.leases[r].(expiresAt := c.expiresAt) else p.leases[r]
  {
  }

  lemma EventKeepsLease(hash: Identity -> string, p: Plane, e: Event, r: nat)
    requires Inv(p) && r in p.leases && !MayEnd(p, e, r)
    ensures KeptBy(p, Apply(hash, p, e), e, r)
  {
    var c := EventDoes(hash, p, e);
    ClosableIff(p, r);
    ChangeKeepsLease(hash, p, c, r);
  }

  // ----- whole runs -----

  /** As long as the lease is there, no event is one that may end it. */
  ghost predicate LeftAlone(hash: Identity -> string, p: Plane, es: seq<Event>, r: nat)
    decreases |es|
  {
    es == [] || (r in p.leases ==> !MayEnd(p, es[0], r) && LeftAlone(hash, Apply(hash, p, es[0]), es[1..], r))
  }

  /** In every plane of the run the lease is held by `w` for order `o`, and the run is active. */
  ghost predicate HeldThroughout(hash: Identity -> string, p: Plane, es: seq<Event>, r: nat, w: string, o: nat)
    decreases |es|
  {
    && r in p.leases && p.leases[r].worker == w && p.leases[r].order == o
    && r < |p.runs| && ActiveRun(p.runs[r].status)
    && (es == [] || HeldThroughout(hash, Apply(hash, p, es[0]), es[1..], r, w, o))
  }

  /** Nobody else can end a lease: unless its owner reports an outcome, an operator cancels
      the order, or it is expired after its time, beats counting, it is held throughout. */
  lemma {:induction false} LeaseIsExclusive(hash: Identity -> string, p: Plane, es: seq<Event>, r: nat)
    requires Inv(p) && r in p.leases && LeftAlone(hash, p, es, r)
    ensures HeldThroughout(hash, p, es, r, p.leases[r].worker, p.leases[r].order)
    decreases |es|
  {
    ActiveRows(p, r);
    if es != [] {
      EventKeepsLease(hash, p, es[0], r);
      EventKeepsInv(hash, p, es[0]);
      LeaseIsExclusive(hash, Apply(hash, p, es[0]), es[1..], r);
    }
  }

  /** No event of the run is one that ends the lease before instant `until`, and beats do not
      bring its expiry forward. */
  predicate Spares(e: Event, r: nat, w: string, o: nat, until: int) {
    && !(e.Complete? && e.run == r && e.worker == w)
    && !(e.Cancel? && e.order == o)
    && !(e.Lapse? && e.run == r && until < e.now)
    && (e.RunBeat? && e.run == r && e.worker == w ==> until <= e.expiresAt)
  }

  lemma {:induction false} LeaseRunsUntil(hash: Identity -> string, p: Plane, es: seq<Event>, r: nat, until: int)
    requires Inv(p) && r in p.leases && until <= p.leases[r].expiresAt
    requires forall k :: 0 <= k < |es| ==> Spares(es[k], r, p.leases[r].worker, p.leases[r].order, until)
    ensures var z := Trace(hash, p, es);
            && Inv(z) && r in z.leases && until <= z.leases[r].expiresAt
            && z.leases[r].worker == p.leases[r].worker && z.leases[r].order == p.leases[r].order
    decreases |es|
  {
    if es != [] {
      EventKeepsLease(hash, p, es[0], r);
      EventKeepsInv(hash, p, es[0]);
      LeaseRunsUntil(hash, Apply(hash, p, es[0]), es[1..], r, until);
    }
  }

  /** A lease is live for its owner or stale, never both and never neither. */
  lemma LiveOrStale(p: Plane, r: nat, now: int)
    requires r in p.leases
    ensures OwnsLive(p, r, p.leases[r].worker, now) <==> !Stale(p, r, now)
  {
  }

  /** A beat renews: from a beat accepted at any time on, through every run of operations that
      spares the lease, it is held by its owner and neither stale nor swept at any instant up
      to the one the beat set. */
  lemma BeatRenews(
    hash: Identity -> string, p: Plane, r: nat, w: string, at: int, until: int, es: seq<Event>, now: int)
    requires Inv(p) && OwnsLive(p, r, w, at) && now <= until
    requires forall k :: 0 <= k < |es| ==> Spares(es[k], r, w, p.leases[r].order, until)
    ensures var z := Trace(hash, Apply(hash, p, RunBeat(r, w, at, until)), es);
            && OwnsLive(z, r, w, now) && !Stale(z, r, now)
            && r < |z.runs| && ActiveRun(z.runs[r].status) && z.runs[r].leaseExpiresAt == z.leases[r].expiresAt
            && (Swept(z, 0, now).Some? ==>
                  r in Swept(z, 0, now).value.leases && Swept(z, 0, now).value.leases[r] == z.leases[r])
  {
    var q := Apply(hash, p, RunBeat(r, w, at, until));
    EventKeepsLease(hash, p, RunBeat(r, w, at, until), r);
    EventKeepsInv(hash, p, RunBeat(r, w, at, until));
    LeaseRunsUntil(hash, q, es, r, until);
    var z := Trace(hash, q, es);
    ActiveRows(z, r);
    assert LeaseOk(z.orders, z.runs, z.leases, r);
    if Swept(z, 0, now).Some? {
      SweepIsExact(z, 0, now);
      assert !StaleFrom(z, 0, r, now);
    }
  }

  // ----- where an expiry comes from -----

  /** The expiry that the last claim or accepted beat of run `r` set, or `before` if the run
      contains none. */
  ghost function LastExpiry(hash: Identity -> string, p: Plane, es: seq<Event>, r: nat, before: int): int
    decreases |es|
  {
    if es == [] then before
    else
      var e := es[0];
      var claims := e.Claim? && r == |p.runs| && CanClaim(p, e.worker, e.order, e.seen);
      LastExpiry(hash, Apply(hash, p, e), es[1..], r,
                 if claims || AcceptedBeat(p, e, r) then e.expiresAt else before)
  }

  lemma ChangeLeases(hash: Identity -> string, p: Plane, c: Change, r: nat)
    requires Legal(hash, p, c) && r !in p.leases && r in Perform(hash, p, c).leases
    ensures c.Claiming? && r == |p.runs| && Perform(hash, p, c).leases[r].expiresAt == c.expiresAt
  {
  }

  lemma EventSetsExpiry(hash: Identity -> string, p: Plane, e: Event, r: nat, before: int)
    requires Inv(p) && (r in p.leases ==> p.leases[r].expiresAt == before)
    requires r in Apply(hash, p, e).leases
    ensures var claims := e.Claim? && r == |p.runs| && CanClaim(p, e.worker, e.order, e.seen);
            Apply(hash, p, e).leases[r].expiresAt
            == if claims || AcceptedBeat(p, e, r) then e.expiresAt else before
  {
    var c := EventDoes(hash, p, e);
    if r in p.leases {
      ClosableIff(p, r);
      ChangeEnds(hash, p, c, r);
      ChangeKeepsLease(hash, p, c, r);
    } else {
      ChangeLeases(hash, p, c, r);
    }
  }

  lemma ChangeEnds(hash: Identity -> string, p: Plane, c: Change, r: nat)
    requires Legal(hash, p, c) && r in Perform(hash, p, c).leases
    ensures !((c.Finishing? || c.Lapsing?) && c.run == r)
  {
  }

  lemma {:induction false} TraceSetsExpiry(hash: Identity -> string, p: Plane, es: seq<Event>, r: nat, before: int)
    requires Inv(p) && (r in p.leases ==> p.leases[r].expiresAt == before)
    requires r in Trace(hash, p, es).leases
    ensures Trace(hash, p, es).leases[r].expiresAt == LastExpiry(hash, p, es, r, before)
    decreases |es|
  {
    if es != [] {
      var q := Apply(hash, p, es[0]);
      var claims := es[0].Claim? && r == |p.runs| && CanClaim(p, es[0].worker, es[0].order, es[0].seen);
      var next := if claims || AcceptedBeat(p, es[0], r) then es[0].expiresAt else before;
      if r in q.leases {
        EventSetsExpiry(hash, p, es[0], r, before);
      }
      EventKeepsInv(hash, p, es[0]);
      TraceSetsExpiry(hash, q, es[1..], r, next);
    }
  }

  /** After any run of operations from empty tables, a lease expires exactly when its last
      accepted beat, or else its claim, said, and its run says the same. */
  lemma ExpiryIsLastBeats(hash: Identity -> string, es: seq<Event>, r: nat)
    requires r in Trace(hash, EMPTY_PLANE, es).leases
    ensures var z := Trace(hash, EMPTY_PLANE, es);
            && z.leases[r].expiresAt == LastExpiry(hash, EMPTY_PLANE, es, r, 0)
            && r < |z.runs| && z.runs[r].leaseExpiresAt == LastExpiry(hash, EMPTY_PLANE, es, r, 0)
  {
    var z := Trace(hash, EMPTY_PLANE, es);
    EmptyPlaneOk();
    TraceSetsExpiry(hash, EMPTY_PLANE, es, r, 0);
    EveryRunKeepsInv(hash, es);
    assert LeaseOk(z.orders, z.runs, z.leases, r);
  }
}
