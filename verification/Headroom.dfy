/**
 Revisions are bounded. A reservation can be returned only while the revision is below the
 ceiling, so what matters is the revision plus the number of unspent reservations.
 */
module Headroom {
  import opened Options
  import opened Lifecycle
  import opened Tables
  import opened Reuse
  import opened Events
  import opened Accounts
  import opened PlaneInvariant
  import opened Changes
  import opened PlaneSteps
  import opened PlaneTheorems

  /** Every unspent reservation of `w` can still bump the revision once. */
  predicate HasHeadroom(p: Plane, w: string) {
    w in p.profiles ==> p.profiles[w].revision + Reservations(p.runs, |p.runs|, w) <= MAX_ROUTING_INTEGER
  }

  /** With headroom no lease of the worker is stuck. */
  lemma HeadroomFreesLeases(p: Plane, r: nat)
    requires Inv(p) && r in p.leases && HasHeadroom(p, p.leases[r].worker)
    ensures CanClose(p, r)
  {
    ClosableIff(p, r);
    ActiveRows(p, r);
    if p.runs[r].quotaState == Reserved {
      SomeReservation(p.runs, |p.runs|, p.leases[r].worker, r);
    }
  }

  /** How far one claim moves the sum of revision and reservations. */
  function ClaimBump(units: nat): nat {
    if units > 0 then 2 else 1
  }

  lemma CloseKeepsHeadroom(p: Plane, r: nat, c: Closing, now: int, w: string)
    requires Inv(p) && CanClose(p, r) && TerminalRun(c.status) && HasHeadroom(p, w)
    ensures HasHeadroom(Closed(p, r, c, now), w)
  {
    var q := Closed(p, r, c, now);
    ActiveRows(p, r);
    if w == p.leases[r].worker && Refundable(p.runs[r]) {
      ReservationsDrop(p.runs, q.runs, |p.runs|, w, r);
    } else {
      ReservationsShrink(p.runs, q.runs, |p.runs|, w);
    }
  }

  lemma WriteKeepsHeadroom(p: Plane, v: string, profile: Profile, w: string)
    requires Inv(p) && NoneReserved(p.runs, v) && profile.revision <= MAX_ROUTING_INTEGER && HasHeadroom(p, w)
    ensures HasHeadroom(WithProfile(p, v, profile), w)
  {
    if v == w {
      NoReservations(p.runs, |p.runs|, w);
    }
  }

  lemma ClaimKeepsHeadroom(
    p: Plane, v: string, o: nat, seen: Option<Profile>, eligible: nat, now: int, expiresAt: int, w: string)
    requires CanClaim(p, v, o, seen) && HasHeadroom(p, w)
    requires v == w && seen.Some? ==> LeavesRoom(p, o, seen, w)
    ensures HasHeadroom(Claimed(p, v, o, seen, eligible, now, expiresAt), w)
  {
    var q := Claimed(p, v, o, seen, eligible, now, expiresAt);
    ReservationsShrink(p.runs, q.runs, |p.runs|, w);
  }

  /** A claim that spends the worker's own revision; every other event keeps headroom. */
  predicate SpendsRevision(p: Plane, e: Event, w: string) {
    e.Claim? && e.worker == w && e.seen.Some? && CanClaim(p, w, e.order, e.seen)
  }

  lemma OtherRowsKeepHeadroom(p: Plane, q: Plane, w: string)
    requires HasHeadroom(p, w) && FollowsTables(p, q) && |q.runs| == |p.runs| && q.profiles == p.profiles
    ensures HasHeadroom(q, w)
  {
    forall i | 0 <= i < |p.runs| && Reserves(q.runs[i], w)
      ensures Reserves(p.runs[i], w)
    {
      assert RunFollows(p.runs[i], q.runs[i]);
    }
    ReservationsShrink(p.runs, q.runs, |p.runs|, w);
  }

  /** Whether a claim charged to `w` leaves room for the bumps still owed. */
  predicate LeavesRoom(p: Plane, o: nat, seen: Option<Profile>, w: string)
    requires o < |p.orders| && w in p.profiles
  {
    var owed := Reservations(p.runs, |p.runs|, w);
    p.profiles[w].revision + owed + ClaimBump(ClaimUnits(p, o, seen)) <= MAX_ROUTING_INTEGER
  }

  lemma ChangeKeepsHeadroom(hash: Identity -> string, p: Plane, c: Change, w: string)
    requires Inv(p) && Legal(hash, p, c) && HasHeadroom(p, w)
    requires c.Claiming? && c.worker == w && c.seen.Some? ==> LeavesRoom(p, c.order, c.seen, w)
    ensures HasHeadroom(Perform(hash, p, c), w)
  {
    match c {
      case ProfileSet(v, profile) => WriteKeepsHeadroom(p, v, profile, w);
      case Claiming(v, o, seen, eligible, now, expiresAt) =>
        ClaimKeepsHeadroom(p, v, o, seen, eligible, now, expiresAt, w);
      case Finishing(r, completion, now) =>
        CloseKeepsHeadroom(p, r, ClosingFor(p, hash, r, completion), now, w);
      case Lapsing(r, now) => CloseKeepsHeadroom(p, r, LapseClosing(p.runs[r]), now, w);
      case _ =>
        ChangeFollows(hash, p, c);
        OtherRowsKeepHeadroom(p, Perform(hash, p, c), w);
    }
  }

  /** Headroom is lost only by claims that spend the worker's revision without leaving
      room for the bumps still owed. */
  lemma EventKeepsHeadroom(hash: Identity -> string, p: Plane, e: Event, w: string)
    requires Inv(p) && HasHeadroom(p, w)
    requires SpendsRevision(p, e, w) ==> LeavesRoom(p, e.order, e.seen, w)
    ensures HasHeadroom(Apply(hash, p, e), w)
  {
    var c := EventDoes(hash, p, e);
    ChangeKeepsHeadroom(hash, p, c, w);
  }

  // ----- workers with a single slot -----

  predicate SingleSlot(p: Plane, w: string) {
    w in p.workers ==> p.workers[w].maxConcurrency == 1
  }

  predicate RegistersSingleSlot(e: Event, w: string) {
    e.Register? && e.worker == w ==> e.registration.maxConcurrency == 1
  }

  lemma EventKeepsSingleSlot(hash: Identity -> string, p: Plane, e: Event, w: string)
    requires SingleSlot(p, w) && RegistersSingleSlot(e, w)
    ensures SingleSlot(Apply(hash, p, e), w)
  {
  }

  /** A worker with a free only slot owes nothing, so the reserve guard suffices. */
  lemma FreeSlotOwesNothing(p: Plane, w: string)
    requires Inv(p) && w in p.workers && p.workers[w].active == 0
    ensures Reservations(p.runs, |p.runs|, w) == 0
  {
    assert WorkerOk(p.workers, p.leases, w);
    forall i | 0 <= i < |p.runs|
      ensures !Reserves(p.runs[i], w)
    {
      assert RunOk(p, i);
      assert i in p.leases ==> LeaseOk(p.orders, p.runs, p.leases, i) && i !in HeldBy(p.leases, w);
    }
    NoReservations(p.runs, |p.runs|, w);
  }

  lemma {:induction false} SingleSlotTrace(hash: Identity -> string, p: Plane, es: seq<Event>, w: string)
    requires Inv(p) && SingleSlot(p, w) && HasHeadroom(p, w)
    requires forall i :: 0 <= i < |es| ==> RegistersSingleSlot(es[i], w)
    ensures Inv(Trace(hash, p, es)) && HasHeadroom(Trace(hash, p, es), w)
    decreases |es|
  {
    if es != [] {
      if SpendsRevision(p, es[0], w) {
        FreeSlotOwesNothing(p, w);
      }
      EventKeepsHeadroom(hash, p, es[0], w);
      EventKeepsSingleSlot(hash, p, es[0], w);
      EventKeepsInv(hash, p, es[0]);
      SingleSlotTrace(hash, Apply(hash, p, es[0]), es[1..], w);
    }
  }

  /** A worker that never registers more than one slot never has a stuck lease. */
  lemma SingleSlotNeverStuck(hash: Identity -> string, p: Plane, es: seq<Event>, w: string, r: nat)
    requires Inv(p) && SingleSlot(p, w) && HasHeadroom(p, w)
    requires forall i :: 0 <= i < |es| ==> RegistersSingleSlot(es[i], w)
    requires LeasedTo(Trace(hash, p, es), r, w)
    ensures CanClose(Trace(hash, p, es), r)
  {
    SingleSlotTrace(hash, p, es, w);
    HeadroomFreesLeases(Trace(hash, p, es), r);
  }

  lemma EmptyPlaneHasHeadroom(w: string)
    ensures Inv(EMPTY_PLANE) && SingleSlot(EMPTY_PLANE, w) && HasHeadroom(EMPTY_PLANE, w)
  {
    EmptyPlaneOk();
  }

  /** From empty tables: as long as a worker registers one slot only, every lease it ever
      holds can be closed. */
  lemma SingleSlotIsSafe(hash: Identity -> string, es: seq<Event>, w: string, r: nat)
    requires forall i :: 0 <= i < |es| ==> RegistersSingleSlot(es[i], w)
    requires LeasedTo(Trace(hash, EMPTY_PLANE, es), r, w)
    ensures CanClose(Trace(hash, EMPTY_PLANE, es), r)
  {
    EmptyPlaneHasHeadroom(w);
    SingleSlotTrace(hash, EMPTY_PLANE, es, w);
    HeadroomFreesLeases(Trace(hash, EMPTY_PLANE, es), r);
  }

  predicate LeasedTo(p: Plane, r: nat, w: string) {
    r in p.leases && p.leases[r].worker == w
  }
}
