/**
 A lease at the revision ceiling: what can still free it, and what follows if nothing does.
 */
module Ceiling {
  import opened Options
  import opened Lifecycle
  import opened Tables
  import opened Events
  import opened PlaneInvariant
  import opened Changes
  import opened PlaneSteps
  import opened PlaneTheorems
  import opened Revisions
  import opened Sweep
  import opened Routing
  import opened Checkout

  /** What stays of a lease that nothing closes or renews. */
  predicate LeaseKept(p: Plane, q: Plane, r: nat) {
    && r in p.leases && r in q.leases && q.leases[r] == p.leases[r]
    && r < |p.runs| && r < |q.runs| && q.runs[r].quotaState == p.runs[r].quotaState
  }

  lemma ChangeKeepsLease(hash: Identity -> string, p: Plane, c: Change, r: nat)
    requires Legal(hash, p, c) && r in p.leases && r < |p.runs| && !CanClose(p, r) && !(c.Beating? && c.run == r)
    ensures LeaseKept(p, Perform(hash, p, c), r)
  {
  }

  /** A stuck lease stays stuck unless its run beats in time. */
  lemma StuckStep(hash: Identity -> string, p: Plane, e: Event, r: nat)
    requires Inv(p) && AtCeiling(p, r) && !AcceptedBeat(p, e, r)
    ensures var q := Apply(hash, p, e); Inv(q) && AtCeiling(q, r) && q.leases[r] == p.leases[r]
  {
    EventKeepsInv(hash, p, e);
    ClosableIff(p, r);
    var c := EventDoes(hash, p, e);
    ChangeKeepsLease(hash, p, c, r);
    EventMovesRevision(hash, p, e, p.leases[r].worker);
  }

  /** A lease at the ceiling whose owner does not beat before the lease expires can never be
      closed again: no completion, cancellation or expiry, and no operator write, helps. */
  lemma {:induction false} StuckForever(hash: Identity -> string, p: Plane, es: seq<Event>, r: nat)
    requires Inv(p) && AtCeiling(p, r)
    requires forall i :: 0 <= i < |es| ==> !AcceptedBeat(p, es[i], r)
    ensures var z := Trace(hash, p, es);
            Inv(z) && AtCeiling(z, r) && !CanClose(z, r) && z.leases[r] == p.leases[r]
    decreases |es|
  {
    if es == [] {
      ClosableIff(p, r);
    } else {
      StuckStep(hash, p, es[0], r);
      StuckForever(hash, Apply(hash, p, es[0]), es[1..], r);
    }
  }

  /** A beat in time frees it: the reservation is spent and nothing needs to be returned. */
  lemma TimelyBeatFrees(hash: Identity -> string, p: Plane, r: nat, w: string, now: int, expiresAt: int)
    requires Inv(p) && AtCeiling(p, r) && OwnsLive(p, r, w, now)
    ensures Leased(p, r) && Apply(hash, p, RunBeat(r, w, now, expiresAt)) == RunBeaten(p, r, now, expiresAt)
    ensures CanClose(RunBeaten(p, r, now, expiresAt), r)
  {
    ClosableIff(p, r);
    BeatIsApplied(hash, p, r, w, now, expiresAt);
    BeatenIsClosable(p, r, now, expiresAt);
  }

  lemma BeatIsApplied(hash: Identity -> string, p: Plane, r: nat, w: string, now: int, expiresAt: int)
    requires Leased(p, r) && OwnsLive(p, r, w, now)
    ensures Apply(hash, p, RunBeat(r, w, now, expiresAt)) == RunBeaten(p, r, now, expiresAt)
  {
  }

  lemma BeatenIsClosable(p: Plane, r: nat, now: int, expiresAt: int)
    requires Inv(p) && Leased(p, r)
    ensures CanClose(RunBeaten(p, r, now, expiresAt), r)
  {
    HolderIsBusy(p, r);
  }

  /** The lease cannot be closed in any plane of the run. */
  ghost predicate StuckThroughout(hash: Identity -> string, p: Plane, es: seq<Event>, r: nat)
    decreases |es|
  {
    !CanClose(p, r) && (es == [] || StuckThroughout(hash, Apply(hash, p, es[0]), es[1..], r))
  }

  lemma BeatEndsIt(hash: Identity -> string, p: Plane, e: Event, es: seq<Event>, r: nat)
    requires Inv(p) && AtCeiling(p, r) && AcceptedBeat(p, e, r)
    ensures !StuckThroughout(hash, Apply(hash, p, e), es, r)
  {
    TimelyBeatFrees(hash, p, r, e.worker, e.now, e.expiresAt);
  }

  /** Exactly: a lease at the ceiling is unclosable all through a run if and only if the run
      contains no beat by its owner before it expires. */
  lemma {:induction false} StuckIffNoTimelyBeat(hash: Identity -> string, p: Plane, es: seq<Event>, r: nat)
    requires Inv(p) && AtCeiling(p, r)
    ensures StuckThroughout(hash, p, es, r) <==> forall i :: 0 <= i < |es| ==> !AcceptedBeat(p, es[i], r)
    decreases |es|
  {
    ClosableIff(p, r);
    if es != [] {
      if AcceptedBeat(p, es[0], r) {
        BeatEndsIt(hash, p, es[0], es[1..], r);
      } else {
        var q := Apply(hash, p, es[0]);
        StuckStep(hash, p, es[0], r);
        StuckIffNoTimelyBeat(hash, q, es[1..], r);
        SameBeats(p, q, es, r);
      }
    }
  }

  /** While the lease stays the same, the same later beats are in time. */
  lemma SameBeats(p: Plane, q: Plane, es: seq<Event>, r: nat)
    requires es != [] && !AcceptedBeat(p, es[0], r)
    requires r in p.leases && r in q.leases && q.leases[r] == p.leases[r]
    ensures (forall i :: 0 <= i < |es| ==> !AcceptedBeat(p, es[i], r))
            <==> forall i :: 0 <= i < |es| - 1 ==> !AcceptedBeat(q, es[1..][i], r)
  {
    assert forall i :: 0 <= i < |es| - 1 ==> es[1..][i] == es[i + 1];
    assert forall i :: 0 < i < |es| ==> es[i] == es[1..][i - 1];
  }

  lemma {:induction false} SomeStale(p: Plane, i: nat, now: int, r: nat)
    requires i <= r < |p.runs| && Stale(p, r, now) && p.runs[r].quotaState == Reserved
    ensures StaleReservations(p, i, now, p.leases[r].worker) >= 1
    decreases r - i
  {
    if i < r {
      SomeStale(p, i + 1, now, r);
    }
  }

  /** Once it is stale, the expiry of stale leases fails as a whole. */
  lemma StuckSweepFails(p: Plane, r: nat, now: int)
    requires Inv(p) && AtCeiling(p, r) && Stale(p, r, now)
    ensures Swept(p, 0, now).None?
  {
    SomeStale(p, 0, now, r);
    SweepSucceedsIff(p, 0, now);
  }

  /** From then on every checkout of every worker fails, whatever happens in between. */
  lemma EveryLaterCheckoutFails(
    hash: Identity -> string, cfg: Settings, p: Plane, es: seq<Event>, r: nat, w: string, clock: Clock,
    x: Option<Assignment>, q: Plane)
    requires Inv(p) && AtCeiling(p, r) && clock.sweep > p.leases[r].expiresAt
    requires forall i :: 0 <= i < |es| ==> !AcceptedBeat(p, es[i], r)
    requires CheckedOut(cfg, Trace(hash, p, es), w, clock, x, q)
    ensures x.None? && q == Trace(hash, p, es)
  {
    StuckForever(hash, p, es, r);
    StuckSweepFails(Trace(hash, p, es), r, clock.sweep);
  }

  // ----- how a worker with two slots gets there -----

  const WORKER: string := "w"
  const TERMS := Terms(Subject("", "", ""), "", CheapestCapable, None, 1, None, Never, "", "", [])
  const DRAFT := ProfileDraft(true, 0, 2, 2, None, 0)
  const QUEUED := WorkOrder(TERMS, Queued, Some(0), Some(0), None, None, None, 0, None, None)

  function ReplacesFrom(first: int, n: nat): seq<Event>
    decreases n
  {
    if n == 0 then [] else [ReplaceProfile(WORKER, first, DRAFT)] + ReplacesFrom(first + 1, n - 1)
  }

  /** One worker with two slots and a profile, two queued orders that need one unit each. */
  function Stage(revision: int): Plane {
    Plane([QUEUED, QUEUED], [], map[],
          map[WORKER := Worker(Online, 2, 0, 0, None, [], "")],
          map[WORKER := Drafted(DRAFT, revision)],
          map[WORKER := Ledger(2, 0)])
  }

  const SETUP: seq<Event> := [
    Register(WORKER, Registration(Online, 2, [], "", false), 0),
    CreateProfile(WORKER, DRAFT),
    CreateOrder(TERMS),
    CreateOrder(TERMS),
    Approve(0, true, true, 0),
    Approve(1, true, true, 0)]

  lemma Next(hash: Identity -> string, p: Plane, e: Event, q: Plane, es: seq<Event>, z: Plane)
    requires Apply(hash, p, e) == q && Trace(hash, q, es) == z
    ensures Trace(hash, p, [e] + es) == z
  {
    assert ([e] + es)[1..] == es;
  }

  /** The plane of the set-up with the given orders. */
  function SetupWith(orders: seq<WorkOrder>): Plane {
    Stage(1).(orders := orders)
  }

  lemma SetupQueues(hash: Identity -> string)
    ensures Trace(hash, SetupWith([NewOrder(TERMS), NewOrder(TERMS)]), SETUP[4..]) == Stage(1)
  {
    var p5 := SetupWith([QUEUED, NewOrder(TERMS)]);
    Next(hash, p5, SETUP[5], Stage(1), [], Stage(1));
    Next(hash, SetupWith([NewOrder(TERMS), NewOrder(TERMS)]), SETUP[4], p5, SETUP[5..], Stage(1));
    assert SETUP[4..] == [SETUP[4]] + SETUP[5..] && SETUP[5..] == [SETUP[5]] + [];
  }

  lemma SetupCreates(hash: Identity -> string)
    ensures Trace(hash, SetupWith([]), SETUP[2..]) == Stage(1)
  {
    SetupQueues(hash);
    var p3, p4 := SetupWith([NewOrder(TERMS)]), SetupWith([NewOrder(TERMS), NewOrder(TERMS)]);
    Next(hash, p3, SETUP[3], p4, SETUP[4..], Stage(1));
    Next(hash, SetupWith([]), SETUP[2], p3, SETUP[3..], Stage(1));
    assert SETUP[2..] == [SETUP[2]] + SETUP[3..] && SETUP[3..] == [SETUP[3]] + SETUP[4..];
  }

  lemma SetupReachesStage(hash: Identity -> string)
    ensures Trace(hash, EMPTY_PLANE, SETUP) == Stage(1)
  {
    SetupCreates(hash);
    var p1 := EMPTY_PLANE.(workers := map[WORKER := Worker(Online, 2, 0, 0, None, [], "")]);
    Next(hash, p1, SETUP[1], SetupWith([]), SETUP[2..], Stage(1));
    Next(hash, EMPTY_PLANE, SETUP[0], p1, SETUP[1..], Stage(1));
    assert SETUP == [SETUP[0]] + SETUP[1..] && SETUP[1..] == [SETUP[1]] + SETUP[2..];
  }

  lemma OneReplace(hash: Identity -> string, first: int)
    requires 1 <= first < MAX_ROUTING_INTEGER
    ensures Apply(hash, Stage(first), ReplaceProfile(WORKER, first, DRAFT)) == Stage(first + 1)
  {
  }

  lemma {:induction false} ReplacesReachStage(hash: Identity -> string, first: int, n: nat)
    requires 1 <= first && first + n <= MAX_ROUTING_INTEGER
    ensures Trace(hash, Stage(first), ReplacesFrom(first, n)) == Stage(first + n)
    decreases n
  {
    if n > 0 {
      OneReplace(hash, first);
      ReplacesReachStage(hash, first + 1, n - 1);
      Next(hash, Stage(first), ReplaceProfile(WORKER, first, DRAFT), Stage(first + 1),
           ReplacesFrom(first + 1, n - 1), Stage(first + n));
    }
  }

  function Seen(revision: int, remaining: int): Option<Profile> {
    Some(Drafted(DRAFT, revision).(remaining := remaining))
  }

  /** Both orders claimed, then the first lease lapses. */
  function Endgame(revision: int): seq<Event> {
    [Claim(WORKER, 0, Seen(revision, 2), 1, 0, 60), Claim(WORKER, 1, Seen(revision + 1, 1), 1, 0, 60), Lapse(0, 61)]
  }

  /** Both claims are allowed and leave two unspent reservations three revisions below the
      starting point's ceiling. */
  lemma TwoClaims(p: Plane, revision: int)
    requires p == Stage(revision) && 1 <= revision <= MAX_ROUTING_INTEGER - 3
    ensures CanClaim(p, WORKER, 0, Seen(revision, 2))
    ensures var q := Claimed(p, WORKER, 0, Seen(revision, 2), 1, 0, 60);
            && CanClaim(q, WORKER, 1, Seen(revision + 1, 1))
            && var z := Claimed(q, WORKER, 1, Seen(revision + 1, 1), 1, 0, 60);
            && |z.runs| == 2 && z.leases.Keys == {0, 1} && z.leases[0] == z.leases[1].(order := 0)
            && z.leases[1] == Lease(1, WORKER, 60)
            && z.runs[0].quotaState == z.runs[1].quotaState == Reserved
            && z.runs[0].route.reserved == 1 && z.runs[0].order == 0
            && WORKER in z.workers && z.workers[WORKER].active == 2 && |z.orders| == 2
            && WORKER in z.profiles && z.profiles[WORKER] == Drafted(DRAFT, revision + 2).(remaining := 0)
  {
  }

  lemma EndgameTrace(hash: Identity -> string, p: Plane, w: string, first: Option<Profile>, second: Option<Profile>)
    requires CanClaim(p, w, 0, first)
    requires var q := Claimed(p, w, 0, first, 1, 0, 60);
             CanClaim(q, w, 1, second) && CanLapse(Claimed(q, w, 1, second, 1, 0, 60), 0, 61)
    ensures Trace(hash, p, [Claim(w, 0, first, 1, 0, 60), Claim(w, 1, second, 1, 0, 60), Lapse(0, 61)])
            == Lapsed(Claimed(Claimed(p, w, 0, first, 1, 0, 60), w, 1, second, 1, 0, 60), 0, 61)
  {
    var q := Claimed(p, w, 0, first, 1, 0, 60);
    var z := Claimed(q, w, 1, second, 1, 0, 60);
    var end := Lapsed(z, 0, 61);
    var es := [Claim(w, 0, first, 1, 0, 60), Claim(w, 1, second, 1, 0, 60), Lapse(0, 61)];
    Next(hash, z, es[2], end, [], end);
    Next(hash, q, es[1], z, es[2..], end);
    Next(hash, p, es[0], q, es[1..], end);
    assert es == [es[0]] + es[1..];
  }

  lemma EndgameSticks(hash: Identity -> string, n: int)
    requires n == MAX_ROUTING_INTEGER - 3
    ensures var p := Trace(hash, Stage(n), Endgame(n));
            AtCeiling(p, 1) && p.leases[1] == Lease(1, WORKER, 60)
  {
    TwoClaims(Stage(n), n);
    EndgameTrace(hash, Stage(n), WORKER, Seen(n, 2), Seen(n + 1, 1));
  }

  /** Setting up, `n` profile rewrites, and the endgame. */
  function Ascent(n: nat): seq<Event> {
    SETUP + ReplacesFrom(1, n) + Endgame(n + 1)
  }

  lemma AscentReachesCeiling(hash: Identity -> string, n: nat)
    requires n + 4 == MAX_ROUTING_INTEGER
    ensures var p := Trace(hash, EMPTY_PLANE, Ascent(n));
            Inv(p) && AtCeiling(p, 1) && p.leases[1] == Lease(1, WORKER, 60)
  {
    var rewrites, endgame := ReplacesFrom(1, n), Endgame(n + 1);
    SetupReachesStage(hash);
    ReplacesReachStage(hash, 1, n);
    TraceAppends(hash, EMPTY_PLANE, SETUP, rewrites);
    TraceAppends(hash, EMPTY_PLANE, SETUP + rewrites, endgame);
    EndgameSticks(hash, n + 1);
    EveryRunKeepsInv(hash, Ascent(n));
  }

  /** Revision plus reservations is what counts: permitted events alone lead a worker with
      two slots, at time 61, to a lease that expired at 60 with its reservation unspent. If no
      later beat of that run by its worker reads an earlier clock, nothing ever closes the
      lease again and every later checkout of every worker fails. */
  lemma TwoSlotsCanGetStuck(
    hash: Identity -> string, cfg: Settings, n: nat, es: seq<Event>, w: string, clock: Clock,
    x: Option<Assignment>, q: Plane)
    requires n + 4 == MAX_ROUTING_INTEGER
    requires forall i :: 0 <= i < |es| && es[i].RunBeat? && es[i].run == 1 && es[i].worker == WORKER ==> es[i].now > 60
    ensures var z := Trace(hash, Trace(hash, EMPTY_PLANE, Ascent(n)), es);
            && Inv(z) && 1 in z.leases && !CanClose(z, 1)
            && (clock.sweep > 60 && CheckedOut(cfg, z, w, clock, x, q) ==> x.None? && q == z)
  {
    AscentReachesCeiling(hash, n);
    var p := Trace(hash, EMPTY_PLANE, Ascent(n));
    StuckForever(hash, p, es, 1);
    if clock.sweep > 60 && CheckedOut(cfg, Trace(hash, p, es), w, clock, x, q) {
      EveryLaterCheckoutFails(hash, cfg, p, es, 1, w, clock, x, q);
    }
  }
}
