/**
 What a checkout must do: which order a polling worker is given, and what it is told
 otherwise.
 */
module Checkout {
  import opened Options
  import opened Lifecycle
  import opened Tables
  import opened Events
  import opened PlaneInvariant
  import opened Routing
  import opened Selection
  import opened Sweep

  /** Clock readings of one checkout: when stale leases are expired, when the poll is
      recorded, and when each order is examined. */
  datatype Clock = Clock(sweep: int, poll: int, scan: nat -> int)

  datatype Refusal =
    | WorkerUnavailable | NoFreeSlot
    | ReservationConflict | CheckoutConflict | BetterCandidateActive | RouteUnavailable(reason: RouteReason)
    | RepositoryMismatch | CapabilitiesMissing | NothingQueued

  /** A refusal comes with every reason that was found against the worker. */
  datatype Assignment = Given(run: nat, order: nat) | NotGiven(why: Refusal, mismatches: seq<Reason>)

  /** The profile a claim is charged to: none under first-available routing. */
  function ChargedTo(p: Plane, w: string, terms: Terms): Option<Profile> {
    if terms.routing == CheapestCapable then ProfileOf(p, w) else None
  }

  function EligibleWorkers(cfg: Settings, p: Plane, terms: Terms, now: int): set<string> {
    set v | v in p.workers && EligibleFor(cfg, p, v, terms, now)
  }

  /** The profile's revision is too close to the ceiling for another reservation. */
  predicate RevisionExhausted(p: Plane, w: string, o: nat) {
    && o < |p.orders|
    && p.orders[o].terms.routing == CheapestCapable
    && w in p.profiles
    && p.profiles[w].revision > MAX_ROUTING_INTEGER - (if p.orders[o].terms.requiredQuota > 0 then 2 else 1)
  }

  /** Whoever wins an order can claim it, except near the revision ceiling. */
  lemma WinnerCanClaim(cfg: Settings, p: Plane, w: string, o: nat, now: int)
    requires Wins(cfg, p, w, o, now)
    ensures CanClaim(p, w, o, ChargedTo(p, w, p.orders[o].terms)) <==> !RevisionExhausted(p, w, o)
    ensures CanTakeSlot(p, w)
  {
  }

  /** The order a worker is entitled to: the oldest queued one that it wins. */
  ghost predicate FirstWin(cfg: Settings, p: Plane, w: string, o: nat, clock: Clock) {
    && Wins(cfg, p, w, o, clock.scan(o))
    && (forall k: nat :: k < o ==> !Wins(cfg, p, w, k, clock.scan(k)))
  }

  ghost predicate NoWin(cfg: Settings, p: Plane, w: string, clock: Clock) {
    forall k: nat :: !Wins(cfg, p, w, k, clock.scan(k))
  }

  // ----- what a refused worker is told -----

  /** Reason `x` speaks against worker `w` taking an order with these terms. */
  predicate Against(cfg: Settings, p: Plane, w: string, terms: Terms, now: int, x: Reason) {
    w in p.workers && Holds(x, cfg, w, p.workers[w], ProfileOf(p, w), terms, now)
  }

  /** `reasons` lists exactly what speaks against worker `w`. */
  ghost predicate Lists(cfg: Settings, p: Plane, w: string, terms: Terms, now: int, reasons: seq<Reason>) {
    forall x :: x in reasons <==> Against(cfg, p, w, terms, now, x)
  }

  /** The one reason reported for an order that has no route to the worker. */
  ghost predicate Reports(cfg: Settings, p: Plane, w: string, terms: Terms, now: int, u: RouteReason) {
    exists reasons ::
      Lists(cfg, p, w, terms, now, reasons) && u == UnavailableRouteReason(reasons, terms.preferred.Some?)
  }

  /** It is determined by the plane. */
  lemma OneReport(cfg: Settings, p: Plane, w: string, terms: Terms, now: int, u: RouteReason, v: RouteReason)
    requires Reports(cfg, p, w, terms, now, u) && Reports(cfg, p, w, terms, now, v)
    ensures u == v
  {
    var xs :| Lists(cfg, p, w, terms, now, xs) && u == UnavailableRouteReason(xs, terms.preferred.Some?);
    var ys :| Lists(cfg, p, w, terms, now, ys) && v == UnavailableRouteReason(ys, terms.preferred.Some?);
    assert forall x :: x in xs <==> x in ys;
    SameReasonsSameReport(PRECEDENCE, xs, ys);
  }

  /** The obstacle, if it counts as one, that kept the worker from a queued order: another
      worker that is the best, or the reported reason; under first-available routing missing
      capabilities are no obstacle of their own. */
  ghost predicate Obstacle(cfg: Settings, p: Plane, w: string, o: nat, now: int, r: Option<Refusal>) {
    && InStatus(p, o, {Queued})
    && var terms := p.orders[o].terms;
    if terms.routing == FirstAvailable then
      exists u ::
        Reports(cfg, p, w, terms, now, u) && r == if u.NoCapableWorkers? then None else Some(RouteUnavailable(u))
    else if EligibleWorkers(cfg, p, terms, now) == {} then
      exists u :: Reports(cfg, p, w, terms, now, u) && r == Some(RouteUnavailable(u))
    else
      r == Some(BetterCandidateActive) && exists v :: v != w && Best(cfg, p, v, terms, now)
  }

  /** Nothing counts as an obstacle among the first `n` orders. */
  ghost predicate Unobstructed(cfg: Settings, p: Plane, w: string, clock: Clock, n: nat) {
    forall k: nat :: k < n && InStatus(p, k, {Queued}) ==> Obstacle(cfg, p, w, k, clock.scan(k), None)
  }

  /** The obstacle of the oldest order that has one. */
  ghost predicate FirstObstacle(cfg: Settings, p: Plane, w: string, clock: Clock, n: nat, route: Option<Refusal>) {
    match route
    case None => Unobstructed(cfg, p, w, clock, n)
    case Some(_) =>
      exists o: nat ::
        o < n && Obstacle(cfg, p, w, o, clock.scan(o), route) && Unobstructed(cfg, p, w, clock, o)
  }

  /** The reasons against the worker over the queued orders among the first `n`. */
  ghost predicate Collected(cfg: Settings, p: Plane, w: string, clock: Clock, n: nat, mismatches: seq<Reason>) {
    && (forall x :: x in mismatches <==>
          exists k: nat :: k < n && InStatus(p, k, {Queued}) && Against(cfg, p, w, p.orders[k].terms, clock.scan(k), x))
    && (forall i, j :: 0 <= i < j < |mismatches| ==> mismatches[i] != mismatches[j])
  }

  function Told(route: Option<Refusal>, mismatches: seq<Reason>): Refusal {
    if route.Some? then route.value
    else if mismatches == [] then NothingQueued
    else if RepositoryUnavailable in mismatches then RepositoryMismatch
    else CapabilitiesMissing
  }

  /** The outcome of examining the queue for an online worker. */
  ghost predicate Scanned(cfg: Settings, p: Plane, w: string, clock: Clock, x: Assignment, q: Plane) {
    match x
    case Given(run, o) =>
      && FirstWin(cfg, p, w, o, clock)
      && run == |p.runs|
      && CanClaim(p, w, o, ChargedTo(p, w, p.orders[o].terms))
      && q == Claimed(p, w, o, ChargedTo(p, w, p.orders[o].terms),
                      |EligibleWorkers(cfg, p, p.orders[o].terms, clock.scan(o))|,
                      clock.scan(o), clock.scan(o) + cfg.leaseSeconds)
    case NotGiven(why, mismatches) =>
      && q == p
      && if why == ReservationConflict then
           mismatches == [] && exists o: nat :: FirstWin(cfg, p, w, o, clock) && RevisionExhausted(p, w, o)
         else
           && NoWin(cfg, p, w, clock)
           && Collected(cfg, p, w, clock, |p.orders|, mismatches)
           && exists route :: FirstObstacle(cfg, p, w, clock, |p.orders|, route) && why == Told(route, mismatches)
  }

  /** The outcome of a checkout once stale leases are gone and the poll is recorded. */
  ghost predicate Answered(cfg: Settings, p: Plane, w: string, clock: Clock, x: Assignment, q: Plane)
    requires w in p.workers
  {
    match p.workers[w].status
    case Online => Scanned(cfg, p, w, clock, x, q)
    case Busy => x == NotGiven(NoFreeSlot, []) && q == p
    case _ => x == NotGiven(WorkerUnavailable, []) && q == p
  }

  /** A whole checkout from plane `p` to plane `q`; `None` is a failed request. */
  ghost predicate CheckedOut(cfg: Settings, p: Plane, w: string, clock: Clock, x: Option<Assignment>, q: Plane) {
    match Swept(p, 0, clock.sweep)
    case None => x.None? && q == p
    case Some(cleared) =>
      if w !in cleared.workers then x.None? && q == p
      else x.Some? && Answered(cfg, Polled(cleared, w, clock.poll), w, clock, x.value, q)
  }

  // ----- one order -----

  datatype ClaimResult = Won(run: nat) | NoSlot | QuotaConflict | OrderTaken

  /** How the scan goes on after one order: done, on to the next, or over. */
  datatype Tried = Got(run: nat) | Skip(obstacle: Option<Refusal>, reasons: seq<Reason>) | Stop(why: Refusal)

  ghost predicate TriedRight(cfg: Settings, p: Plane, w: string, o: nat, now: int, x: Tried, q: Plane) {
    && InStatus(p, o, {Queued})
    && var terms := p.orders[o].terms;
    match x
    case Got(run) =>
      && Wins(cfg, p, w, o, now)
      && run == |p.runs|
      && CanClaim(p, w, o, ChargedTo(p, w, terms))
      && q == Claimed(p, w, o, ChargedTo(p, w, terms), |EligibleWorkers(cfg, p, terms, now)|, now,
                      now + cfg.leaseSeconds)
    case Skip(obstacle, reasons) =>
      && q == p && !Wins(cfg, p, w, o, now)
      && Lists(cfg, p, w, terms, now, reasons)
      && Obstacle(cfg, p, w, o, now, obstacle)
    case Stop(why) =>
      q == p && why == ReservationConflict && Wins(cfg, p, w, o, now) && RevisionExhausted(p, w, o)
  }

  /** The first `n` orders were offered in vain. */
  ghost predicate Unserved(
    cfg: Settings, p: Plane, w: string, clock: Clock, n: nat, route: Option<Refusal>, mismatches: seq<Reason>)
  {
    && (forall k: nat :: k < n ==> !Wins(cfg, p, w, k, clock.scan(k)))
    && FirstObstacle(cfg, p, w, clock, n, route)
    && Collected(cfg, p, w, clock, n, mismatches)
  }

  lemma ObstacleNext(
    cfg: Settings, p: Plane, w: string, clock: Clock, n: nat, route: Option<Refusal>, obstacle: Option<Refusal>)
    requires FirstObstacle(cfg, p, w, clock, n, route) && Obstacle(cfg, p, w, n, clock.scan(n), obstacle)
    ensures FirstObstacle(cfg, p, w, clock, n + 1, if route.Some? then route else obstacle)
  {
    if route.None? && obstacle.Some? {
      assert Unobstructed(cfg, p, w, clock, n);
    }
  }

  lemma CollectedNext(
    cfg: Settings, p: Plane, w: string, clock: Clock, n: nat, mismatches: seq<Reason>, reasons: seq<Reason>)
    requires Collected(cfg, p, w, clock, n, mismatches) && InStatus(p, n, {Queued})
    requires Lists(cfg, p, w, p.orders[n].terms, clock.scan(n), reasons)
    ensures Collected(cfg, p, w, clock, n + 1, Unique(mismatches + reasons))
  {
    forall x
      ensures x in Unique(mismatches + reasons) <==>
              exists k: nat ::
                k < n + 1 && InStatus(p, k, {Queued}) && Against(cfg, p, w, p.orders[k].terms, clock.scan(k), x)
    {
      assert x in reasons <==> Against(cfg, p, w, p.orders[n].terms, clock.scan(n), x);
    }
  }

  lemma UnservedNext(
    cfg: Settings, p: Plane, w: string, clock: Clock, n: nat, route: Option<Refusal>, mismatches: seq<Reason>, x: Tried,
    q: Plane)
    requires Unserved(cfg, p, w, clock, n, route, mismatches)
    requires x.Skip? && TriedRight(cfg, p, w, n, clock.scan(n), x, q)
    ensures Unserved(cfg, p, w, clock, n + 1, if route.Some? then route else x.obstacle, Unique(mismatches + x.reasons))
  {
    ObstacleNext(cfg, p, w, clock, n, route, x.obstacle);
    CollectedNext(cfg, p, w, clock, n, mismatches, x.reasons);
  }

  lemma UnqueuedNext(
    cfg: Settings, p: Plane, w: string, clock: Clock, n: nat, route: Option<Refusal>, mismatches: seq<Reason>)
    requires Unserved(cfg, p, w, clock, n, route, mismatches) && !InStatus(p, n, {Queued})
    ensures Unserved(cfg, p, w, clock, n + 1, route, mismatches)
  {
  }

  /** An order taken, or the reservation ceiling met, after all older orders were passed. */
  lemma ScanEnds(
    cfg: Settings, p: Plane, w: string, clock: Clock, o: nat, route: Option<Refusal>, mismatches: seq<Reason>, x: Tried,
    q: Plane)
    requires Unserved(cfg, p, w, clock, o, route, mismatches) && TriedRight(cfg, p, w, o, clock.scan(o), x, q)
    ensures x.Got? ==> Scanned(cfg, p, w, clock, Given(x.run, o), q)
    ensures x.Stop? ==> Scanned(cfg, p, w, clock, NotGiven(x.why, []), q)
  {
  }

  /** A refusal for want of a route never reads like a reservation conflict. */
  lemma ToldIsNoConflict(
    cfg: Settings, p: Plane, w: string, clock: Clock, n: nat, route: Option<Refusal>, mismatches: seq<Reason>)
    requires FirstObstacle(cfg, p, w, clock, n, route)
    ensures Told(route, mismatches) != ReservationConflict
  {
  }

  lemma UnservedEnd(cfg: Settings, p: Plane, w: string, clock: Clock, route: Option<Refusal>, mismatches: seq<Reason>)
    requires Unserved(cfg, p, w, clock, |p.orders|, route, mismatches)
    ensures Scanned(cfg, p, w, clock, NotGiven(Told(route, mismatches), mismatches), p)
  {
    ToldIsNoConflict(cfg, p, w, clock, |p.orders|, route, mismatches);
  }

  // ----- assessment -----

  datatype AssessmentReason = RoutingSelected | FirstAvailableWorker | NoRoute(reason: RouteReason)

  datatype Assessment = Assessment(
    selected: Option<string>,
    revision: Option<int>,
    cost: Option<int>,
    eligible: nat,
    pinned: bool,
    reason: AssessmentReason)

  /** `reasons` lists exactly what speaks against some worker. */
  ghost predicate ListsAll(cfg: Settings, p: Plane, terms: Terms, now: int, reasons: seq<Reason>) {
    forall x :: x in reasons <==> exists v :: v in p.workers && Against(cfg, p, v, terms, now, x)
  }

  /** An assessment selects a worker that wins the order, with that worker's revision and
      cost for a routed one; a routed order has a selection unless nobody is eligible, and a
      first-available order only for its pinned worker. The reason says so, or names what
      speaks against the workers. */
  ghost predicate Assessed(cfg: Settings, p: Plane, o: nat, now: int, x: Assessment) {
    && InStatus(p, o, {Queued})
    && var terms := p.orders[o].terms;
    && x.eligible == |EligibleWorkers(cfg, p, terms, now)|
    && x.pinned == terms.preferred.Some?
    && (x.selected.Some? ==> Wins(cfg, p, x.selected.value, o, now))
    && (terms.routing == CheapestCapable ==> (x.selected.None? <==> x.eligible == 0))
    && (terms.routing == CheapestCapable && x.selected.Some? ==>
          && x.selected.value in p.profiles
          && x.revision == Some(p.profiles[x.selected.value].revision)
          && x.cost == Some(p.profiles[x.selected.value].cost))
    && (terms.routing == FirstAvailable || x.selected.None? ==> x.revision.None? && x.cost.None?)
    && (terms.routing == FirstAvailable && terms.preferred.None? ==> x.selected.None?)
    && (terms.routing == FirstAvailable && terms.preferred.Some? ==>
          (x.selected.Some? <==> EligibleFor(cfg, p, terms.preferred.value, terms, now)))
    && (x.eligible > 0 ==>
          x.reason == if terms.routing == FirstAvailable then FirstAvailableWorker else RoutingSelected)
    && (x.eligible == 0 ==>
          exists reasons ::
            ListsAll(cfg, p, terms, now, reasons) && x.reason == NoRoute(UnavailableRouteReason(reasons, x.pinned)))
  }

  // ----- consequences -----

  /** The worker an assessment at time `early` selects gets that order at its own later
      checkout, or an older one that it wins, as long as no lease is stale and its heartbeat
      and its poll are fresh when the order is examined. */
  lemma SelectedWorkerIsServed(
    cfg: Settings, p: Plane, w: string, o: nat, early: int, clock: Clock, x: Option<Assignment>, q: Plane)
    requires Wins(cfg, p, w, o, early) && early <= clock.scan(o)
    requires forall r: nat :: !Stale(p, r, clock.sweep)
    requires IsFresh(Some(p.workers[w].lastHeartbeat), clock.scan(o), cfg.heartbeatFreshness)
    requires IsFresh(Some(clock.poll), clock.scan(o), cfg.pollFreshness)
    requires forall k: nat :: k <= o ==> !RevisionExhausted(p, w, k)
    requires CheckedOut(cfg, p, w, clock, x, q)
    ensures x.Some? && x.value.Given? && x.value.order <= o
  {
    NothingToSweep(p, 0, clock.sweep);
    var z := Polled(p, w, clock.poll);
    PollKeepsWinner(cfg, p, w, o, early, clock.poll, clock.scan(o));
    assert forall k: nat :: RevisionExhausted(z, w, k) ==> RevisionExhausted(p, w, k);
  }

  /** Only slots and status differ. */
  predicate SlotsOnly(a: Worker, b: Worker) {
    b == a.(active := b.active, status := b.status)
  }

  lemma AnswerTakesSlots(cfg: Settings, p: Plane, w: string, clock: Clock, x: Assignment, q: Plane, v: string)
    requires w in p.workers && Answered(cfg, p, w, clock, x, q) && v in p.workers
    ensures v in q.workers && SlotsOnly(p.workers[v], q.workers[v])
  {
  }

  lemma SweepFreesSlots(p: Plane, now: int, v: string)
    requires Inv(p) && Swept(p, 0, now).Some? && v in p.workers
    ensures Swept(p, 0, now).value.workers.Keys == p.workers.Keys
    ensures SlotsOnly(p.workers[v], Swept(p, 0, now).value.workers[v])
  {
    SweepIsExact(p, 0, now);
    assert SlotsFreed(p.workers[v], Swept(p, 0, now).value.workers[v], StaleLeases(p, 0, now, v));
  }

  /** What a checkout says about liveness: the asking worker has polled, nobody else has, no
      heartbeat is refreshed and no declared column of any worker changes. */
  lemma CheckoutIsOnePoll(
    cfg: Settings, p: Plane, w: string, clock: Clock, x: Option<Assignment>, q: Plane, v: string)
    requires Inv(p) && CheckedOut(cfg, p, w, clock, x, q) && x.Some? && v in p.workers
    ensures v in q.workers
    ensures q.workers[v] == p.workers[v].(lastPoll := if v == w then Some(clock.poll) else p.workers[v].lastPoll,
                                          active := q.workers[v].active, status := q.workers[v].status)
  {
    SweepFreesSlots(p, clock.sweep, v);
    AnswerTakesSlots(cfg, Polled(Swept(p, 0, clock.sweep).value, w, clock.poll), w, clock, x.value, q, v);
  }

  /** A worker is told that it is unavailable exactly if it is draining or offline, and that it
      has no free slot exactly if it is busy, once stale leases have given slots back. */
  lemma StatusIsTold(cfg: Settings, p: Plane, w: string, clock: Clock, x: Option<Assignment>, q: Plane)
    requires CheckedOut(cfg, p, w, clock, x, q) && x.Some?
    ensures Swept(p, 0, clock.sweep).Some? && w in Swept(p, 0, clock.sweep).value.workers
    ensures var status := Swept(p, 0, clock.sweep).value.workers[w].status;
            && (status in {Draining, Offline} <==> x.value.NotGiven? && x.value.why == WorkerUnavailable)
            && (status == Busy <==> x.value.NotGiven? && x.value.why == NoFreeSlot)
            && (status != Online ==> x.value.mismatches == [])
  {
  }

  /** A worker told that a better candidate is active is kept from an order by another
      worker that polled within the freshness window. */
  lemma BetterCandidatePolledRecently(
    cfg: Settings, p: Plane, w: string, clock: Clock, mismatches: seq<Reason>, q: Plane)
    requires Scanned(cfg, p, w, clock, NotGiven(BetterCandidateActive, mismatches), q)
    ensures exists o: nat, v :: InStatus(p, o, {Queued}) && v in p.workers && v != w
              && Best(cfg, p, v, p.orders[o].terms, clock.scan(o)) && !Wins(cfg, p, w, o, clock.scan(o))
              && p.workers[v].lastPoll.Some? && p.workers[v].lastPoll.value >= clock.scan(o) - cfg.pollFreshness
  {
    var route :| FirstObstacle(cfg, p, w, clock, |p.orders|, route) && BetterCandidateActive == Told(route, mismatches);
    var o: nat :| o < |p.orders| && Obstacle(cfg, p, w, o, clock.scan(o), route);
    var v :| v != w && Best(cfg, p, v, p.orders[o].terms, clock.scan(o));
    assert EligibleFor(cfg, p, v, p.orders[o].terms, clock.scan(o));
  }

  lemma UnfitHasReason(cfg: Settings, p: Plane, w: string, o: nat, now: int) returns (x: Reason)
    requires InStatus(p, o, {Queued}) && w in p.workers && !EligibleFor(cfg, p, w, p.orders[o].terms, now)
    ensures Against(cfg, p, w, p.orders[o].terms, now, x)
  {
    EligibleIff(cfg, w, p.workers[w], ProfileOf(p, w), p.orders[o].terms, now);
    x :| Holds(x, cfg, w, p.workers[w], ProfileOf(p, w), p.orders[o].terms, now);
  }

  /** A queued order that is not won leaves an obstacle or a reason behind. */
  lemma QueuedIsNoticed(
    cfg: Settings, p: Plane, w: string, clock: Clock, route: Option<Refusal>, mismatches: seq<Reason>, o: nat)
    requires FirstObstacle(cfg, p, w, clock, |p.orders|, route) && Collected(cfg, p, w, clock, |p.orders|, mismatches)
    requires w in p.workers && InStatus(p, o, {Queued}) && !Wins(cfg, p, w, o, clock.scan(o))
    ensures route.Some? || mismatches != []
  {
    if route.None? {
      assert Obstacle(cfg, p, w, o, clock.scan(o), None);
      var x := UnfitHasReason(cfg, p, w, o, clock.scan(o));
      assert x in mismatches;
    }
  }

  /** The answer that nothing is queued is given exactly if nothing is. */
  lemma NothingQueuedIsTrue(
    cfg: Settings, p: Plane, w: string, clock: Clock, mismatches: seq<Reason>, why: Refusal, q: Plane)
    requires Scanned(cfg, p, w, clock, NotGiven(why, mismatches), q) && w in p.workers && why != ReservationConflict
    ensures why == NothingQueued <==> forall o: nat :: !InStatus(p, o, {Queued})
  {
    var route :| FirstObstacle(cfg, p, w, clock, |p.orders|, route) && why == Told(route, mismatches);
    EmptyIff(mismatches);
    if o: nat :| InStatus(p, o, {Queued}) {
      QueuedIsNoticed(cfg, p, w, clock, route, mismatches, o);
    }
  }

  /** A worker is told that capabilities are missing exactly if something is queued and all
      of it is first-available work, not pinned, that it lacks capabilities for and nothing
      else. That a repository is not served is always told as the obstacle itself, so the
      plain repository answer is never given. */
  lemma CapabilitiesMissingIsTrue(
    cfg: Settings, p: Plane, w: string, clock: Clock, mismatches: seq<Reason>, why: Refusal, q: Plane)
    requires Scanned(cfg, p, w, clock, NotGiven(why, mismatches), q) && w in p.workers && why != ReservationConflict
    ensures why != RepositoryMismatch
    ensures why == CapabilitiesMissing <==>
            && (exists o: nat :: InStatus(p, o, {Queued}))
            && (forall o: nat :: InStatus(p, o, {Queued}) ==> OnlyCapabilities(cfg, p, w, o, clock.scan(o)))
  {
    var route :| FirstObstacle(cfg, p, w, clock, |p.orders|, route) && why == Told(route, mismatches);
    EmptyIff(mismatches);
    forall o: nat | InStatus(p, o, {Queued}) && Obstacle(cfg, p, w, o, clock.scan(o), None)
      ensures OnlyCapabilities(cfg, p, w, o, clock.scan(o))
    {
      NoObstacleMeans(cfg, p, w, o, clock.scan(o));
    }
    if route.Some? {
      var o: nat :| o < |p.orders| && Obstacle(cfg, p, w, o, clock.scan(o), route);
      if OnlyCapabilities(cfg, p, w, o, clock.scan(o)) {
        OnlyCapabilitiesIsNoObstacle(cfg, p, w, o, clock.scan(o), route);
      }
    } else {
      if o: nat :| InStatus(p, o, {Queued}) {
        QueuedIsNoticed(cfg, p, w, clock, route, mismatches, o);
      }
    }
  }

  /** The worker cannot take queued order `o` for want of capabilities alone. */
  ghost predicate OnlyCapabilities(cfg: Settings, p: Plane, w: string, o: nat, now: int) {
    && InStatus(p, o, {Queued})
    && p.orders[o].terms.routing == FirstAvailable && p.orders[o].terms.preferred.None?
    && !EligibleFor(cfg, p, w, p.orders[o].terms, now)
    && (forall x :: Against(cfg, p, w, p.orders[o].terms, now, x) ==> x.CapabilityMismatch?)
  }

  lemma NoObstacleMeans(cfg: Settings, p: Plane, w: string, o: nat, now: int)
    requires Obstacle(cfg, p, w, o, now, None) && w in p.workers && !Wins(cfg, p, w, o, now)
    ensures OnlyCapabilities(cfg, p, w, o, now)
  {
    var terms := p.orders[o].terms;
    var u :| Reports(cfg, p, w, terms, now, u) && u.NoCapableWorkers?;
    var xs :| Lists(cfg, p, w, terms, now, xs) && u == UnavailableRouteReason(xs, terms.preferred.Some?);
    ReportIsLeast(xs, terms.preferred.Some?);
    forall x | Against(cfg, p, w, terms, now, x)
      ensures x.CapabilityMismatch?
    {
      assert x in xs;
    }
  }

  lemma OnlyCapabilitiesIsNoObstacle(
    cfg: Settings, p: Plane, w: string, o: nat, now: int, route: Option<Refusal>)
    requires OnlyCapabilities(cfg, p, w, o, now) && Obstacle(cfg, p, w, o, now, route)
    ensures route.None?
  {
    var terms := p.orders[o].terms;
    var u :| && Reports(cfg, p, w, terms, now, u)
             && route == if u.NoCapableWorkers? then None else Some(RouteUnavailable(u));
    var xs :| Lists(cfg, p, w, terms, now, xs) && u == UnavailableRouteReason(xs, terms.preferred.Some?);
    ReportIsLeast(xs, false);
    assert forall x :: x in xs ==> Against(cfg, p, w, terms, now, x);
  }

  /** An eligible worker whose rivals have all been silent for longer than the window is
      given work at its next poll. */
  lemma QuietRivalsMeanWork(cfg: Settings, p: Plane, w: string, clock: Clock, o: nat, x: Assignment, q: Plane)
    requires Scanned(cfg, p, w, clock, x, q)
    requires InStatus(p, o, {Queued}) && EligibleFor(cfg, p, w, p.orders[o].terms, clock.scan(o))
    requires forall v :: v in p.workers && v != w && p.workers[v].lastPoll.Some? ==>
               p.workers[v].lastPoll.value < clock.scan(o) - cfg.pollFreshness
    requires forall k: nat :: !RevisionExhausted(p, w, k)
    ensures x.Given? && x.order <= o
  {
    QuietRivalsDoNotBlock(cfg, p, w, o, clock.scan(o));
  }

  /** The route recorded for an assignment: who got the order, at which revision and cost of
      its profile if the order is routed, what is reserved, how many workers were eligible,
      whether the order was pinned, and when it was decided. */
  ghost predicate RouteRecorded(cfg: Settings, p: Plane, w: string, o: nat, now: int, route: Route)
    requires o < |p.orders|
  {
    var terms := p.orders[o].terms;
    && route.worker == w && route.decidedAt == now && route.pinned == terms.preferred.Some?
    && route.eligible == |set v | v in p.workers && EligibleFor(cfg, p, v, terms, now)|
    && if terms.routing == CheapestCapable then
         && w in p.profiles && route.cost == Some(p.profiles[w].cost)
         && route.revision == Some(p.profiles[w].revision + 1) && route.reserved == terms.requiredQuota
       else route.cost.None? && route.revision.None? && route.reserved == 0
  }

  /** The tables after an assignment, apart from the route itself. */
  ghost predicate AssignmentRecorded(p: Plane, q: Plane, w: string, run: nat, o: nat, now: int, until: int) {
    && o < |p.orders| && w in p.workers && run == |p.runs| && |q.runs| == |p.runs| + 1
    && var order, route, worker := p.orders[o], q.runs[run].route, p.workers[w];
    && var quota := if route.reserved > 0 then Reserved else NotRequired;
    // the order is assigned on its next attempt
    && q.orders == p.orders[o := order.(status := Assigned, assignedAt := Some(now), attempts := order.attempts + 1,
                                        route := Some(route), quotaState := Some(quota))]
    // a new run, under lease
    && q.runs[..run] == p.runs
    && q.runs[run].order == o && q.runs[run].worker == w && q.runs[run].attempt == order.attempts + 1
    && q.runs[run].status == RunAssigned && q.runs[run].startedAt.None? && q.runs[run].finishedAt.None?
    && q.runs[run].quotaState == quota && q.runs[run].leaseExpiresAt == until
    && q.runs[run].artifacts == [] && q.runs[run].evidence.None? && q.runs[run].retention.None?
    && q.runs[run].reuse.decision == (if order.terms.reuse == Never then NotRequested else Pending)
    && q.runs[run].reuse.identity.None? && q.runs[run].reuse.identityHash.None?
    && q.runs[run].reuse.source.None? && q.runs[run].reuse.sourceFingerprint.None?
    && q.runs[run].reuse.candidate.None?
    && q.leases == p.leases[run := Lease(o, w, until)]
    // one more slot taken; full means busy
    && q.workers == p.workers[w := worker.(active := worker.active + 1,
                                           status := if worker.active + 1 < worker.maxConcurrency then Online
                                                     else Busy)]
    // the reserved units leave the profile of a routed order
    && (if order.terms.routing == CheapestCapable then
          && w in p.profiles
          && q.profiles == p.profiles[w := p.profiles[w].(remaining := p.profiles[w].remaining - route.reserved,
                                                          revision := p.profiles[w].revision + 1)]
        else q.profiles == p.profiles)
    && q.ledger == p.ledger
  }

  /** What an assignment leaves behind, column by column. */
  lemma AssignmentIsRecorded(cfg: Settings, p: Plane, w: string, clock: Clock, run: nat, o: nat, q: Plane)
    requires Scanned(cfg, p, w, clock, Given(run, o), q)
    ensures AssignmentRecorded(p, q, w, run, o, clock.scan(o), clock.scan(o) + cfg.leaseSeconds)
    ensures o < |p.orders| && run < |q.runs| && RouteRecorded(cfg, p, w, o, clock.scan(o), q.runs[run].route)
  {
    assert q.runs[..run] == p.runs;
  }

  /** A routed order goes only to the unique best eligible worker, and the recorded cost
      respects the order's ceiling. */
  lemma RoutedWorkGoesToTheBest(cfg: Settings, p: Plane, w: string, clock: Clock, run: nat, o: nat, q: Plane)
    requires Scanned(cfg, p, w, clock, Given(run, o), q) && p.orders[o].terms.routing == CheapestCapable
    ensures forall v :: Best(cfg, p, v, p.orders[o].terms, clock.scan(o)) <==> v == w
    ensures run < |q.runs| && q.runs[run].worker == w && w in p.profiles
    ensures q.runs[run].route.cost == Some(p.profiles[w].cost)
    ensures p.orders[o].terms.maximumCost.Some? ==> q.runs[run].route.cost.value <= p.orders[o].terms.maximumCost.value
    ensures forall v :: v in p.workers && EligibleFor(cfg, p, v, p.orders[o].terms, clock.scan(o)) ==>
              q.runs[run].route.cost.value <= p.profiles[v].cost
  {
    forall v | Best(cfg, p, v, p.orders[o].terms, clock.scan(o))
      ensures v == w
    {
      OneBest(cfg, p, w, v, p.orders[o].terms, clock.scan(o));
    }
  }
}
