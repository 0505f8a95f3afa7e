/**
 The execution plane as a transition system. Every committed service transaction is a
 sequence of these events; an event whose guard fails leaves the plane as it was, which is
 what the savepoint and request rollbacks of the service achieve.
 */
module Events {
  import opened Options
  import opened Lifecycle
  import opened Tables
  import opened Reuse

  datatype Event =
    | CreateOrder(terms: Terms)
    | Approve(order: nat, queue: bool, approvable: bool, now: int)
    | Queue(order: nat, now: int)
    | Reject(order: nat, now: int)
    | ExpireOrder(order: nat, now: int)
    | Cancel(order: nat, now: int)
    | Register(worker: string, registration: Registration, now: int)
    | WorkerBeat(worker: string, status: Option<WorkerStatus>, now: int)
    | Poll(worker: string, now: int)
    | CreateProfile(worker: string, draft: ProfileDraft)
    | ReplaceProfile(worker: string, expected: int, draft: ProfileDraft)
    | ResetQuota(worker: string, expected: int, remaining: int, resetAt: int)
    | Claim(worker: string, order: nat, seen: Option<Profile>, eligible: nat, now: int, expiresAt: int)
    | RunBeat(run: nat, worker: string, now: int, expiresAt: int)
    | Resolve(run: nat, worker: string, identity: Identity, identityHash: string, now: int)
    | Complete(run: nat, worker: string, completion: Completion, now: int)
    | Lapse(run: nat, now: int)

  // ----- work orders without a lease -----

  predicate ValidTerms(p: Plane, terms: Terms) {
    && terms.requiredQuota <= MAX_ROUTING_INTEGER
    && (terms.maximumCost.Some? ==> 0 <= terms.maximumCost.value <= MAX_ROUTING_INTEGER)
    && (terms.preferred.Some? ==> terms.preferred.value in p.workers)
  }

  function NewOrder(terms: Terms): WorkOrder {
    WorkOrder(terms, PendingApproval, None, None, None, None, None, 0, None, None)
  }

  predicate InStatus(p: Plane, o: nat, from: set<OrderStatus>) {
    o < |p.orders| && p.orders[o].status in from
  }

  function ApprovedOrder(order: WorkOrder, queue: bool, now: int): WorkOrder {
    order.(status := if queue then Queued else Approved,
           approvedAt := Some(now),
           queuedAt := if queue then Some(now) else None)
  }

  function QueuedOrder(order: WorkOrder, now: int): WorkOrder {
    order.(status := Queued, queuedAt := Some(now))
  }

  function EndedOrder(order: WorkOrder, status: OrderStatus, now: int): WorkOrder {
    order.(status := status, finishedAt := Some(now))
  }

  function WithOrder(p: Plane, o: nat, order: WorkOrder): Plane
    requires o < |p.orders|
  {
    p.(orders := p.orders[o := order])
  }

  // ----- workers -----

  /** A worker may be online only while it has a free slot. */
  function Availability(requested: WorkerStatus, active: nat, maxConcurrency: nat): WorkerStatus {
    if requested in {Busy, Draining, Offline} then requested
    else if active >= maxConcurrency then Busy
    else Online
  }

  function Registered(p: Plane, w: string, r: Registration, now: int): Worker {
    if w !in p.workers then
      Worker(r.status, r.maxConcurrency, 0, now, None, r.repositories, r.capabilities)
    else
      p.workers[w].(maxConcurrency := r.maxConcurrency,
                    repositories := r.repositories,
                    capabilities := r.capabilities,
                    status := Availability(r.status, p.workers[w].active, r.maxConcurrency),
                    lastHeartbeat := now)
  }

  function Beaten(worker: Worker, status: Option<WorkerStatus>, now: int): Worker {
    worker.(lastHeartbeat := now,
            status := if status.None? then worker.status
                      else Availability(status.value, worker.active, worker.maxConcurrency))
  }

  function WithWorker(p: Plane, w: string, worker: Worker): Plane {
    p.(workers := p.workers[w := worker])
  }

  function TakenSlot(worker: Worker): Worker {
    worker.(active := worker.active + 1,
            status := if worker.active + 1 >= worker.maxConcurrency then Busy else Online)
  }

  function FreedSlot(worker: Worker): Worker
    requires worker.active > 0
  {
    worker.(active := worker.active - 1,
            status := if worker.status in {Draining, Offline} then worker.status
                      else if worker.active - 1 >= worker.maxConcurrency then Busy
                      else Online)
  }

  // ----- operator-owned routing profiles -----

  predicate ValidRevision(revision: int) {
    1 <= revision <= MAX_ROUTING_INTEGER
  }

  predicate ValidDraft(d: ProfileDraft) {
    && 0 <= d.cost <= MAX_ROUTING_INTEGER
    && 0 <= d.capacity <= MAX_ROUTING_INTEGER
    && 0 <= d.remaining <= MAX_ROUTING_INTEGER
    && 0 <= d.priority <= MAX_ROUTING_INTEGER
    && d.remaining <= d.capacity
  }

  predicate NoneReserved(runs: seq<Run>, w: string) {
    forall r :: 0 <= r < |runs| && runs[r].worker == w ==> runs[r].quotaState != Reserved
  }

  function Drafted(d: ProfileDraft, revision: int): Profile {
    Profile(d.enabled, d.cost, d.capacity, d.remaining, d.resetAt, d.priority, revision)
  }

  /** An operator write starts a new accounting period for the profile. */
  function WithProfile(p: Plane, w: string, profile: Profile): Plane {
    p.(profiles := p.profiles[w := profile],
       ledger := p.ledger[w := Ledger(profile.remaining, |p.runs|)])
  }

  predicate CanCreateProfile(p: Plane, w: string, d: ProfileDraft) {
    w in p.workers && w !in p.profiles && ValidDraft(d)
  }

  /** The compare-and-set of a replacement, without the earlier reads that guard it. */
  predicate ReplaceCas(p: Plane, w: string, expected: int) {
    w in p.profiles && p.profiles[w].revision == expected && expected < MAX_ROUTING_INTEGER
  }

  predicate CanReplaceProfile(p: Plane, w: string, expected: int, d: ProfileDraft) {
    ValidRevision(expected) && ReplaceCas(p, w, expected) && NoneReserved(p.runs, w) && ValidDraft(d)
  }

  predicate ResetCas(p: Plane, w: string, expected: int, remaining: int) {
    ReplaceCas(p, w, expected) && p.profiles[w].capacity >= remaining
  }

  /** Quota resets move forward in time; a reset at the stored instant is a replay. */
  predicate ResetIsNewer(profile: Profile, resetAt: int) {
    profile.resetAt.None? || profile.resetAt.value < resetAt
  }

  predicate CanResetQuota(p: Plane, w: string, expected: int, remaining: int, resetAt: int) {
    && ValidRevision(expected)
    && 0 <= remaining <= MAX_ROUTING_INTEGER
    && ResetCas(p, w, expected, remaining)
    && ResetIsNewer(p.profiles[w], resetAt)
    && NoneReserved(p.runs, w)
  }

  function ResetProfile(profile: Profile, remaining: int, resetAt: int): Profile {
    profile.(remaining := remaining, resetAt := Some(resetAt), revision := profile.revision + 1)
  }

  // ----- claiming queued work -----

  predicate CanTakeSlot(p: Plane, w: string) {
    w in p.workers && p.workers[w].status == Online && p.workers[w].active < p.workers[w].maxConcurrency
  }

  /** Positive reservations leave room for the revision bump of their own release. */
  predicate CanReserve(p: Plane, w: string, expected: int, units: nat) {
    && w in p.profiles
    && p.profiles[w].enabled
    && p.profiles[w].revision == expected
    && expected <= MAX_ROUTING_INTEGER - (if units > 0 then 2 else 1)
    && units <= p.profiles[w].remaining <= p.profiles[w].capacity
  }

  function Debited(profile: Profile, units: nat): Profile {
    profile.(remaining := profile.remaining - units, revision := profile.revision + 1)
  }

  function Credited(profile: Profile, units: nat): Profile {
    profile.(remaining := profile.remaining + units, revision := profile.revision + 1)
  }

  function ClaimUnits(p: Plane, o: nat, seen: Option<Profile>): nat
    requires o < |p.orders|
  {
    if seen.Some? then p.orders[o].terms.requiredQuota else 0
  }

  predicate CanClaim(p: Plane, w: string, o: nat, seen: Option<Profile>) {
    && CanTakeSlot(p, w)
    && InStatus(p, o, {Queued})
    && (seen.Some? ==> CanReserve(p, w, seen.value.revision, ClaimUnits(p, o, seen)))
  }

  function ClaimRoute(p: Plane, w: string, o: nat, seen: Option<Profile>, eligible: nat, now: int): Route
    requires o < |p.orders|
  {
    Route(w,
          if seen.Some? then Some(seen.value.revision + 1) else None,
          if seen.Some? then Some(seen.value.cost) else None,
          ClaimUnits(p, o, seen),
          eligible,
          p.orders[o].terms.preferred.Some?,
          now)
  }

  function InitialQuota(units: nat): QuotaState {
    if units > 0 then Reserved else NotRequired
  }

  function ClaimedOrder(order: WorkOrder, route: Route, now: int): WorkOrder {
    order.(status := Assigned, assignedAt := Some(now), attempts := order.attempts + 1,
           route := Some(route), quotaState := Some(InitialQuota(route.reserved)))
  }

  function NewRun(order: WorkOrder, o: nat, route: Route, expiresAt: int): Run {
    Run(o, route.worker, order.attempts, RunAssigned, None, None, expiresAt, route, InitialQuota(route.reserved),
        ReuseRecord(if order.terms.reuse == Never then NotRequested else Pending, None, None, None, None, None),
        [], None, None)
  }

  function Claimed(p: Plane, w: string, o: nat, seen: Option<Profile>, eligible: nat, now: int, expiresAt: int): Plane
    requires CanClaim(p, w, o, seen)
  {
    var route := ClaimRoute(p, w, o, seen, eligible, now);
    var order := ClaimedOrder(p.orders[o], route, now);
    p.(orders := p.orders[o := order],
       runs := p.runs + [NewRun(order, o, route, expiresAt)],
       leases := p.leases[|p.runs| := Lease(o, w, expiresAt)],
       workers := p.workers[w := TakenSlot(p.workers[w])],
       profiles := if seen.Some? then p.profiles[w := Debited(p.profiles[w], route.reserved)] else p.profiles)
  }

  // ----- live leases -----

  /** A lease whose run and order rows exist. */
  predicate Leased(p: Plane, r: nat) {
    && r in p.leases
    && r < |p.runs|
    && p.leases[r].order < |p.orders|
    && p.leases[r].worker in p.workers
  }

  predicate OwnsLive(p: Plane, r: nat, w: string, now: int) {
    r in p.leases && p.leases[r].worker == w && p.leases[r].expiresAt >= now
  }

  function SpentQuota(q: QuotaState): QuotaState {
    if q == Reserved then Consumed else q
  }

  function BeatenRun(run: Run, now: int, expiresAt: int): Run {
    run.(status := RunRunning,
         startedAt := if run.status == RunAssigned then Some(now) else run.startedAt,
         leaseExpiresAt := expiresAt,
         quotaState := SpentQuota(run.quotaState))
  }

  function BeatenOrder(order: WorkOrder, run: Run, now: int): WorkOrder {
    order.(status := Running,
           startedAt := if order.status == Assigned then Some(now) else order.startedAt,
           quotaState := if run.quotaState == Reserved then Some(Consumed) else order.quotaState)
  }

  /** The first beat of a run starts it and spends its reservation. */
  function RunBeaten(p: Plane, r: nat, now: int, expiresAt: int): Plane
    requires Leased(p, r)
  {
    var o := p.leases[r].order;
    p.(leases := p.leases[r := p.leases[r].(expiresAt := expiresAt)],
       runs := p.runs[r := BeatenRun(p.runs[r], now, expiresAt)],
       orders := p.orders[o := BeatenOrder(p.orders[o], p.runs[r], now)])
  }

  function WithReuse(p: Plane, r: nat, record: ReuseRecord): Plane
    requires r < |p.runs|
  {
    p.(runs := p.runs[r := p.runs[r].(reuse := record)])
  }

  predicate SourcesKnown(p: Plane) {
    forall s :: 0 <= s < |p.runs| ==> p.runs[s].order < |p.orders|
  }

  predicate CanResolve(
    p: Plane, hash: Identity -> string, r: nat, w: string, identity: Identity, identityHash: string, now: int)
  {
    && SourcesKnown(p)
    && hash(identity) == identityHash
    && Leased(p, r)
    && OwnsLive(p, r, w, now)
    && p.orders[p.leases[r].order].terms.reuse != Never
    && IdentityFits(p.orders[p.leases[r].order].terms, identity)
  }

  function LookedUp(
    p: Plane, hash: Identity -> string, r: nat, w: string, identity: Identity, identityHash: string,
    now: int): Option<ReuseCandidate>
    requires CanResolve(p, hash, r, w, identity, identityHash, now)
  {
    NewestCandidate(p, hash, r, w, p.orders[p.leases[r].order].terms, identity, identityHash, now,
                    |p.runs|, MAX_EXACT_REUSE_CANDIDATES)
  }

  /** The reuse columns a lookup leaves behind. */
  function Resolved(
    p: Plane, hash: Identity -> string, r: nat, w: string, identity: Identity, identityHash: string, now: int)
    : ReuseRecord
    requires CanResolve(p, hash, r, w, identity, identityHash, now)
  {
    var c := LookedUp(p, hash, r, w, identity, identityHash, now);
    ResolvedRecord(p.runs[r].reuse, identity, identityHash, c)
  }

  // ----- closing a lease -----

  /** How a lease ends: the run's outcome, what becomes of the order, and the final
      evidence columns. */
  datatype Closing = Closing(
    status: RunStatus,
    requeue: bool,
    reuse: ReuseRecord,
    artifacts: seq<Artifact>,
    evidence: Option<Evidence>,
    retention: Option<int>)

  function Refunded(q: QuotaState): QuotaState {
    if q == Reserved then Released else q
  }

  function ClosedRun(run: Run, c: Closing, now: int): Run {
    run.(status := c.status, finishedAt := Some(now), quotaState := Refunded(run.quotaState),
         reuse := c.reuse, artifacts := c.artifacts, evidence := c.evidence, retention := c.retention)
  }

  function ClosedOrder(order: WorkOrder, run: Run, c: Closing, now: int): WorkOrder {
    var settled := if run.quotaState == Reserved then order.(quotaState := Some(Released)) else order;
    if c.requeue then QueuedOrder(settled, now) else EndedOrder(settled, OrderStatusOf(c.status), now)
  }

  /** Whether a run still has quota to give back. */
  predicate Refundable(run: Run) {
    run.quotaState == Reserved && run.route.reserved > 0
  }

  predicate CanRefund(p: Plane, w: string, units: nat) {
    && w in p.profiles
    && p.profiles[w].revision < MAX_ROUTING_INTEGER
    && p.profiles[w].remaining <= p.profiles[w].capacity - units
  }

  /** Every guard met while a lease is being closed. */
  predicate CanClose(p: Plane, r: nat) {
    && Leased(p, r)
    && p.workers[p.leases[r].worker].active > 0
    && (Refundable(p.runs[r]) ==> CanRefund(p, p.leases[r].worker, p.runs[r].route.reserved))
  }

  function Closed(p: Plane, r: nat, c: Closing, now: int): Plane
    requires CanClose(p, r)
  {
    var run := p.runs[r];
    var lease := p.leases[r];
    p.(leases := p.leases - {r},
       runs := p.runs[r := ClosedRun(run, c, now)],
       orders := p.orders[lease.order := ClosedOrder(p.orders[lease.order], run, c, now)],
       workers := p.workers[lease.worker := FreedSlot(p.workers[lease.worker])],
       profiles := if Refundable(run)
                   then p.profiles[lease.worker := Credited(p.profiles[lease.worker], run.route.reserved)]
                   else p.profiles)
  }

  function LapseClosing(run: Run): Closing {
    Closing(RunTimedOut, true, run.reuse, [], None, run.retention)
  }

  function FinishClosing(completion: Completion, record: ReuseRecord): Closing {
    Closing(completion.status, false, record, completion.artifacts, completion.evidence, completion.retention)
  }

  predicate CanLapse(p: Plane, r: nat, now: int) {
    CanClose(p, r) && p.leases[r].expiresAt < now
  }

  function Lapsed(p: Plane, r: nat, now: int): Plane
    requires CanLapse(p, r, now)
  {
    Closed(p, r, LapseClosing(p.runs[r]), now)
  }

  /** A completion that passes evidence and reuse validation. */
  predicate Admissible(p: Plane, hash: Identity -> string, r: nat, completion: Completion) {
    && Leased(p, r)
    && p.runs[r].order == p.leases[r].order
    && TerminalRun(completion.status)
    && EvidenceRefusal(p, r, completion).None?
    && CompletionVerdict(p.orders[p.leases[r].order].terms, p.runs[r], hash, completion).Accepted?
  }

  /** How an admissible completion closes the lease. */
  function ClosingFor(p: Plane, hash: Identity -> string, r: nat, completion: Completion): Closing
    requires Admissible(p, hash, r, completion)
  {
    var terms := p.orders[p.leases[r].order].terms;
    FinishClosing(completion, CompletionVerdict(terms, p.runs[r], hash, completion).record)
  }

  function Finished(p: Plane, hash: Identity -> string, r: nat, completion: Completion, now: int): Plane
    requires CanClose(p, r) && Admissible(p, hash, r, completion)
  {
    Closed(p, r, ClosingFor(p, hash, r, completion), now)
  }

  predicate CanComplete(p: Plane, hash: Identity -> string, r: nat, w: string, completion: Completion, now: int) {
    CanClose(p, r) && OwnsLive(p, r, w, now) && Admissible(p, hash, r, completion)
  }

  /** The lease of an order, if it has one. */
  predicate LeaseOf(leases: map<nat, Lease>, o: nat, r: nat) {
    r in leases && leases[r].order == o
  }

  ghost predicate CanCancelLeased(p: Plane, hash: Identity -> string, o: nat, r: nat) {
    && LeaseOf(p.leases, o, r)
    && InStatus(p, o, {Assigned, Running})
    && CanClose(p, r)
    && Admissible(p, hash, r, CANCELLATION)
  }

  ghost function AfterCancel(p: Plane, hash: Identity -> string, o: nat, now: int): Plane {
    if InStatus(p, o, {PendingApproval, Approved, Queued}) then
      WithOrder(p, o, EndedOrder(p.orders[o], Cancelled, now))
    else if r: nat :| CanCancelLeased(p, hash, o, r) then
      Finished(p, hash, r, CANCELLATION, now)
    else p
  }

  // ----- the transition function -----

  ghost function Apply(hash: Identity -> string, p: Plane, e: Event): Plane {
    match e
    case CreateOrder(terms) =>
      if ValidTerms(p, terms) then p.(orders := p.orders + [NewOrder(terms)]) else p
    case Approve(o, queue, approvable, now) =>
      if InStatus(p, o, {PendingApproval}) && approvable
      then WithOrder(p, o, ApprovedOrder(p.orders[o], queue, now)) else p
    case Queue(o, now) =>
      if InStatus(p, o, {Approved}) then WithOrder(p, o, QueuedOrder(p.orders[o], now)) else p
    case Reject(o, now) =>
      if InStatus(p, o, {PendingApproval}) then WithOrder(p, o, EndedOrder(p.orders[o], Rejected, now)) else p
    case ExpireOrder(o, now) =>
      if InStatus(p, o, {Approved, Queued}) then WithOrder(p, o, EndedOrder(p.orders[o], Expired, now)) else p
    case Cancel(o, now) => AfterCancel(p, hash, o, now)
    case Register(w, r, now) =>
      if !r.repositoryWrite && r.maxConcurrency >= 1 then WithWorker(p, w, Registered(p, w, r, now)) else p
    case WorkerBeat(w, status, now) =>
      if w in p.workers then WithWorker(p, w, Beaten(p.workers[w], status, now)) else p
    case Poll(w, now) =>
      if w in p.workers then WithWorker(p, w, p.workers[w].(lastPoll := Some(now))) else p
    case CreateProfile(w, d) =>
      if CanCreateProfile(p, w, d) then WithProfile(p, w, Drafted(d, 1)) else p
    case ReplaceProfile(w, expected, d) =>
      if CanReplaceProfile(p, w, expected, d) then WithProfile(p, w, Drafted(d, expected + 1)) else p
    case ResetQuota(w, expected, remaining, resetAt) =>
      if CanResetQuota(p, w, expected, remaining, resetAt)
      then WithProfile(p, w, ResetProfile(p.profiles[w], remaining, resetAt)) else p
    case Claim(w, o, seen, eligible, now, expiresAt) =>
      if CanClaim(p, w, o, seen) then Claimed(p, w, o, seen, eligible, now, expiresAt) else p
    case RunBeat(r, w, now, expiresAt) =>
      if Leased(p, r) && OwnsLive(p, r, w, now) then RunBeaten(p, r, now, expiresAt) else p
    case Resolve(r, w, identity, identityHash, now) =>
      if CanResolve(p, hash, r, w, identity, identityHash, now)
      then WithReuse(p, r, Resolved(p, hash, r, w, identity, identityHash, now))
      else p
    case Complete(r, w, completion, now) =>
      if CanComplete(p, hash, r, w, completion, now) then Finished(p, hash, r, completion, now) else p
    case Lapse(r, now) =>
      if CanLapse(p, r, now) then Lapsed(p, r, now) else p
  }

  /** The plane after a whole run of events. */
  ghost function Trace(hash: Identity -> string, p: Plane, es: seq<Event>): Plane
    decreases |es|
  {
    if es == [] then p else Trace(hash, Apply(hash, p, es[0]), es[1..])
  }

  lemma {:induction false} TraceAppends(hash: Identity -> string, p: Plane, es: seq<Event>, fs: seq<Event>)
    ensures Trace(hash, p, es + fs) == Trace(hash, Trace(hash, p, es), fs)
    decreases |es|
  {
    if es == [] {
      assert es + fs == fs;
    } else {
      assert (es + fs)[0] == es[0] && (es + fs)[1..] == es[1..] + fs;
      TraceAppends(hash, Apply(hash, p, es[0]), es[1..], fs);
    }
  }
}
