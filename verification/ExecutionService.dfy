/**
 The execution service: each call is one request transaction over the guarded updates of
 the repository, and a request that fails leaves the tables as they were.
 */
module Service {
  import opened Options
  import opened Sequences
  import opened Lifecycle
  import opened Tables
  import opened Reuse
  import opened Events
  import opened PlaneInvariant
  import opened PlaneSteps
  import opened PlaneTheorems
  import opened ReuseTheorems
  import opened EvidenceTheorems
  import opened Lookup
  import opened LeaseLife
  import opened Repository
  import opened Drafts
  import opened Routing
  import opened Sweep
  import opened Selection
  import opened Checkout

  datatype Failure =
    | NotFound
    | WrongStatus
    | NotApprovable
    | InvalidDraft
    | WritePolicy
    | UnknownManifest
    | UnsupportedParameters
    | AlreadyExists
    | RevisionOutOfBounds
    | ActiveReservations
    | RevisionConflict
    | ResetIsStale
    | ResetConflict
    | ExceedsCapacity
    | OrderIsTerminal
    | NotOwned
    | LeaseExpired
    | NotTerminalOutcome
    | EvidenceDeclined
    | ReuseDeclined
    | IdentityMismatch
    | ReuseNotAllowed
    // the branches that report a half-finished transition
    | LeaseTransition
    | RunNotActive
    | RecordTransition
    | StaleLeaseConflict

  datatype Outcome<T> = Done(value: T) | Refused(failure: Failure)

  ghost predicate Sound(hash: Identity -> string, p: Plane) {
    Inv(p) && ReuseInv(p, hash)
  }

  // ----- closing a lease, update by update -----

  /** Column values of the run update; the quota state is settled by its own update. */
  function FinishPatch(run: Run, c: Closing, now: int): Run {
    run.(status := c.status, finishedAt := Some(now), reuse := c.reuse,
         artifacts := c.artifacts, evidence := c.evidence, retention := c.retention)
  }

  function OrderPatch(order: WorkOrder, c: Closing, now: int): WorkOrder {
    if c.requeue then QueuedOrder(order, now) else EndedOrder(order, OrderStatusOf(c.status), now)
  }

  /** The run and order rows the guarded updates expect. */
  predicate Closable(p: Plane, r: nat) {
    && Leased(p, r)
    && ActiveRun(p.runs[r].status)
    && ActiveOrder(p.orders[p.leases[r].order].status)
    && p.workers[p.leases[r].worker].active > 0
    && (p.runs[r].quotaState == Reserved ==>
          p.runs[r].route.reserved > 0 && p.orders[p.leases[r].order].quotaState == Some(Reserved))
  }

  lemma LeasesAreClosable(p: Plane, r: nat)
    requires Inv(p) && r in p.leases
    ensures Closable(p, r) && p.runs[r].order == p.leases[r].order && p.runs[r].quotaState != Released
  {
    assert LeaseOk(p.orders, p.runs, p.leases, r) && RunOk(p, r);
    HolderIsBusy(p, r);
  }

  function Unleased(p: Plane, r: nat): Plane {
    p.(leases := p.leases - {r})
  }

  /** The five updates add up to closing the lease. */
  lemma UpdatesClose(p: Plane, r: nat, c: Closing, now: int)
    requires Closable(p, r)
    ensures var o, w := p.leases[r].order, p.leases[r].worker;
            CanReleaseQuota(Unleased(p, r), r, o, w) <==> CanClose(p, r)
    ensures var o, w := p.leases[r].order, p.leases[r].worker;
            CanClose(p, r) ==>
              var q := QuotaReleased(Unleased(p, r), r, o, w);
              && r < |q.runs| && o < |q.orders| && w in q.workers && q.workers[w] == p.workers[w]
              && Closed(p, r, c, now) == q.(runs := q.runs[r := FinishPatch(q.runs[r], c, now)],
                                            orders := q.orders[o := OrderPatch(q.orders[o], c, now)],
                                            workers := q.workers[w := FreedSlot(q.workers[w])])
  {
  }

  /** An event keeps a sound plane sound. */
  lemma Advance(hash: Identity -> string, p: Plane, e: Event)
    requires Sound(hash, p)
    ensures Sound(hash, Apply(hash, p, e))
  {
    EventKeepsInv(hash, p, e);
    EventKeepsReuse(hash, p, e);
  }

  /** An order ends with the outcome of its run. */
  predicate SameOutcome(order: OrderStatus, run: RunStatus) {
    || (order == Succeeded && run == RunSucceeded) || (order == Failed && run == RunFailed)
    || (order == TimedOut && run == RunTimedOut) || (order == Cancelled && run == RunCancelled)
  }

  /** What a completion leaves on lease, run and order, and on no other of them: the outcome,
      evidence and reuse columns on the run, the outcome on the order, no lease. */
  ghost predicate RowsReported(p: Plane, q: Plane, r: nat, completion: Completion, now: int) {
    && r in p.leases && r < |p.runs| && |q.runs| == |p.runs| && |q.orders| == |p.orders|
    && var o, run := p.leases[r].order, p.runs[r];
    && o < |p.orders|
    && var unspent := run.startedAt.None? && run.route.reserved > 0;
    && q.leases == p.leases - {r}
    && q.runs[r] == run.(status := completion.status, finishedAt := Some(now),
                         evidence := completion.evidence, artifacts := completion.artifacts,
                         retention := completion.retention, reuse := RecordDue(p.orders[o].terms, run, completion),
                         quotaState := if unspent then Released else run.quotaState)
    && (forall k :: 0 <= k < |p.runs| && k != r ==> q.runs[k] == p.runs[k])
    && SameOutcome(q.orders[o].status, completion.status)
    && q.orders[o] == p.orders[o].(status := q.orders[o].status, finishedAt := Some(now),
                                   quotaState := if unspent then Some(Released) else p.orders[o].quotaState)
    && (forall k :: 0 <= k < |p.orders| && k != o ==> q.orders[k] == p.orders[k])
  }

  /** What the end of a lease leaves on workers and profiles: a freed slot, and unspent quota
      back on the profile. */
  ghost predicate CapacityReturned(p: Plane, q: Plane, r: nat) {
    && r in p.leases && r < |p.runs|
    && var w, run := p.leases[r].worker, p.runs[r];
    && w in p.workers
    && var worker := p.workers[w];
    && worker.active > 0
    && q.workers == p.workers[w := worker.(active := worker.active - 1,
                                           status := if worker.status in {Draining, Offline} then worker.status
                                                     else if worker.active <= worker.maxConcurrency then Online
                                                     else Busy)]
    && (if run.startedAt.None? && run.route.reserved > 0 then
          && w in p.profiles
          && q.profiles == p.profiles[w := p.profiles[w].(remaining := p.profiles[w].remaining + run.route.reserved,
                                                          revision := p.profiles[w].revision + 1)]
        else q.profiles == p.profiles)
    && q.ledger == p.ledger
  }

  ghost predicate Reported(p: Plane, q: Plane, r: nat, completion: Completion, now: int) {
    RowsReported(p, q, r, completion, now) && CapacityReturned(p, q, r)
  }

  lemma CloseReturns(p: Plane, r: nat, c: Closing, now: int)
    requires Inv(p) && CanClose(p, r)
    ensures CapacityReturned(p, Closed(p, r, c, now), r)
  {
    ActiveRows(p, r);
  }

  lemma CloseReports(p: Plane, r: nat, completion: Completion, now: int)
    requires Inv(p) && CanClose(p, r) && TerminalRun(completion.status)
    ensures var record := RecordDue(p.orders[p.leases[r].order].terms, p.runs[r], completion);
            RowsReported(p, Closed(p, r, FinishClosing(completion, record), now), r, completion, now)
  {
    ActiveRows(p, r);
  }

  lemma FinishReports(hash: Identity -> string, p: Plane, r: nat, completion: Completion, now: int)
    requires Inv(p) && CanClose(p, r) && Admissible(p, hash, r, completion)
    ensures Reported(p, Finished(p, hash, r, completion, now), r, completion, now)
  {
    CloseReturns(p, r, ClosingFor(p, hash, r, completion), now);
    CloseReports(p, r, completion, now);
    AcceptedWithoutObjection(p.orders[p.leases[r].order].terms, r, p.runs[r], hash, completion, InvalidDecision);
  }

  /** The evidence of a completion of run `r` is not that of this run, or is missing. */
  ghost predicate ForeignEvidence(p: Plane, r: nat, completion: Completion) {
    && r in p.leases && p.leases[r].order < |p.orders|
    && match completion.evidence
       case None => completion.artifacts != []
       case Some(e) =>
         || e.run != r || e.order != p.leases[r].order || e.worker != p.leases[r].worker
         || e.subject != p.orders[p.leases[r].order].terms.subject
         || e.status != completion.status || e.artifacts != completion.artifacts
  }

  lemma ForeignIff(p: Plane, r: nat, completion: Completion)
    requires Inv(p) && r in p.leases
    ensures r < |p.runs| && p.runs[r].order < |p.orders|
    ensures EvidenceRefusal(p, r, completion).Some? <==> ForeignEvidence(p, r, completion)
  {
    ActiveRows(p, r);
  }

  lemma LeaseNamesRun(p: Plane, r: nat)
    requires Inv(p)
    ensures r in p.leases ==> r < |p.runs| && Leased(p, r)
  {
    if r in p.leases {
      ClosableIff(p, r);
    }
  }

  lemma ActiveIsLeased(p: Plane, o: nat)
    requires Inv(p) && o < |p.orders| && ActiveOrder(p.orders[o].status)
    ensures exists r :: LeaseOf(p.leases, o, r)
  {
    assert OrderOk(p.orders, p.leases, o);
  }

  lemma TerminalCancel(hash: Identity -> string, p: Plane, o: nat, now: int)
    requires o < |p.orders| && TerminalOrder(p.orders[o].status)
    ensures AfterCancel(p, hash, o, now) == p
  {
  }

  /** A cancellation is always admissible, so the only obstacle is the revision ceiling. */
  lemma CancelAdmissible(hash: Identity -> string, p: Plane, r: nat)
    requires Sound(hash, p) && r in p.leases
    ensures CanClose(p, r) <==> !AtCeiling(p, r)
    ensures Leased(p, r) && Admissible(p, hash, r, CANCELLATION)
    ensures ActiveOrder(p.orders[p.leases[r].order].status)
  {
    ClosableIff(p, r);
    ActiveRows(p, r);
    assert ReuseOk(p, hash, r);
    CancellationAccepted(p.orders[p.leases[r].order].terms, p.runs[r], hash);
  }

  /** Cancelling an active order closes its one lease. */
  lemma CancelPicks(hash: Identity -> string, p: Plane, o: nat, r: nat, now: int)
    requires OneLeasePerOrder(p.leases) && LeaseOf(p.leases, o, r)
    requires Leased(p, r) && Admissible(p, hash, r, CANCELLATION) && ActiveOrder(p.orders[o].status)
    ensures CanClose(p, r) ==> AfterCancel(p, hash, o, now) == Finished(p, hash, r, CANCELLATION, now)
    ensures CanClose(p, r) ==> AfterCancel(p, hash, o, now).orders[o].status == Cancelled
    ensures !CanClose(p, r) ==> AfterCancel(p, hash, o, now) == p
  {
    assert CanClose(p, r) ==> CanCancelLeased(p, hash, o, r);
    assert forall s: nat :: CanCancelLeased(p, hash, o, s) ==> s == r;
  }

  /** What a cancellation leaves behind: a leased run ends as cancelled, without evidence;
      an order without a lease just ends. */
  ghost predicate CancelRecorded(p: Plane, q: Plane, o: nat, now: int) {
    && o < |p.orders|
    && (forall r :: LeaseOf(p.leases, o, r) ==>
          Reported(p, q, r, Completion(RunCancelled, [], None, None, None, None, None), now))
    && ((forall r :: !LeaseOf(p.leases, o, r)) ==>
          q == p.(orders := p.orders[o := p.orders[o].(status := Cancelled, finishedAt := Some(now))]))
  }

  lemma CancelReports(hash: Identity -> string, p: Plane, o: nat, r: nat, now: int)
    requires Inv(p) && LeaseOf(p.leases, o, r) && Leased(p, r) && Admissible(p, hash, r, CANCELLATION)
    ensures CanClose(p, r) ==> CancelRecorded(p, Finished(p, hash, r, CANCELLATION, now), o, now)
  {
    if CanClose(p, r) {
      FinishReports(hash, p, r, CANCELLATION, now);
      assert forall s :: LeaseOf(p.leases, o, s) ==> s == r;
    }
  }

  lemma NotLeased(p: Plane, o: nat)
    requires Inv(p) && o < |p.orders| && !ActiveOrder(p.orders[o].status)
    ensures forall r :: !LeaseOf(p.leases, o, r)
  {
    forall r | LeaseOf(p.leases, o, r)
      ensures false
    {
      ActiveRows(p, r);
    }
  }

  lemma BeatApplies(hash: Identity -> string, p: Plane, r: nat, w: string, now: int, expiresAt: int)
    requires Sound(hash, p)
    ensures r in p.leases ==> Leased(p, r)
    ensures Apply(hash, p, RunBeat(r, w, now, expiresAt))
            == if OwnsLive(p, r, w, now) then RunBeaten(p, r, now, expiresAt) else p
    ensures Sound(hash, Apply(hash, p, RunBeat(r, w, now, expiresAt)))
  {
    LeaseNamesRun(p, r);
    Advance(hash, p, RunBeat(r, w, now, expiresAt));
  }

  // ----- expiry in key order -----

  ghost predicate Listed(p: Plane, stale: seq<nat>, now: int) {
    && (forall r: nat :: r in stale <==> r < |p.runs| && Stale(p, r, now))
    && (forall i, j :: 0 <= i < j < |stale| ==> stale[i] < stale[j])
  }

  lemma StaleAreListed(p: Plane, stale: seq<nat>, now: int)
    requires Inv(p) && Listed(p, stale, now)
    ensures forall r: nat :: r in stale <==> Stale(p, r, now)
  {
    forall r: nat | r in p.leases
      ensures r < |p.runs|
    {
      ActiveRows(p, r);
    }
  }

  /** `orders` are the orders the leases of the first `runs` were for. */
  ghost predicate OrdersOf(leases: map<nat, Lease>, runs: seq<nat>, orders: seq<nat>) {
    |orders| <= |runs| && forall i :: 0 <= i < |orders| ==> runs[i] in leases && orders[i] == leases[runs[i]].order
  }

  lemma OrdersAppend(leases: map<nat, Lease>, runs: seq<nat>, orders: seq<nat>)
    requires OrdersOf(leases, runs, orders) && |orders| < |runs| && runs[|orders|] in leases
    ensures OrdersOf(leases, runs, orders + [leases[runs[|orders|]].order])
  {
  }

  /** Nothing is stale between one listed run and the next. */
  lemma GapIsFresh(p: Plane, stale: seq<nat>, k: nat, lo: nat, now: int)
    requires Listed(p, stale, now) && k <= |stale|
    requires lo == if k == 0 then 0 else stale[k - 1] + 1
    ensures var hi := if k < |stale| then stale[k] else |p.runs|;
            lo <= hi <= |p.runs| && forall r: nat :: lo <= r < hi ==> !Stale(p, r, now)
  {
    if k < |stale| {
      assert stale[k] in stale;
    }
    if k > 0 {
      assert stale[k - 1] in stale;
    }
    forall r: nat | r in stale && lo <= r
      ensures k < |stale| && stale[k] <= r
    {
      var i :| 0 <= i < |stale| && stale[i] == r;
      assert k > 0 ==> i > k - 1;
    }
  }

  lemma {:induction false} SkipFresh(p: Plane, q: Plane, lo: nat, hi: nat, now: int)
    requires SameFrom(p, q, lo) && lo <= hi <= |p.runs|
    requires forall r: nat :: lo <= r < hi ==> !Stale(p, r, now)
    ensures Swept(q, lo, now) == Swept(q, hi, now)
    decreases hi - lo
  {
    if lo < hi {
      assert !Stale(p, lo, now);
      SkipFresh(p, q, lo + 1, hi, now);
    }
  }

  function After(stale: seq<nat>, k: nat): nat
    requires k <= |stale|
  {
    if k == 0 then 0 else stale[k - 1] + 1
  }

  /** Plane `q` once the first `k` listed leases of `p` have lapsed. */
  ghost predicate Sweeping(p: Plane, q: Plane, stale: seq<nat>, k: nat, now: int) {
    && k <= |stale|
    && Listed(p, stale, now)
    && Inv(q) && q.ledger == p.ledger
    && Swept(q, After(stale, k), now) == Swept(p, 0, now)
    && SameFrom(p, q, After(stale, k))
  }

  lemma SweepNext(p: Plane, q: Plane, stale: seq<nat>, k: nat, now: int)
    requires Sweeping(p, q, stale, k, now) && k < |stale|
    ensures var r := stale[k];
            && r < |q.runs| && r in p.leases && r in q.leases && q.leases[r] == p.leases[r] && Stale(q, r, now)
            && Swept(q, r, now) == Swept(p, 0, now)
  {
    assert stale[k] in stale;
    GapIsFresh(p, stale, k, After(stale, k), now);
    SkipFresh(p, q, After(stale, k), stale[k], now);
  }

  lemma SweepStep(p: Plane, q: Plane, z: Plane, stale: seq<nat>, k: nat, now: int)
    requires Sweeping(p, q, stale, k, now) && k < |stale|
    requires Inv(z) && z.ledger == q.ledger && SameFrom(q, z, stale[k] + 1)
    requires Swept(z, stale[k] + 1, now) == Swept(p, 0, now)
    ensures Sweeping(p, z, stale, k + 1, now)
  {
    GapIsFresh(p, stale, k, After(stale, k), now);
  }

  lemma SweepEnds(p: Plane, q: Plane, stale: seq<nat>, now: int)
    requires Sweeping(p, q, stale, |stale|, now)
    ensures Swept(p, 0, now) == Some(q)
  {
    GapIsFresh(p, stale, |stale|, After(stale, |stale|), now);
    SkipFresh(p, q, After(stale, |stale|), |p.runs|, now);
  }

  lemma RequeuedIff(p: Plane, stale: seq<nat>, requeued: seq<nat>, o: nat, now: int)
    requires forall r: nat :: r in stale <==> Stale(p, r, now)
    requires |requeued| == |stale| && OrdersOf(p.leases, stale, requeued)
    ensures o in requeued <==> exists r :: LeaseOf(p.leases, o, r) && Stale(p, r, now)
  {
    if o in requeued {
      var i :| 0 <= i < |requeued| && requeued[i] == o;
      assert stale[i] in stale && LeaseOf(p.leases, o, stale[i]);
    }
    if r: nat :| LeaseOf(p.leases, o, r) && Stale(p, r, now) {
      assert r in stale;
      var i :| 0 <= i < |stale| && stale[i] == r;
      assert requeued[i] == o;
    }
  }

  /** What an operator may draft: every number is a routing integer and what remains fits. */
  predicate SoundDraft(d: ProfileDraft) {
    0 <= d.cost <= 2_147_483_647 && 0 <= d.priority <= 2_147_483_647
    && 0 <= d.remaining <= d.capacity <= 2_147_483_647
  }

  /** The reset asked for is the one the profile already carries. */
  predicate IsReplay(p: Plane, w: string, expected: int, remaining: int, resetAt: int) {
    && ValidRevision(expected)
    && 0 <= remaining <= MAX_ROUTING_INTEGER
    && w in p.profiles
    && p.profiles[w].resetAt == Some(resetAt)
    && p.profiles[w].remaining == remaining
    && p.profiles[w].revision == expected + 1
  }

  lemma ReplaceApplies(hash: Identity -> string, p: Plane, w: string, expected: int, draft: ProfileDraft)
    requires Sound(hash, p)
    ensures var q := Apply(hash, p, ReplaceProfile(w, expected, draft));
            && Sound(hash, q)
            && q == (if !CanReplaceProfile(p, w, expected, draft) then p
                     else WithProfile(p, w, Drafted(draft, expected + 1)))
  {
    Advance(hash, p, ReplaceProfile(w, expected, draft));
  }

  /** What a lookup finds in place: runs name existing orders and a lease names an active run. */
  lemma LookupFinds(p: Plane, r: nat)
    requires Inv(p)
    ensures SourcesKnown(p)
    ensures r in p.leases ==> Leased(p, r) && ActiveRun(p.runs[r].status)
  {
    if r in p.leases {
      ClosableIff(p, r);
      ActiveRows(p, r);
    }
    forall s | 0 <= s < |p.runs|
      ensures p.runs[s].order < |p.orders|
    {
      assert RunOk(p, s);
    }
  }

  lemma ResolveApplies(
    hash: Identity -> string, p: Plane, r: nat, w: string, identity: Identity, identityHash: string, now: int)
    requires Sound(hash, p)
    ensures SourcesKnown(p)
    ensures r in p.leases ==> Leased(p, r) && ActiveRun(p.runs[r].status)
    ensures var q := Apply(hash, p, Resolve(r, w, identity, identityHash, now));
            && Sound(hash, q)
            && (!CanResolve(p, hash, r, w, identity, identityHash, now) ==> q == p)
            && (CanResolve(p, hash, r, w, identity, identityHash, now) ==>
                  q == WithReuse(p, r, Resolved(p, hash, r, w, identity, identityHash, now)))
  {
    Advance(hash, p, Resolve(r, w, identity, identityHash, now));
    LookupFinds(p, r);
  }

  /** The order opted in to reuse and the identity is one of its subject, policy and contract. */
  predicate MayAsk(orders: seq<WorkOrder>, o: nat, identity: Identity) {
    && o < |orders|
    && var terms := orders[o].terms;
    && terms.reuse in {AllowExact, RequireExact}
    && identity.subject == terms.subject && identity.policyHash == terms.policyHash
    && identity.contractHash == terms.contractHash && LocksMatch(identity.locks, terms.lockPaths)
  }

  /** The answer to a lookup, and what it leaves behind: the answer is the newest usable run
      among the newest 32, and it is remembered on the asking run alone. */
  ghost predicate LookupAnswered(
    p: Plane, q: Plane, hash: Identity -> string, r: nat, w: string, identity: Identity, identityHash: string,
    now: int, c: Option<ReuseCandidate>)
  {
    && r in p.leases && p.leases[r].order < |p.orders| && r < |p.runs|
    && LookedUpRight(p, hash, r, w, p.orders[p.leases[r].order].terms, identity, identityHash, now, |p.runs|, 32, c)
    && q == p.(runs := p.runs[r := p.runs[r].(
                                     reuse := p.runs[r].reuse.(
                                       decision := if c.Some? then CandidateAvailable else Unavailable,
                                       identity := Some(identity), identityHash := Some(identityHash),
                                       candidate := c))])
  }

  // ----- ranking the workers of a plane -----

  function Candidates(
    workers: map<string, Worker>, profiles: map<string, Profile>, ws: seq<string>): (cs: seq<Candidate>)
    requires forall w :: w in ws ==> w in workers && w in profiles
    ensures |cs| == |ws| && forall i :: 0 <= i < |ws| ==> cs[i] == Candidate(ws[i], workers[ws[i]], profiles[ws[i]])
  {
    seq(|ws|, i requires 0 <= i < |ws| => Candidate(ws[i], workers[ws[i]], profiles[ws[i]]))
  }

  lemma CandidatesAreRankable(cfg: Settings, p: Plane, eligible: seq<string>, terms: Terms, now: int)
    requires Inv(p) && terms.routing == CheapestCapable && eligible != []
    requires forall v :: v in eligible ==> v in p.workers && EligibleFor(cfg, p, v, terms, now)
    requires Distinct(eligible)
    ensures forall v :: v in eligible ==> v in p.profiles
    ensures Rankable(Candidates(p.workers, p.profiles, eligible))
  {
  }

  lemma HeadMeansBest(cfg: Settings, p: Plane, eligible: seq<string>, terms: Terms, now: int, head: Candidate)
    requires forall v :: v in eligible ==> v in p.profiles
    requires forall v :: v in eligible <==> v in p.workers && EligibleFor(cfg, p, v, terms, now)
    requires var cs := Candidates(p.workers, p.profiles, eligible);
             head in cs && forall y :: y in cs && y != head ==> Precedes(head, y)
    ensures Best(cfg, p, head.id, terms, now)
  {
    var cs := Candidates(p.workers, p.profiles, eligible);
    forall v | v in p.workers && v != head.id && EligibleFor(cfg, p, v, terms, now)
      ensures Outranks(p, head.id, v)
    {
      var i :| 0 <= i < |eligible| && eligible[i] == v;
      assert cs[i] in cs;
    }
  }

  lemma NotBest(cfg: Settings, p: Plane, w: string, v: string, o: nat, now: int)
    requires InStatus(p, o, {Queued}) && Best(cfg, p, v, p.orders[o].terms, now) && v != w
    requires p.orders[o].terms.routing == CheapestCapable
    ensures !Wins(cfg, p, w, o, now)
  {
    if Wins(cfg, p, w, o, now) {
      OneBest(cfg, p, w, v, p.orders[o].terms, now);
    }
  }

  // ----- checkout keeps the plane sound -----

  lemma SweepIsSound(hash: Identity -> string, p: Plane, now: int)
    requires Sound(hash, p) && Swept(p, 0, now).Some?
    ensures Sound(hash, Swept(p, 0, now).value) && Swept(p, 0, now).value.ledger == p.ledger
  {
    SweepIsTrace(hash, p, 0, now);
    TraceKeepsReuse(hash, p, LapsesFrom(p, 0, now));
    SweepIsExact(p, 0, now);
  }

  lemma PollIsSound(hash: Identity -> string, p: Plane, w: string, now: int)
    requires Sound(hash, p) && w in p.workers
    ensures Sound(hash, Polled(p, w, now))
  {
    Advance(hash, p, Poll(w, now));
  }

  lemma ClaimIsSound(
    hash: Identity -> string, p: Plane, w: string, o: nat, seen: Option<Profile>, eligible: nat, now: int,
    expiresAt: int)
    requires Sound(hash, p) && CanClaim(p, w, o, seen)
    ensures Sound(hash, Claimed(p, w, o, seen, eligible, now, expiresAt))
  {
    ClaimStep(p, w, o, seen, eligible, now, expiresAt);
    ClaimKeepsReuse(hash, p, w, o, seen, eligible, now, expiresAt);
  }

  lemma ScanIsSound(hash: Identity -> string, cfg: Settings, p: Plane, w: string, clock: Clock, x: Assignment, q: Plane)
    requires Sound(hash, p) && Scanned(cfg, p, w, clock, x, q)
    ensures Sound(hash, q)
  {
    if x.Given? {
      var terms, now := p.orders[x.order].terms, clock.scan(x.order);
      var seen, eligible := ChargedTo(p, w, terms), |EligibleWorkers(cfg, p, terms, now)|;
      ClaimIsSound(hash, p, w, x.order, seen, eligible, now, now + cfg.leaseSeconds);
    }
  }

  lemma OneEvent(hash: Identity -> string, p: Plane, e: Event)
    ensures Trace(hash, p, [e]) == Apply(hash, p, e)
  {
    assert [e][1..] == [];
  }

  /** The event that examining the queue amounts to. */
  function ScanEvents(cfg: Settings, p: Plane, w: string, clock: Clock, x: Assignment): seq<Event> {
    if x.NotGiven? || x.order >= |p.orders| then []
    else
      var terms, now := p.orders[x.order].terms, clock.scan(x.order);
      [Claim(w, x.order, ChargedTo(p, w, terms), |EligibleWorkers(cfg, p, terms, now)|, now, now + cfg.leaseSeconds)]
  }

  lemma ScanIsRun(hash: Identity -> string, cfg: Settings, p: Plane, w: string, clock: Clock, x: Assignment, q: Plane)
    requires Scanned(cfg, p, w, clock, x, q)
    ensures Trace(hash, p, ScanEvents(cfg, p, w, clock, x)) == q
  {
    if x.Given? {
      OneEvent(hash, p, ScanEvents(cfg, p, w, clock, x)[0]);
    }
  }

  /** A checkout is a run of plane events: the stale leases lapse, the worker polls, and
      perhaps one order is claimed. */
  lemma CheckoutIsRun(
    hash: Identity -> string, cfg: Settings, p: Plane, w: string, clock: Clock, x: Option<Assignment>, q: Plane)
    returns (es: seq<Event>)
    requires CheckedOut(cfg, p, w, clock, x, q)
    ensures Trace(hash, p, es) == q
  {
    if x.None? {
      es := [];
    } else {
      var cleared := Swept(p, 0, clock.sweep).value;
      var polled := Polled(cleared, w, clock.poll);
      var lapses := LapsesFrom(p, 0, clock.sweep);
      var scan := if polled.workers[w].status == Online then ScanEvents(cfg, polled, w, clock, x.value) else [];
      SweepIsTrace(hash, p, 0, clock.sweep);
      PollIsRun(hash, cleared, w, clock.poll);
      if polled.workers[w].status == Online {
        ScanIsRun(hash, cfg, polled, w, clock, x.value, q);
      }
      es := lapses + [Poll(w, clock.poll)] + scan;
      TraceAppends(hash, p, lapses, [Poll(w, clock.poll)]);
      TraceAppends(hash, p, lapses + [Poll(w, clock.poll)], scan);
    }
  }

  lemma PollIsRun(hash: Identity -> string, p: Plane, w: string, now: int)
    requires w in p.workers
    ensures Trace(hash, p, [Poll(w, now)]) == Polled(p, w, now)
  {
    OneEvent(hash, p, Poll(w, now));
  }

  /** A reset that was applied is a replay from then on: asking again changes nothing. */
  lemma ResetIsIdempotent(hash: Identity -> string, p: Plane, w: string, expected: int, remaining: int, resetAt: int)
    requires CanResetQuota(p, w, expected, remaining, resetAt)
    ensures var q := WithProfile(p, w, ResetProfile(p.profiles[w], remaining, resetAt));
            && Apply(hash, p, ResetQuota(w, expected, remaining, resetAt)) == q
            && IsReplay(q, w, expected, remaining, resetAt)
            && Apply(hash, q, ResetQuota(w, expected, remaining, resetAt)) == q
  {
  }

  class ExecutionService {
    const repo: ExecutionRepository
    const hash: Identity -> string
    const cfg: Settings

    constructor (repo: ExecutionRepository, hash: Identity -> string, cfg: Settings)
      ensures this.repo == repo && this.hash == hash && this.cfg == cfg
    {
      this.repo, this.hash, this.cfg := repo, hash, cfg;
    }

    /** The savepoint shared by completion and expiry: consume the lease, give back unspent
        quota, end the run, move the order and free the slot, or undo all of it. */
    method CloseLease(r: nat, mode: Liveness, c: Closing, now: int) returns (consumed: bool, settled: bool)
      requires Closable(repo.View(), r)
      modifies repo
      ensures consumed <==> Accepts(mode, old(repo.leases)[r].expiresAt, now)
      ensures settled <==> consumed && CanClose(old(repo.View()), r)
      ensures repo.View() == if settled then Closed(old(repo.View()), r, c, now) else old(repo.View())
    {
      ghost var p := repo.View();
      UpdatesClose(p, r, c, now);
      var o, w := repo.leases[r].order, repo.leases[r].worker;
      var savepoint := repo.Begin();
      consumed := repo.ConsumeLease(r, o, w, now, mode);
      settled := false;
      if consumed {
        var released := repo.ReleaseRunQuotaReservation(r, o, w);
        var ended := repo.FinishActiveRun(r, run => FinishPatch(run, c, now));
        var moved;
        if c.requeue {
          moved := repo.RequeueStaleActiveWorkOrder(o, now);
        } else {
          moved := repo.FinishActiveWorkOrder(o, OrderStatusOf(c.status), now);
        }
        var freed := repo.ReleaseWorkerCapacity(w);
        settled := released && ended && moved && freed;
        if !settled {
          repo.Rollback(savepoint);
        }
      }
    }

    /** One lease ends with a given outcome. */
    method FinishActiveLease(r: nat, completion: Completion, live: bool, now: int) returns (x: Outcome<Run>)
      requires Inv(repo.View()) && r in repo.leases && TerminalRun(completion.status)
      modifies repo
      ensures var p := old(repo.View());
              && (x.Done? <==>
                  CanClose(p, r) && Admissible(p, hash, r, completion) && (live ==> p.leases[r].expiresAt >= now))
              && repo.View() == (if x.Done? then Finished(p, hash, r, completion, now) else p)
      ensures x.Done? ==> x.value == repo.runs[r]
      ensures x == Refused(RecordTransition) ==> AtCeiling(old(repo.View()), r)
      ensures x == Refused(NotOwned) ==> live && old(repo.leases)[r].expiresAt < now
      ensures x == Refused(EvidenceDeclined) <==> ForeignEvidence(old(repo.View()), r, completion)
      ensures x.Refused? ==> x.failure in {EvidenceDeclined, ReuseDeclined, NotOwned, RecordTransition}
    {
      ForeignIff(repo.View(), r, completion);
      LeasesAreClosable(repo.View(), r);
      ClosableIff(repo.View(), r);
      var o := repo.leases[r].order;
      var refusal := EvidenceRefusal(repo.Rows(), r, completion);
      if refusal.Some? {
        return Refused(EvidenceDeclined);
      }
      var verdict := CompletionVerdict(repo.orders[o].terms, repo.runs[r], hash, completion);
      if verdict.Declined? {
        return Refused(ReuseDeclined);
      }
      var mode := if live then LiveLease else AnyLease;
      var consumed, settled := CloseLease(r, mode, FinishClosing(completion, verdict.record), now);
      if !consumed {
        return Refused(NotOwned);
      }
      x := if settled then Done(repo.runs[r]) else Refused(RecordTransition);
    }

    /** A worker reports the outcome of its run. */
    method CompleteRun(r: nat, w: string, completion: Completion, now: int) returns (x: Outcome<Run>)
      requires Sound(hash, repo.View())
      modifies repo
      ensures Sound(hash, repo.View())
      ensures repo.View() == Apply(hash, old(repo.View()), Complete(r, w, completion, now))
      ensures x.Done? <==> CanComplete(old(repo.View()), hash, r, w, completion, now)
      ensures x.Done? ==> Reported(old(repo.View()), repo.View(), r, completion, now)
      ensures x.Done? ==> x.value == repo.runs[r]
      ensures x == Refused(EvidenceDeclined) <==>
              && TerminalRun(completion.status) && r in old(repo.leases) && old(repo.leases)[r].worker == w
              && ForeignEvidence(old(repo.View()), r, completion)
      ensures x == Refused(NotFound) ==> r >= |old(repo.runs)|
      ensures x == Refused(NotOwned) ==> !OwnsLive(old(repo.View()), r, w, now)
      ensures x == Refused(RecordTransition) ==> AtCeiling(old(repo.View()), r)
      ensures x.Refused? ==>
              x.failure in {NotTerminalOutcome, NotFound, NotOwned, EvidenceDeclined, ReuseDeclined, RecordTransition}
    {
      ghost var p := repo.View();
      Advance(hash, p, Complete(r, w, completion, now));
      LeaseNamesRun(p, r);
      if !TerminalRun(completion.status) {
        return Refused(NotTerminalOutcome);
      }
      if r >= |repo.runs| {
        return Refused(NotFound);
      }
      if r !in repo.leases || repo.leases[r].worker != w {
        return Refused(NotOwned);
      }
      x := FinishActiveLease(r, completion, true, now);
      if x.Done? {
        FinishReports(hash, p, r, completion, now);
      }
    }

    /** An operator withdraws an order, whatever stage it is in. */
    method CancelWorkOrder(o: nat, now: int) returns (x: Outcome<WorkOrder>)
      requires Sound(hash, repo.View())
      modifies repo
      ensures Sound(hash, repo.View())
      ensures repo.View() == Apply(hash, old(repo.View()), Cancel(o, now))
      ensures x.Done? ==> o < |repo.orders| && repo.orders[o].status == Cancelled && x.value == repo.orders[o]
      ensures x.Done? ==> CancelRecorded(old(repo.View()), repo.View(), o, now)
      ensures x.Refused? ==> repo.View() == old(repo.View())
      ensures x == Refused(NotFound) ==> o >= |old(repo.orders)|
      ensures x == Refused(OrderIsTerminal) ==> o < |old(repo.orders)| && TerminalOrder(old(repo.orders)[o].status)
      ensures x == Refused(RecordTransition) ==>
              exists r :: LeaseOf(old(repo.leases), o, r) && AtCeiling(old(repo.View()), r)
      ensures x.Refused? ==> x.failure in {NotFound, OrderIsTerminal, RecordTransition}
    {
      ghost var p := repo.View();
      Advance(hash, p, Cancel(o, now));
      if o >= |repo.orders| {
        return Refused(NotFound);
      }
      if repo.orders[o].status in {PendingApproval, Approved, Queued} {
        NotLeased(p, o);
        var hit := repo.TransitionUnleasedWorkOrder(
          o, {PendingApproval, Approved, Queued}, order => EndedOrder(order, Cancelled, now));
        x := if hit then Done(repo.orders[o]) else Refused(WrongStatus);
        return;
      }
      if TerminalOrder(repo.orders[o].status) {
        TerminalCancel(hash, p, o, now);
        return Refused(OrderIsTerminal);
      }
      ActiveIsLeased(p, o);
      var lease := repo.LeaseForWorkOrder(o);
      if lease.None? {
        return Refused(LeaseTransition);
      }
      CancelAdmissible(hash, p, lease.value);
      CancelPicks(hash, p, o, lease.value, now);
      CancelReports(hash, p, o, lease.value, now);
      var done := CancelLease(lease.value, now);
      x := if done then Done(repo.orders[o]) else Refused(RecordTransition);
    }

    /** Cancellation of a leased run; evidence and reuse validation cannot decline it. */
    method CancelLease(r: nat, now: int) returns (done: bool)
      requires Inv(repo.View()) && r in repo.leases && Admissible(repo.View(), hash, r, CANCELLATION)
      modifies repo
      ensures done <==> CanClose(old(repo.View()), r)
      ensures repo.View() == if done then Finished(old(repo.View()), hash, r, CANCELLATION, now) else old(repo.View())
    {
      var finished := FinishActiveLease(r, CANCELLATION, false, now);
      done := finished.Done?;
    }

    /** A worker keeps its lease alive; the first beat starts the run and spends its quota. */
    method HeartbeatRun(r: nat, w: string, now: int) returns (x: Outcome<Run>)
      requires Sound(hash, repo.View())
      modifies repo
      ensures Sound(hash, repo.View())
      ensures repo.View() == Apply(hash, old(repo.View()), RunBeat(r, w, now, now + cfg.leaseSeconds))
      ensures x.Done? <==>
              r in old(repo.leases) && old(repo.leases)[r].worker == w && now <= old(repo.leases)[r].expiresAt
      ensures x.Done? ==> r < |repo.runs| && x.value == repo.runs[r] && x.value.status == RunRunning
      ensures x.Done? ==> BeatRecorded(old(repo.View()), repo.View(), r, w, now, now + cfg.leaseSeconds)
      ensures x.Refused? ==> x.failure in {NotFound, NotOwned, LeaseExpired}
    {
      ghost var p := repo.View();
      BeatApplies(hash, p, r, w, now, now + cfg.leaseSeconds);
      x := BeatRun(r, w, now, now + cfg.leaseSeconds);
      assert repo.View() == Apply(hash, p, RunBeat(r, w, now, now + cfg.leaseSeconds));
    }

    method BeatRun(r: nat, w: string, now: int, expiresAt: int) returns (x: Outcome<Run>)
      requires Inv(repo.View()) && (r in repo.leases ==> Leased(repo.View(), r))
      modifies repo
      ensures x.Done? <==>
              r in old(repo.leases) && old(repo.leases)[r].worker == w && now <= old(repo.leases)[r].expiresAt
      ensures repo.View() == if x.Done? then RunBeaten(old(repo.View()), r, now, expiresAt) else old(repo.View())
      ensures x.Done? ==> r < |repo.runs| && x.value == repo.runs[r] && x.value.status == RunRunning
      ensures x.Done? ==> BeatRecorded(old(repo.View()), repo.View(), r, w, now, expiresAt)
      ensures x.Refused? ==> x.failure in {NotFound, NotOwned, LeaseExpired}
    {
      ghost var p := repo.View();
      if r >= |repo.runs| {
        return Refused(NotFound);
      }
      if r !in repo.leases || repo.leases[r].worker != w {
        return Refused(NotOwned);
      }
      assert Closable(repo.View(), r) && repo.runs[r].quotaState != Released by {
        LeasesAreClosable(repo.View(), r);
      }
      var renewed, active := BeatLease(r, w, now, expiresAt);
      if !renewed {
        return Refused(LeaseExpired);
      }
      if !active {
        return Refused(RunNotActive);
      }
      BeatIsRecorded(p, r, w, now, expiresAt);
      x := Done(repo.runs[r]);
    }

    /** The savepoint of a heartbeat. */
    method BeatLease(r: nat, w: string, now: int, expiresAt: int) returns (renewed: bool, active: bool)
      requires Closable(repo.View(), r)
      modifies repo
      ensures renewed <==> OwnsLive(old(repo.View()), r, w, now)
      ensures active <==> renewed && old(repo.runs)[r].quotaState != Released
      ensures active ==> r < |repo.runs| && repo.runs[r].status == RunRunning
      ensures repo.View() == if active then RunBeaten(old(repo.View()), r, now, expiresAt) else old(repo.View())
    {
      ghost var p := repo.View();
      var o := repo.leases[r].order;
      var savepoint := repo.Begin();
      renewed := repo.RenewOwnedLiveLease(r, w, now, expiresAt);
      active := false;
      if renewed {
        var spent := repo.ConsumeRunQuotaReservation(r, o);
        var started := repo.MarkActiveRunRunning(r, now, expiresAt);
        var moved := repo.MarkActiveWorkOrderRunning(o, now);
        active := spent && started && moved;
        if !active {
          repo.Rollback(savepoint);
        }
      }
    }

    /** Every stale lease lapses, or the request fails and none does. */
    method ExpireStaleLeases(now: int) returns (x: Outcome<seq<nat>>, requeued: seq<nat>)
      requires Inv(repo.View())
      modifies repo
      ensures x.Done? <==> Swept(old(repo.View()), 0, now).Some?
      ensures repo.View() == if x.Done? then Swept(old(repo.View()), 0, now).value else old(repo.View())
      ensures x.Done? ==> forall r: nat :: r in x.value <==> Stale(old(repo.View()), r, now)
      ensures x.Done? ==> |requeued| == |x.value| && OrdersOf(old(repo.leases), x.value, requeued)
      ensures x.Refused? ==> x.failure == StaleLeaseConflict && exists r: nat :: Stale(old(repo.View()), r, now)
    {
      ghost var p := repo.View();
      var request := repo.Begin();
      var stale := repo.ListStaleLeases(now);
      StaleAreListed(p, stale, now);
      requeued := [];
      for k := 0 to |stale|
        invariant Sweeping(p, repo.View(), stale, k, now)
        invariant |requeued| == k && OrdersOf(p.leases, stale, requeued)
      {
        ghost var q := repo.View();
        SweepNext(p, q, stale, k, now);
        OrdersAppend(p.leases, stale, requeued);
        requeued := requeued + [repo.leases[stale[k]].order];
        var settled := ExpireLease(stale[k], now);
        if !settled {
          repo.Rollback(request);
          return Refused(StaleLeaseConflict), [];
        }
        SweepStep(p, q, repo.View(), stale, k, now);
      }
      SweepEnds(p, repo.View(), stale, now);
      x := Done(stale);
    }

    /** One stale lease lapses; its order goes back to the queue. */
    method ExpireLease(r: nat, now: int) returns (settled: bool)
      requires Inv(repo.View()) && r < |repo.runs| && Stale(repo.View(), r, now)
      modifies repo
      ensures Inv(repo.View()) && repo.ledger == old(repo.ledger)
      ensures settled <==> CanLapse(old(repo.View()), r, now)
      ensures repo.View() == if settled then Lapsed(old(repo.View()), r, now) else old(repo.View())
      ensures SameFrom(old(repo.View()), repo.View(), r + 1)
      ensures Swept(old(repo.View()), r, now) == if settled then Swept(repo.View(), r + 1, now) else None
    {
      ghost var p := repo.View();
      assert Closable(p, r) by {
        LeasesAreClosable(p, r);
      }
      var consumed;
      consumed, settled := CloseLease(r, StaleLease, LapseClosing(repo.runs[r]), now);
      if settled {
        LapseKeepsInv(p, r, now);
      }
    }

    /** Put one order back in the queue, provided its lease is stale. */
    method RequeueStaleWorkOrder(o: nat, now: int) returns (x: Outcome<WorkOrder>)
      requires Inv(repo.View())
      modifies repo
      ensures var p := old(repo.View());
              && (x.Done? <==> Swept(p, 0, now).Some? && exists r :: LeaseOf(p.leases, o, r) && Stale(p, r, now))
              && repo.View() == (if x.Done? then Swept(p, 0, now).value else p)
      ensures x.Done? ==> o < |repo.orders| && x.value == repo.orders[o] && x.value.status == Queued
    {
      ghost var p := repo.View();
      var request := repo.Begin();
      var expired, requeued := ExpireStaleLeases(now);
      if expired.Refused? {
        return Refused(expired.failure);
      }
      SweepIsExact(p, 0, now);
      RequeuedIff(p, expired.value, requeued, o, now);
      if o !in requeued {
        repo.Rollback(request);
        return Refused(WrongStatus);
      }
      x := Done(repo.orders[o]);
    }

    // ----- orders without a lease -----

    /** A draft becomes a pending order exactly if policy and registry accept it. */
    method CreateWorkOrder(registry: Registry, draft: Draft) returns (x: Outcome<nat>)
      requires Sound(hash, repo.View())
      modifies repo
      ensures Sound(hash, repo.View())
      ensures x.Done? <==>
              && draft.schemaVersion == 1 && IsCommit(draft.commit)
              && !draft.repositoryWrite && !draft.writeCapability
              && draft.terms.requiredQuota <= 2_147_483_647
              && (draft.terms.maximumCost.Some? ==> 0 <= draft.terms.maximumCost.value <= 2_147_483_647)
              && draft.repository in registry.repositories && draft.manifest in registry.manifests
              && (draft.repository, draft.manifest) in registry.allowed
              && draft.parameters <= registry.manifests[draft.manifest].parameters
              && (draft.terms.preferred.Some? ==> draft.terms.preferred.value in old(repo.workers))
      ensures x.Done? ==> repo.View() == Apply(hash, old(repo.View()), CreateOrder(StoredTerms(registry, draft)))
      ensures x.Refused? ==> repo.View() == old(repo.View())
      ensures x.Done? ==>
              && x.value == |old(repo.orders)| && draft.manifest in registry.manifests
              && repo.orders == old(repo.orders) + [
                   WorkOrder(
                     Terms(Subject(draft.repository, Lower(draft.commit), registry.manifests[draft.manifest].identity),
                           draft.terms.requirements, draft.terms.routing, draft.terms.maximumCost,
                           draft.terms.requiredQuota, draft.terms.preferred, draft.terms.reuse,
                           draft.terms.policyHash, draft.terms.contractHash, draft.terms.lockPaths),
                     PendingApproval, None, None, None, None, None, 0, None, None)]
      ensures x == Refused(WritePolicy) ==> draft.repositoryWrite || draft.writeCapability
      ensures x == Refused(UnsupportedParameters) ==>
                && draft.manifest in registry.manifests
                && !(draft.parameters <= registry.manifests[draft.manifest].parameters)
      ensures x == Refused(NotFound) ==>
              draft.terms.preferred.Some? && draft.terms.preferred.value !in old(repo.workers)
      ensures x.Refused? ==> x.failure in {InvalidDraft, WritePolicy, UnknownManifest, UnsupportedParameters, NotFound}
    {
      if draft.schemaVersion != 1 || !IsCommit(draft.commit) {
        return Refused(InvalidDraft);
      }
      if draft.repositoryWrite || draft.writeCapability {
        return Refused(WritePolicy);
      }
      if !InBounds(draft.terms) {
        return Refused(InvalidDraft);
      }
      if || draft.repository !in registry.repositories || draft.manifest !in registry.manifests
         || (draft.repository, draft.manifest) !in registry.allowed {
        return Refused(UnknownManifest);
      }
      if !(draft.parameters <= registry.manifests[draft.manifest].parameters) {
        return Refused(UnsupportedParameters);
      }
      if draft.terms.preferred.Some? && draft.terms.preferred.value !in repo.workers {
        return Refused(NotFound);
      }
      Advance(hash, repo.View(), CreateOrder(StoredTerms(registry, draft)));
      var o := repo.CreateWorkOrder(StoredTerms(registry, draft));
      x := Done(o);
    }

    /** `approvable` is the verdict of the approval policy and the trusted registry. */
    method ApproveWorkOrder(o: nat, queue: bool, approvable: bool, now: int) returns (x: Outcome<WorkOrder>)
      requires Sound(hash, repo.View())
      modifies repo
      ensures Sound(hash, repo.View())
      ensures repo.View() == Apply(hash, old(repo.View()), Approve(o, queue, approvable, now))
      ensures x.Done? <==> InStatus(old(repo.View()), o, {PendingApproval}) && approvable
      ensures x.Done? ==> repo.orders == old(repo.orders)[o := x.value]
      ensures x.Done? ==>
              x.value == old(repo.orders)[o].(status := if queue then Queued else Approved, approvedAt := Some(now),
                                              queuedAt := if queue then Some(now) else None)
    {
      Advance(hash, repo.View(), Approve(o, queue, approvable, now));
      if o >= |repo.orders| {
        return Refused(NotFound);
      }
      if repo.orders[o].status != PendingApproval {
        return Refused(WrongStatus);
      }
      if !approvable {
        return Refused(NotApprovable);
      }
      var hit := repo.TransitionUnleasedWorkOrder(o, {PendingApproval}, order => ApprovedOrder(order, queue, now));
      x := if hit then Done(repo.orders[o]) else Refused(WrongStatus);
    }

    method QueueWorkOrder(o: nat, now: int) returns (x: Outcome<WorkOrder>)
      requires Sound(hash, repo.View())
      modifies repo
      ensures Sound(hash, repo.View())
      ensures repo.View() == Apply(hash, old(repo.View()), Queue(o, now))
      ensures x.Done? <==> InStatus(old(repo.View()), o, {Approved})
      ensures x.Done? ==> repo.orders == old(repo.orders)[o := x.value]
      ensures x.Done? ==> x.value == old(repo.orders)[o].(status := Queued, queuedAt := Some(now))
    {
      Advance(hash, repo.View(), Queue(o, now));
      if o >= |repo.orders| {
        return Refused(NotFound);
      }
      var hit := repo.TransitionUnleasedWorkOrder(o, {Approved}, order => QueuedOrder(order, now));
      x := if hit then Done(repo.orders[o]) else Refused(WrongStatus);
    }

    method RejectWorkOrder(o: nat, now: int) returns (x: Outcome<WorkOrder>)
      requires Sound(hash, repo.View())
      modifies repo
      ensures Sound(hash, repo.View())
      ensures repo.View() == Apply(hash, old(repo.View()), Reject(o, now))
      ensures x.Done? <==> InStatus(old(repo.View()), o, {PendingApproval})
      ensures x.Done? ==> repo.orders == old(repo.orders)[o := x.value]
      ensures x.Done? ==> x.value == old(repo.orders)[o].(status := Rejected, finishedAt := Some(now))
    {
      Advance(hash, repo.View(), Reject(o, now));
      if o >= |repo.orders| {
        return Refused(NotFound);
      }
      var hit := repo.TransitionUnleasedWorkOrder(o, {PendingApproval}, order => EndedOrder(order, Rejected, now));
      x := if hit then Done(repo.orders[o]) else Refused(WrongStatus);
    }

    method ExpireWorkOrder(o: nat, now: int) returns (x: Outcome<WorkOrder>)
      requires Sound(hash, repo.View())
      modifies repo
      ensures Sound(hash, repo.View())
      ensures repo.View() == Apply(hash, old(repo.View()), ExpireOrder(o, now))
      ensures x.Done? <==> InStatus(old(repo.View()), o, {Approved, Queued})
      ensures x.Done? ==> repo.orders == old(repo.orders)[o := x.value]
      ensures x.Done? ==> x.value == old(repo.orders)[o].(status := Expired, finishedAt := Some(now))
    {
      Advance(hash, repo.View(), ExpireOrder(o, now));
      if o >= |repo.orders| {
        return Refused(NotFound);
      }
      var hit := repo.TransitionUnleasedWorkOrder(o, {Approved, Queued}, order => EndedOrder(order, Expired, now));
      x := if hit then Done(repo.orders[o]) else Refused(WrongStatus);
    }

    // ----- workers -----

    method RegisterWorker(w: string, registration: Registration, now: int) returns (x: Outcome<Worker>)
      requires Sound(hash, repo.View())
      modifies repo
      ensures Sound(hash, repo.View())
      ensures repo.View() == Apply(hash, old(repo.View()), Register(w, registration, now))
      ensures x.Done? <==> !registration.repositoryWrite && registration.maxConcurrency >= 1
      ensures x.Done? ==> repo.workers == old(repo.workers)[w := x.value]
      ensures x.Done? ==>
              var known := w in old(repo.workers);
              var active := if known then old(repo.workers)[w].active else 0;
              var lastPoll := if known then old(repo.workers)[w].lastPoll else None;
              var full := known && active >= registration.maxConcurrency;
              x.value == Worker(if registration.status == Online && full then Busy else registration.status,
                                registration.maxConcurrency, active, now, lastPoll,
                                registration.repositories, registration.capabilities)
    {
      Advance(hash, repo.View(), Register(w, registration, now));
      if registration.repositoryWrite || registration.maxConcurrency < 1 {
        return Refused(InvalidDraft);
      }
      repo.UpsertWorker(w, registration, now);
      x := Done(repo.workers[w]);
    }

    method HeartbeatWorker(w: string, status: Option<WorkerStatus>, now: int) returns (x: Outcome<Worker>)
      requires Sound(hash, repo.View())
      modifies repo
      ensures Sound(hash, repo.View())
      ensures repo.View() == Apply(hash, old(repo.View()), WorkerBeat(w, status, now))
      ensures x.Done? <==> w in old(repo.workers)
      ensures x.Done? ==> repo.workers == old(repo.workers)[w := x.value]
      ensures x.Done? ==>
              var row := old(repo.workers)[w];
              x.value == row.(lastHeartbeat := now,
                              status := if status.None? then row.status
                                        else if status.value == Online && row.active >= row.maxConcurrency then Busy
                                        else status.value)
    {
      Advance(hash, repo.View(), WorkerBeat(w, status, now));
      if w !in repo.workers {
        return Refused(NotFound);
      }
      repo.UpdateWorkerHeartbeat(w, status, now);
      x := Done(repo.workers[w]);
    }

    // ----- operator-owned profiles -----

    method CreateRoutingProfile(w: string, draft: ProfileDraft) returns (x: Outcome<Profile>)
      requires Sound(hash, repo.View())
      modifies repo
      ensures Sound(hash, repo.View())
      ensures repo.View() == Apply(hash, old(repo.View()), CreateProfile(w, draft))
      ensures x.Done? <==> w in old(repo.workers) && w !in old(repo.profiles) && SoundDraft(draft)
      ensures x.Done? ==> repo.profiles == old(repo.profiles)[w := x.value]
      ensures x.Done? ==> x.value == Profile(draft.enabled, draft.cost, draft.capacity, draft.remaining, draft.resetAt,
                                             draft.priority, 1)
    {
      Advance(hash, repo.View(), CreateProfile(w, draft));
      if w !in repo.workers {
        return Refused(NotFound);
      }
      if w in repo.profiles {
        return Refused(AlreadyExists);
      }
      if !ValidDraft(draft) {
        return Refused(InvalidDraft);
      }
      repo.CreateRoutingProfile(w, draft);
      x := Done(repo.profiles[w]);
    }

    method ReplaceRoutingProfile(w: string, expected: int, draft: ProfileDraft) returns (x: Outcome<Profile>)
      requires Sound(hash, repo.View())
      modifies repo
      ensures Sound(hash, repo.View())
      ensures repo.View() == Apply(hash, old(repo.View()), ReplaceProfile(w, expected, draft))
      ensures x.Done? <==>
              && w in old(repo.profiles) && 1 <= old(repo.profiles)[w].revision == expected < 2_147_483_647
              && NoneReserved(old(repo.runs), w) && SoundDraft(draft)
      ensures x.Done? ==> repo.profiles == old(repo.profiles)[w := x.value]
      ensures x.Done? ==> x.value == Profile(draft.enabled, draft.cost, draft.capacity, draft.remaining, draft.resetAt,
                                             draft.priority, expected + 1)
    {
      ReplaceApplies(hash, repo.View(), w, expected, draft);
      x := TryReplace(w, expected, draft);
    }

    method TryReplace(w: string, expected: int, draft: ProfileDraft) returns (x: Outcome<Profile>)
      modifies repo
      ensures x.Done? <==> CanReplaceProfile(old(repo.View()), w, expected, draft)
      ensures repo.View() == if x.Refused? then old(repo.View())
                             else WithProfile(old(repo.View()), w, Drafted(draft, expected + 1))
      ensures x.Done? ==> w in repo.profiles && x.value == repo.profiles[w] == Drafted(draft, expected + 1)
    {
      if !ValidRevision(expected) {
        return Refused(RevisionOutOfBounds);
      }
      if w !in repo.profiles {
        return Refused(NotFound);
      }
      var reserved := repo.CountReservedQuotaRuns(w);
      if reserved > 0 {
        return Refused(ActiveReservations);
      }
      if repo.profiles[w].revision != expected {
        return Refused(RevisionConflict);
      }
      if !ValidDraft(draft) {
        return Refused(InvalidDraft);
      }
      var hit := repo.ReplaceRoutingProfile(w, expected, draft);
      x := if hit then Done(repo.profiles[w]) else Refused(RevisionConflict);
    }

    /** A reset that was already applied is answered again without a write. */
    method ResetRoutingQuota(w: string, expected: int, remaining: int, resetAt: int) returns (x: Outcome<Profile>)
      requires Sound(hash, repo.View())
      modifies repo
      ensures Sound(hash, repo.View())
      ensures repo.View() == Apply(hash, old(repo.View()), ResetQuota(w, expected, remaining, resetAt))
      ensures x.Done? <==> CanResetQuota(old(repo.View()), w, expected, remaining, resetAt)
                           || IsReplay(old(repo.View()), w, expected, remaining, resetAt)
      ensures CanResetQuota(old(repo.View()), w, expected, remaining, resetAt) <==>
              && w in old(repo.profiles) && 1 <= old(repo.profiles)[w].revision == expected < 2_147_483_647
              && 0 <= remaining <= old(repo.profiles)[w].capacity
              && old(repo.profiles)[w].capacity <= 2_147_483_647
              && (old(repo.profiles)[w].resetAt.None? || old(repo.profiles)[w].resetAt.value < resetAt)
              && NoneReserved(old(repo.runs), w)
      ensures x.Done? ==> w in old(repo.profiles) && repo.profiles == old(repo.profiles)[w := x.value]
      ensures x.Done? ==> x.value == old(repo.profiles)[w].(remaining := remaining, resetAt := Some(resetAt),
                                                            revision := expected + 1)
    {
      Advance(hash, repo.View(), ResetQuota(w, expected, remaining, resetAt));
      if !ValidRevision(expected) {
        return Refused(RevisionOutOfBounds);
      }
      if !(0 <= remaining <= MAX_ROUTING_INTEGER) {
        return Refused(InvalidDraft);
      }
      if w !in repo.profiles {
        return Refused(NotFound);
      }
      var profile := repo.profiles[w];
      if profile.resetAt.Some? && resetAt < profile.resetAt.value {
        return Refused(ResetIsStale);
      }
      if profile.resetAt == Some(resetAt) {
        if profile.remaining == remaining && profile.revision == expected + 1 {
          return Done(profile);
        }
        return Refused(if profile.remaining == remaining then RevisionConflict else ResetConflict);
      }
      var reserved := repo.CountReservedQuotaRuns(w);
      if reserved > 0 {
        return Refused(ActiveReservations);
      }
      if profile.revision != expected {
        return Refused(RevisionConflict);
      }
      if remaining > profile.capacity {
        return Refused(ExceedsCapacity);
      }
      var hit := repo.ResetRoutingQuota(w, expected, remaining, resetAt);
      x := if hit then Done(repo.profiles[w]) else Refused(RevisionConflict);
    }

    // ----- exact reuse -----

    /** Look up a source for the live lease owner and remember the outcome on its run. */
    method ResolveReuseCandidate(r: nat, w: string, identity: Identity, identityHash: string, now: int)
      returns (x: Outcome<Option<ReuseCandidate>>)
      requires Sound(hash, repo.View())
      modifies repo
      ensures Sound(hash, repo.View())
      ensures repo.View() == Apply(hash, old(repo.View()), Resolve(r, w, identity, identityHash, now))
      ensures x.Done? <==>
              && hash(identity) == identityHash
              && r in old(repo.leases) && old(repo.leases)[r].worker == w && now <= old(repo.leases)[r].expiresAt
              && MayAsk(old(repo.orders), old(repo.leases)[r].order, identity)
      ensures x.Done? ==>
              LookupAnswered(old(repo.View()), repo.View(), hash, r, w, identity, identityHash, now, x.value)
      ensures x.Refused? ==> x.failure in {IdentityMismatch, NotOwned, ReuseNotAllowed}
    {
      ghost var p := repo.View();
      ResolveApplies(hash, p, r, w, identity, identityHash, now);
      x := TryResolve(r, w, identity, identityHash, now);
      if x.Done? {
        ResolveIsExact(p, hash, r, w, identity, identityHash, now);
      }
    }

    method TryResolve(r: nat, w: string, identity: Identity, identityHash: string, now: int)
      returns (x: Outcome<Option<ReuseCandidate>>)
      requires SourcesKnown(repo.View())
      requires r in repo.leases ==> Leased(repo.View(), r) && ActiveRun(repo.runs[r].status)
      modifies repo
      ensures x.Done? <==> CanResolve(old(repo.View()), hash, r, w, identity, identityHash, now)
      ensures x.Done? ==> x.value == LookedUp(old(repo.View()), hash, r, w, identity, identityHash, now)
      ensures repo.View() == if x.Done?
                             then WithReuse(old(repo.View()), r,
                                            ResolvedRecord(old(repo.runs)[r].reuse, identity, identityHash, x.value))
                             else old(repo.View())
      ensures x.Refused? ==> x.failure in {IdentityMismatch, NotOwned, ReuseNotAllowed}
    {
      if hash(identity) != identityHash {
        return Refused(IdentityMismatch);
      }
      if r !in repo.leases || repo.leases[r].worker != w || repo.leases[r].expiresAt < now {
        return Refused(NotOwned);
      }
      var terms := repo.orders[repo.leases[r].order].terms;
      if terms.reuse == Never {
        return Refused(ReuseNotAllowed);
      }
      if !IdentityFits(terms, identity) {
        return Refused(IdentityMismatch);
      }
      var selected := FindSource(terms, r, w, identity, identityHash, now);
      var hit := repo.UpdateActiveRunReuse(r, ResolvedRecord(repo.runs[r].reuse, identity, identityHash, selected));
      x := if hit then Done(selected) else Refused(NotOwned);
    }

    /** Validate the listed sources in turn and stop at the first that passes. */
    method FindSource(terms: Terms, r: nat, w: string, identity: Identity, identityHash: string, now: int)
      returns (selected: Option<ReuseCandidate>)
      requires SourcesKnown(repo.View())
      ensures selected == NewestCandidate(repo.View(), hash, r, w, terms, identity, identityHash, now,
                                          |repo.runs|, MAX_EXACT_REUSE_CANDIDATES)
    {
      var rows := repo.Rows();
      var keys := repo.ListExactReuseCandidates(terms, w, identityHash, r);
      LookupIgnoresLedger(repo.View(), rows, hash, r, w, terms, identity, identityHash, now, |repo.runs|,
                          MAX_EXACT_REUSE_CANDIDATES);
      ListThenValidate(rows, hash, r, w, terms, identity, identityHash, now, |repo.runs|, MAX_EXACT_REUSE_CANDIDATES);
      selected := None;
      var i := 0;
      while i < |keys| && selected.None?
        invariant 0 <= i <= |keys|
        invariant selected.Some? ==> selected == FirstValidated(rows, hash, keys, identity, now)
        invariant selected.None? ==>
                    FirstValidated(rows, hash, keys[i..], identity, now)
                    == FirstValidated(rows, hash, keys, identity, now)
        decreases |keys| - i, selected.None?
      {
        selected := ValidatedCandidate(rows, hash, keys[i], identity, now);
        assert keys[i..][0] == keys[i] && keys[i..][1..] == keys[i + 1..];
        i := i + 1;
      }
    }

    // ----- routing -----

    /** Evaluate every registered worker for one order. */
    method RoutingEligibilities(terms: Terms, now: int) returns (eligible: seq<string>, mismatches: seq<Reason>)
      ensures forall v :: v in eligible <==> v in repo.workers && EligibleFor(cfg, repo.View(), v, terms, now)
      ensures Distinct(eligible)
      ensures |eligible| == |EligibleWorkers(cfg, repo.View(), terms, now)|
      ensures ListsAll(cfg, repo.View(), terms, now, mismatches)
    {
      var ws := repo.ListWorkers();
      eligible, mismatches := [], [];
      for k := 0 to |ws|
        invariant forall v :: v in eligible <==> v in ws[..k] && EligibleFor(cfg, repo.View(), v, terms, now)
        invariant Distinct(eligible)
        invariant forall x :: x in mismatches <==>
                  exists v :: v in ws[..k] && Against(cfg, repo.View(), v, terms, now, x)
      {
        var w := ws[k];
        assert w in ws && w !in ws[..k] && ws[..k + 1] == ws[..k] + [w];
        var fits, reasons := EvaluateWorker(w, terms, now);
        if fits {
          eligible := eligible + [w];
        }
        mismatches := Unique(mismatches + reasons);
      }
      assert ws[..|ws|] == ws;
      DistinctSize(eligible, EligibleWorkers(cfg, repo.View(), terms, now));
    }

    /** One worker as it is registered now. */
    method EvaluateWorker(w: string, terms: Terms, now: int) returns (fits: bool, reasons: seq<Reason>)
      requires w in repo.workers
      ensures fits <==> EligibleFor(cfg, repo.View(), w, terms, now)
      ensures Lists(cfg, repo.View(), w, terms, now, reasons)
    {
      var profile := if w in repo.profiles then Some(repo.profiles[w]) else None;
      fits, reasons := EvaluateRoutingCandidate(cfg, w, repo.workers[w], profile, terms, now);
    }

    /** The head of the ranking of the eligible workers of a routed order. */
    method SelectBest(terms: Terms, now: int, eligible: seq<string>) returns (best: Option<string>)
      requires Inv(repo.View()) && terms.routing == CheapestCapable
      requires forall v :: v in eligible <==> v in repo.workers && EligibleFor(cfg, repo.View(), v, terms, now)
      requires Distinct(eligible)
      ensures best.Some? ==> Best(cfg, repo.View(), best.value, terms, now)
      ensures best.None? ==> eligible == []
    {
      if eligible == [] {
        return None;
      }
      var candidates := Candidates(repo.workers, repo.profiles, eligible);
      CandidatesAreRankable(cfg, repo.View(), eligible, terms, now);
      HeadIsBest(candidates, Rank(candidates)[0]);
      HeadMeansBest(cfg, repo.View(), eligible, terms, now, Rank(candidates)[0]);
      best := Some(Rank(candidates)[0].id);
    }

    /** A read-only decision for one queued order: who would get it, and how many could. */
    method AssessRoute(o: nat, now: int) returns (x: Outcome<Assessment>)
      requires Inv(repo.View())
      ensures x.Done? <==> InStatus(repo.View(), o, {Queued})
      ensures x.Done? ==> Assessed(cfg, repo.View(), o, now, x.value)
    {
      if o >= |repo.orders| {
        return Refused(NotFound);
      }
      if repo.orders[o].status != Queued {
        return Refused(WrongStatus);
      }
      var terms := repo.orders[o].terms;
      var eligible, mismatches := RoutingEligibilities(terms, now);
      var selected, revision, cost := None, None, None;
      if terms.routing == CheapestCapable {
        selected := SelectBest(terms, now, eligible);
        if selected.Some? {
          revision, cost := Some(repo.profiles[selected.value].revision), Some(repo.profiles[selected.value].cost);
        }
      } else if terms.preferred.Some? && terms.preferred.value in eligible {
        selected := terms.preferred;
      }
      var reason := if eligible == [] then NoRoute(UnavailableRouteReason(mismatches, terms.preferred.Some?))
                    else if terms.routing == FirstAvailable then FirstAvailableWorker else RoutingSelected;
      x := Done(Assessment(selected, revision, cost, |eligible|, terms.preferred.Some?, reason));
    }

    /** The savepoint of a claim: a slot, the quota, the order, then the run and its lease. */
    method ClaimRoutedWork(w: string, o: nat, seen: Option<Profile>, eligible: nat, now: int) returns (x: ClaimResult)
      requires o < |repo.orders|
      modifies repo
      ensures x.Won? <==> CanClaim(old(repo.View()), w, o, seen)
      ensures x.Won? ==> x.run == |old(repo.runs)|
      ensures repo.View() == if !x.Won? then old(repo.View())
                             else Claimed(old(repo.View()), w, o, seen, eligible, now, now + cfg.leaseSeconds)
      ensures x.NoSlot? <==> !CanTakeSlot(old(repo.View()), w)
      ensures x.OrderTaken? ==> old(repo.orders)[o].status != Queued
    {
      var savepoint := repo.Begin();
      var slot := repo.ReserveWorkerCapacity(w);
      if !slot {
        return NoSlot;
      }
      var units := 0;
      var revision, cost := None, None;
      if seen.Some? {
        units := repo.orders[o].terms.requiredQuota;
        revision := repo.ReserveRoutingQuota(w, seen.value.revision, units);
        if revision.None? {
          repo.Rollback(savepoint);
          return QuotaConflict;
        }
        cost := Some(seen.value.cost);
      }
      var route := Route(w, revision, cost, units, eligible, repo.orders[o].terms.preferred.Some?, now);
      var claimed := repo.ClaimQueuedWorkOrder(o, route, now);
      if !claimed {
        repo.Rollback(savepoint);
        return OrderTaken;
      }
      var run := repo.CreateActiveRun(o, route, now + cfg.leaseSeconds);
      x := Won(run);
    }

    /** One queued order in the scan of a checkout. */
    method TryOrder(w: string, o: nat, now: int) returns (x: Tried)
      requires Inv(repo.View()) && InStatus(repo.View(), o, {Queued}) && w in repo.workers
      modifies repo
      ensures TriedRight(cfg, old(repo.View()), w, o, now, x, repo.View())
    {
      ghost var p := repo.View();
      var terms := repo.orders[o].terms;
      var eligible, _ := RoutingEligibilities(terms, now);
      var _, reasons := EvaluateWorker(w, terms, now);
      var seen := None;
      if terms.routing == FirstAvailable {
        if w !in eligible {
          var u := UnavailableRouteReason(reasons, terms.preferred.Some?);
          assert Reports(cfg, p, w, terms, now, u);
          return Skip(if u.NoCapableWorkers? then None else Some(RouteUnavailable(u)), reasons);
        }
      } else {
        var best := SelectBest(terms, now, eligible);
        if best.None? {
          var u := UnavailableRouteReason(reasons, terms.preferred.Some?);
          assert Reports(cfg, p, w, terms, now, u);
          return Skip(Some(RouteUnavailable(u)), reasons);
        }
        if best.value != w {
          NotBest(cfg, p, w, best.value, o, now);
          return Skip(Some(BetterCandidateActive), reasons);
        }
        seen := Some(repo.profiles[w]);
      }
      WinnerCanClaim(cfg, p, w, o, now);
      var claim := ClaimRoutedWork(w, o, seen, |eligible|, now);
      match claim
      case Won(run) => x := Got(run);
      case OrderTaken => x := Skip(Some(CheckoutConflict), reasons);
      case QuotaConflict => x := Stop(ReservationConflict);
      case NoSlot => x := Stop(NoFreeSlot);
    }

    /** Offer the queued orders to an online worker, oldest first. */
    method CheckoutEligibleWork(w: string, clock: Clock) returns (x: Assignment)
      requires Inv(repo.View()) && w in repo.workers
      modifies repo
      ensures Scanned(cfg, old(repo.View()), w, clock, x, repo.View())
    {
      ghost var p := repo.View();
      var route, mismatches := None, [];
      for o := 0 to |repo.orders|
        invariant repo.View() == p
        invariant Unserved(cfg, p, w, clock, o, route, mismatches)
      {
        if repo.orders[o].status == Queued {
          var tried := TryOrder(w, o, clock.scan(o));
          match tried {
            case Got(run) =>
              ScanEnds(cfg, p, w, clock, o, route, mismatches, tried, repo.View());
              return Given(run, o);
            case Stop(why) =>
              ScanEnds(cfg, p, w, clock, o, route, mismatches, tried, repo.View());
              return NotGiven(why, []);
            case Skip(obstacle, reasons) =>
              UnservedNext(cfg, p, w, clock, o, route, mismatches, tried, repo.View());
              route := if route.Some? then route else obstacle;
              mismatches := Unique(mismatches + reasons);
          }
        } else {
          UnqueuedNext(cfg, p, w, clock, o, route, mismatches);
        }
      }
      UnservedEnd(cfg, p, w, clock, route, mismatches);
      x := NotGiven(Told(route, mismatches), mismatches);
    }

    /** A worker asks for work. */
    method Checkout(w: string, clock: Clock) returns (x: Outcome<Assignment>)
      requires Sound(hash, repo.View())
      modifies repo
      ensures Sound(hash, repo.View())
      ensures CheckedOut(cfg, old(repo.View()), w, clock, if x.Done? then Some(x.value) else None, repo.View())
      ensures x.Refused? ==> x.failure in {StaleLeaseConflict, NotFound}
    {
      ghost var p := repo.View();
      var request := repo.Begin();
      var expired, _ := ExpireStaleLeases(clock.sweep);
      if expired.Refused? {
        return Refused(expired.failure);
      }
      SweepIsSound(hash, p, clock.sweep);
      ghost var swept := repo.View();
      var polled := repo.RecordCheckoutPoll(w, clock.poll);
      if !polled {
        repo.Rollback(request);
        return Refused(NotFound);
      }
      ghost var q := repo.View();
      PollIsSound(hash, swept, w, clock.poll);
      if repo.workers[w].status in {Draining, Offline} {
        return Done(NotGiven(WorkerUnavailable, []));
      }
      if repo.workers[w].status == Busy {
        return Done(NotGiven(NoFreeSlot, []));
      }
      var given := CheckoutEligibleWork(w, clock);
      ScanIsSound(hash, cfg, q, w, clock, given, repo.View());
      x := Done(given);
    }
  }
}
