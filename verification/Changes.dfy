/**
 The ten kinds of change that events make to the plane. Every event performs one legal
 change, so what all legal changes keep, all events keep.
 */
module Changes {
  import opened Options
  import opened Lifecycle
  import opened Tables
  import opened Reuse
  import opened Events
  import opened PlaneInvariant

  datatype Change =
    | Unchanged
    | Added(terms: Terms)
    | Moved(order: nat, moved: WorkOrder)
    | WorkerSet(worker: string, row: Worker)
    | ProfileSet(worker: string, profile: Profile)
    | Claiming(worker: string, order: nat, seen: Option<Profile>, eligible: nat, now: int, expiresAt: int)
    | Beating(run: nat, worker: string, now: int, expiresAt: int)
    | Resolving(run: nat, worker: string, identity: Identity, identityHash: string, now: int)
    | Finishing(run: nat, completion: Completion, now: int)
    | Lapsing(run: nat, now: int)

  /** How an order moves while no run works on it. */
  predicate OrderMoves(a: WorkOrder, b: WorkOrder) {
    && a.status in {PendingApproval, Approved, Queued}
    && b.status in {Approved, Queued, Rejected, Cancelled, Expired}
    && b.status in OrderTransitions(a.status)
    && b == a.(status := b.status, approvedAt := b.approvedAt, queuedAt := b.queuedAt, finishedAt := b.finishedAt)
    && (a.status == PendingApproval && b.status in {Approved, Queued} ==> b.approvedAt.Some?)
    && (a.status != PendingApproval || b.status in {Rejected, Cancelled} ==> b.approvedAt == a.approvedAt)
  }

  /** A worker row may be rewritten as long as its slots stay counted. */
  predicate WorkerFits(p: Plane, w: string, row: Worker) {
    && row.maxConcurrency >= 1
    && row.active == (if w in p.workers then p.workers[w].active else 0)
    && (row.status == Online ==> row.active < row.maxConcurrency)
  }

  /** A profile may be written while nothing is reserved, with a higher revision. */
  predicate ProfileFits(p: Plane, w: string, profile: Profile) {
    && w in p.workers
    && NoneReserved(p.runs, w)
    && ValidProfile(profile)
    && (w in p.profiles ==> profile.revision > p.profiles[w].revision)
  }

  predicate Legal(hash: Identity -> string, p: Plane, c: Change) {
    match c
    case Unchanged => true
    case Added(terms) => ValidTerms(p, terms)
    case Moved(o, moved) => o < |p.orders| && OrderMoves(p.orders[o], moved)
    case WorkerSet(w, row) => WorkerFits(p, w, row)
    case ProfileSet(w, profile) => ProfileFits(p, w, profile)
    case Claiming(w, o, seen, _, _, _) => CanClaim(p, w, o, seen)
    case Beating(r, w, now, _) => Leased(p, r) && OwnsLive(p, r, w, now)
    case Resolving(r, w, identity, identityHash, now) => CanResolve(p, hash, r, w, identity, identityHash, now)
    case Finishing(r, completion, _) => CanClose(p, r) && Admissible(p, hash, r, completion)
    case Lapsing(r, now) => CanLapse(p, r, now)
  }

  function Perform(hash: Identity -> string, p: Plane, c: Change): Plane
    requires Legal(hash, p, c)
  {
    match c
    case Unchanged => p
    case Added(terms) => p.(orders := p.orders + [NewOrder(terms)])
    case Moved(o, moved) => WithOrder(p, o, moved)
    case WorkerSet(w, row) => WithWorker(p, w, row)
    case ProfileSet(w, profile) => WithProfile(p, w, profile)
    case Claiming(w, o, seen, eligible, now, expiresAt) => Claimed(p, w, o, seen, eligible, now, expiresAt)
    case Beating(r, _, now, expiresAt) => RunBeaten(p, r, now, expiresAt)
    case Resolving(r, w, identity, identityHash, now) =>
      WithReuse(p, r, Resolved(p, hash, r, w, identity, identityHash, now))
    case Finishing(r, completion, now) => Finished(p, hash, r, completion, now)
    case Lapsing(r, now) => Lapsed(p, r, now)
  }

  /** Change `c` is what event `e` does to plane `p`, and it comes from the right event. */
  ghost predicate Does(hash: Identity -> string, p: Plane, e: Event, c: Change) {
    && Legal(hash, p, c)
    && Apply(hash, p, e) == Perform(hash, p, c)
    && (c.ProfileSet? ==> (e.CreateProfile? || e.ReplaceProfile? || e.ResetQuota?) && e.worker == c.worker)
    && (c.Claiming? ==> e == Claim(c.worker, c.order, c.seen, c.eligible, c.now, c.expiresAt))
    && (c.Beating? ==> e == RunBeat(c.run, c.worker, c.now, c.expiresAt))
    && (e.RunBeat? && Leased(p, e.run) && OwnsLive(p, e.run, e.worker, e.now) ==> c.Beating?)
    && (c.Finishing? ==> || (e.Complete? && e.run == c.run && OwnsLive(p, c.run, e.worker, e.now))
                         || (e.Cancel? && LeaseOf(p.leases, e.order, c.run)))
    && (c.Lapsing? ==> e == Lapse(c.run, c.now))
    && (c.WorkerSet? ==> (e.Register? || e.WorkerBeat? || e.Poll?) && e.worker == c.worker)
  }

  // ----- event by event -----

  lemma CreateOrderDoes(hash: Identity -> string, p: Plane, terms: Terms) returns (c: Change)
    ensures Does(hash, p, CreateOrder(terms), c)
  {
    c := if ValidTerms(p, terms) then Added(terms) else Unchanged;
  }

  lemma ApproveDoes(hash: Identity -> string, p: Plane, o: nat, queue: bool, approvable: bool, now: int)
    returns (c: Change)
    ensures Does(hash, p, Approve(o, queue, approvable, now), c)
  {
    c := if InStatus(p, o, {PendingApproval}) && approvable
         then Moved(o, ApprovedOrder(p.orders[o], queue, now)) else Unchanged;
  }

  lemma QueueDoes(hash: Identity -> string, p: Plane, o: nat, now: int) returns (c: Change)
    ensures Does(hash, p, Queue(o, now), c)
  {
    c := if InStatus(p, o, {Approved}) then Moved(o, QueuedOrder(p.orders[o], now)) else Unchanged;
  }

  lemma RejectDoes(hash: Identity -> string, p: Plane, o: nat, now: int) returns (c: Change)
    ensures Does(hash, p, Reject(o, now), c)
  {
    c := if InStatus(p, o, {PendingApproval}) then Moved(o, EndedOrder(p.orders[o], Rejected, now)) else Unchanged;
  }

  lemma ExpireDoes(hash: Identity -> string, p: Plane, o: nat, now: int) returns (c: Change)
    ensures Does(hash, p, ExpireOrder(o, now), c)
  {
    c := if InStatus(p, o, {Approved, Queued}) then Moved(o, EndedOrder(p.orders[o], Expired, now)) else Unchanged;
  }

  lemma CancelFinishes(hash: Identity -> string, p: Plane, o: nat, now: int) returns (r: nat)
    requires !InStatus(p, o, {PendingApproval, Approved, Queued}) && exists s: nat :: CanCancelLeased(p, hash, o, s)
    ensures CanCancelLeased(p, hash, o, r) && AfterCancel(p, hash, o, now) == Finished(p, hash, r, CANCELLATION, now)
  {
    r :| CanCancelLeased(p, hash, o, r) && AfterCancel(p, hash, o, now) == Finished(p, hash, r, CANCELLATION, now);
  }

  lemma CancelDoes(hash: Identity -> string, p: Plane, o: nat, now: int) returns (c: Change)
    ensures Does(hash, p, Cancel(o, now), c)
  {
    if InStatus(p, o, {PendingApproval, Approved, Queued}) {
      c := Moved(o, EndedOrder(p.orders[o], Cancelled, now));
    } else if exists r: nat :: CanCancelLeased(p, hash, o, r) {
      var r := CancelFinishes(hash, p, o, now);
      c := Finishing(r, CANCELLATION, now);
    } else {
      c := Unchanged;
    }
  }

  lemma RegisterDoes(hash: Identity -> string, p: Plane, w: string, r: Registration, now: int) returns (c: Change)
    ensures Does(hash, p, Register(w, r, now), c)
  {
    c := if !r.repositoryWrite && r.maxConcurrency >= 1 then WorkerSet(w, Registered(p, w, r, now)) else Unchanged;
  }

  lemma WorkerBeatDoes(hash: Identity -> string, p: Plane, w: string, status: Option<WorkerStatus>, now: int)
    returns (c: Change)
    requires w in p.workers ==> WorkerOk(p.workers, p.leases, w)
    ensures Does(hash, p, WorkerBeat(w, status, now), c)
  {
    c := if w in p.workers then WorkerSet(w, Beaten(p.workers[w], status, now)) else Unchanged;
  }

  lemma PollDoes(hash: Identity -> string, p: Plane, w: string, now: int) returns (c: Change)
    requires w in p.workers ==> WorkerOk(p.workers, p.leases, w)
    ensures Does(hash, p, Poll(w, now), c)
  {
    c := if w in p.workers then WorkerSet(w, p.workers[w].(lastPoll := Some(now))) else Unchanged;
  }

  lemma UnprofiledUnreserved(p: Plane, w: string)
    requires RunsOk(p) && w !in p.profiles
    ensures NoneReserved(p.runs, w)
  {
    forall r | 0 <= r < |p.runs| && p.runs[r].worker == w
      ensures p.runs[r].quotaState != Reserved
    {
      assert RunOk(p, r);
    }
  }

  lemma CreateProfileDoes(hash: Identity -> string, p: Plane, w: string, d: ProfileDraft) returns (c: Change)
    requires w !in p.profiles ==> NoneReserved(p.runs, w)
    ensures Does(hash, p, CreateProfile(w, d), c)
  {
    c := if CanCreateProfile(p, w, d) then ProfileSet(w, Drafted(d, 1)) else Unchanged;
  }

  lemma ReplaceProfileDoes(hash: Identity -> string, p: Plane, w: string, expected: int, d: ProfileDraft)
    returns (c: Change)
    requires w in p.profiles ==> w in p.workers
    ensures Does(hash, p, ReplaceProfile(w, expected, d), c)
  {
    c := if CanReplaceProfile(p, w, expected, d) then ProfileSet(w, Drafted(d, expected + 1)) else Unchanged;
  }

  lemma ResetQuotaDoes(hash: Identity -> string, p: Plane, w: string, expected: int, remaining: int, resetAt: int)
    returns (c: Change)
    requires w in p.profiles ==> w in p.workers && ValidProfile(p.profiles[w])
    ensures Does(hash, p, ResetQuota(w, expected, remaining, resetAt), c)
  {
    c := if CanResetQuota(p, w, expected, remaining, resetAt)
         then ProfileSet(w, ResetProfile(p.profiles[w], remaining, resetAt)) else Unchanged;
  }

  lemma ClaimDoes(
    hash: Identity -> string, p: Plane, w: string, o: nat, seen: Option<Profile>, eligible: nat, now: int,
    expiresAt: int) returns (c: Change)
    ensures Does(hash, p, Claim(w, o, seen, eligible, now, expiresAt), c)
  {
    c := if CanClaim(p, w, o, seen) then Claiming(w, o, seen, eligible, now, expiresAt) else Unchanged;
  }

  lemma RunBeatDoes(hash: Identity -> string, p: Plane, r: nat, w: string, now: int, expiresAt: int) returns (c: Change)
    ensures Does(hash, p, RunBeat(r, w, now, expiresAt), c)
  {
    c := if Leased(p, r) && OwnsLive(p, r, w, now) then Beating(r, w, now, expiresAt) else Unchanged;
  }

  lemma ResolveDoes(
    hash: Identity -> string, p: Plane, r: nat, w: string, identity: Identity, identityHash: string,
    now: int) returns (c: Change)
    ensures Does(hash, p, Resolve(r, w, identity, identityHash, now), c)
  {
    c := if CanResolve(p, hash, r, w, identity, identityHash, now)
         then Resolving(r, w, identity, identityHash, now) else Unchanged;
  }

  lemma CompleteDoes(hash: Identity -> string, p: Plane, r: nat, w: string, completion: Completion, now: int)
    returns (c: Change)
    ensures Does(hash, p, Complete(r, w, completion, now), c)
  {
    c := if CanComplete(p, hash, r, w, completion, now) then Finishing(r, completion, now) else Unchanged;
  }

  lemma LapseDoes(hash: Identity -> string, p: Plane, r: nat, now: int) returns (c: Change)
    ensures Does(hash, p, Lapse(r, now), c)
  {
    c := if CanLapse(p, r, now) then Lapsing(r, now) else Unchanged;
  }

  /** Every event does exactly one legal change. */
  lemma EventDoes(hash: Identity -> string, p: Plane, e: Event) returns (c: Change)
    requires Inv(p)
    ensures Does(hash, p, e, c)
  {
    match e {
      case CreateOrder(terms) => c := CreateOrderDoes(hash, p, terms);
      case Approve(o, queue, approvable, now) => c := ApproveDoes(hash, p, o, queue, approvable, now);
      case Queue(o, now) => c := QueueDoes(hash, p, o, now);
      case Reject(o, now) => c := RejectDoes(hash, p, o, now);
      case ExpireOrder(o, now) => c := ExpireDoes(hash, p, o, now);
      case Cancel(o, now) => c := CancelDoes(hash, p, o, now);
      case Register(w, r, now) => c := RegisterDoes(hash, p, w, r, now);
      case WorkerBeat(w, status, now) => c := WorkerBeatDoes(hash, p, w, status, now);
      case Poll(w, now) => c := PollDoes(hash, p, w, now);
      case CreateProfile(w, d) =>
        if w !in p.profiles {
          UnprofiledUnreserved(p, w);
        }
        c := CreateProfileDoes(hash, p, w, d);
      case ReplaceProfile(w, expected, d) => c := ReplaceProfileDoes(hash, p, w, expected, d);
      case ResetQuota(w, expected, remaining, resetAt) =>
        assert w in p.profiles ==> AccountOk(p.runs, w, p.profiles[w], p.ledger[w]);
        c := ResetQuotaDoes(hash, p, w, expected, remaining, resetAt);
      case Claim(w, o, seen, eligible, now, expiresAt) => c := ClaimDoes(hash, p, w, o, seen, eligible, now, expiresAt);
      case RunBeat(r, w, now, expiresAt) => c := RunBeatDoes(hash, p, r, w, now, expiresAt);
      case Resolve(r, w, identity, identityHash, now) => c := ResolveDoes(hash, p, r, w, identity, identityHash, now);
      case Complete(r, w, completion, now) => c := CompleteDoes(hash, p, r, w, completion, now);
      case Lapse(r, now) => c := LapseDoes(hash, p, r, now);
    }
  }
}
