/**
 The outcome of an order is the outcome of its last run.
 */
module Outcomes {
  import opened Options
  import opened Lifecycle
  import opened Tables
  import opened Reuse
  import opened Events
  import opened PlaneInvariant
  import opened Changes
  import opened PlaneSteps
  import opened PlaneTheorems

  predicate Latest(p: Plane, r: nat) {
    r < |p.runs| && p.runs[r].order < |p.orders| && p.runs[r].attempt == p.orders[p.runs[r].order].attempts
  }

  /** Statuses an order reaches only through a run. */
  predicate Executed(s: OrderStatus) {
    s in {Succeeded, Failed, TimedOut}
  }

  /** A last run and its order agree on the outcome, in both directions, and on its time. */
  predicate Agree(order: WorkOrder, run: Run) {
    && (Executed(order.status) ==> order.status == OrderStatusOf(run.status) && order.finishedAt == run.finishedAt)
    && (run.status in {RunSucceeded, RunFailed} ==> order.status == OrderStatusOf(run.status))
  }

  predicate OutcomeOk(p: Plane, r: nat)
    requires r < |p.runs|
  {
    Latest(p, r) ==> Agree(p.orders[p.runs[r].order], p.runs[r])
  }

  ghost predicate OutcomesOk(p: Plane) {
    && (forall r: nat :: r < |p.runs| ==> OutcomeOk(p, r))
    && (forall o :: 0 <= o < |p.orders| && Executed(p.orders[o].status) ==> p.orders[o].attempts > 0)
  }

  /** An unleased order is moved before it ran to an end. */
  lemma MoveKeepsOutcomes(p: Plane, o: nat, order: WorkOrder)
    requires OutcomesOk(p) && o < |p.orders|
    requires p.orders[o].status in {PendingApproval, Approved, Queued}
    requires !Executed(order.status) && order.attempts == p.orders[o].attempts
    ensures OutcomesOk(WithOrder(p, o, order))
  {
    var q := WithOrder(p, o, order);
    forall k: nat | k < |q.runs|
      ensures OutcomeOk(q, k)
    {
      assert OutcomeOk(p, k);
    }
  }

  lemma OnlyLatest(p: Plane, r: nat)
    requires Inv(p) && r in p.leases
    ensures Latest(p, r) && p.leases[r].order < |p.orders| && p.runs[r].order == p.leases[r].order
    ensures p.orders[p.leases[r].order].attempts > 0
    ensures forall k: nat :: Latest(p, k) && p.runs[k].order == p.leases[r].order ==> k == r
  {
    assert LeaseOk(p.orders, p.runs, p.leases, r);
    AttemptBounded(p.orders, p.runs, r);
    forall k: nat | Latest(p, k) && p.runs[k].order == p.leases[r].order
      ensures k == r
    {
      LatestIsUnique(p.orders, p.runs, r, k);
    }
  }

  /** Replacing the rows of a lease's run and order by rows that agree. */
  lemma LeasedRowsKeepOutcomes(p: Plane, q: Plane, o: nat, r: nat)
    requires OutcomesOk(p) && o < |p.orders| && r < |p.runs| && p.runs[r].order == o
    requires forall k: nat :: Latest(p, k) && p.runs[k].order == o ==> k == r
    requires |q.orders| == |p.orders| && q.orders == p.orders[o := q.orders[o]]
    requires |q.runs| == |p.runs| && q.runs == p.runs[r := q.runs[r]]
    requires q.orders[o].attempts == p.orders[o].attempts > 0
    requires q.runs[r].order == o && q.runs[r].attempt == p.runs[r].attempt && Agree(q.orders[o], q.runs[r])
    ensures OutcomesOk(q)
  {
    var order, run := q.orders[o], q.runs[r];
    assert forall k :: 0 <= k < |p.runs| && k != r ==> q.runs[k] == p.runs[k];
    forall k: nat | k < |q.runs|
      ensures OutcomeOk(q, k)
    {
      assert OutcomeOk(p, k);
      if Latest(q, k) && k != r {
        assert Latest(p, k);
      }
    }
  }

  lemma CloseKeepsOutcomes(p: Plane, r: nat, c: Closing, now: int)
    requires Inv(p) && OutcomesOk(p) && CanClose(p, r) && TerminalRun(c.status)
    requires c.requeue ==> c.status == RunTimedOut
    ensures OutcomesOk(Closed(p, r, c, now))
  {
    OnlyLatest(p, r);
    LeasedRowsKeepOutcomes(p, Closed(p, r, c, now), p.leases[r].order, r);
  }

  lemma BeatKeepsOutcomes(p: Plane, r: nat, now: int, expiresAt: int)
    requires Inv(p) && OutcomesOk(p) && Leased(p, r)
    ensures OutcomesOk(RunBeaten(p, r, now, expiresAt))
  {
    OnlyLatest(p, r);
    LeasedRowsKeepOutcomes(p, RunBeaten(p, r, now, expiresAt), p.leases[r].order, r);
  }

  lemma ReuseKeepsOutcomes(p: Plane, r: nat, record: ReuseRecord)
    requires OutcomesOk(p) && r < |p.runs|
    ensures OutcomesOk(WithReuse(p, r, record))
  {
    var q := WithReuse(p, r, record);
    forall k: nat | k < |q.runs|
      ensures OutcomeOk(q, k)
    {
      assert OutcomeOk(p, k);
    }
  }

  lemma ClaimKeepsOutcomes(p: Plane, w: string, o: nat, seen: Option<Profile>, eligible: nat, now: int, expiresAt: int)
    requires Inv(p) && OutcomesOk(p) && CanClaim(p, w, o, seen)
    ensures OutcomesOk(Claimed(p, w, o, seen, eligible, now, expiresAt))
  {
    var q := Claimed(p, w, o, seen, eligible, now, expiresAt);
    forall k: nat | k < |q.runs|
      ensures OutcomeOk(q, k)
    {
      if k < |p.runs| {
        assert OutcomeOk(p, k) && RunOk(p, k);
        AttemptBounded(p.orders, p.runs, k);
      }
    }
  }

  lemma SameRowsKeepOutcomes(p: Plane, q: Plane)
    requires OutcomesOk(p) && SourcesKnown(p) && q.runs == p.runs && |p.orders| <= |q.orders|
    requires forall k :: 0 <= k < |p.orders| ==> q.orders[k] == p.orders[k]
    requires forall k :: |p.orders| <= k < |q.orders| ==> !Executed(q.orders[k].status)
    ensures OutcomesOk(q)
  {
    forall k: nat | k < |q.runs|
      ensures OutcomeOk(q, k)
    {
      assert OutcomeOk(p, k);
    }
  }

  lemma RunsHaveOrders(p: Plane)
    requires Inv(p)
    ensures SourcesKnown(p)
  {
    forall s | 0 <= s < |p.runs|
      ensures p.runs[s].order < |p.orders|
    {
      assert RunOk(p, s);
    }
  }

  lemma ChangeKeepsOutcomes(hash: Identity -> string, p: Plane, c: Change)
    requires Inv(p) && OutcomesOk(p) && Legal(hash, p, c)
    ensures OutcomesOk(Perform(hash, p, c))
  {
    match c {
      case Moved(o, moved) => MoveKeepsOutcomes(p, o, moved);
      case Claiming(w, o, seen, eligible, now, expiresAt) =>
        ClaimKeepsOutcomes(p, w, o, seen, eligible, now, expiresAt);
      case Beating(r, w, now, expiresAt) => BeatKeepsOutcomes(p, r, now, expiresAt);
      case Resolving(r, w, identity, identityHash, now) =>
        ReuseKeepsOutcomes(p, r, Resolved(p, hash, r, w, identity, identityHash, now));
      case Finishing(r, completion, now) =>
        CloseKeepsOutcomes(p, r, ClosingFor(p, hash, r, completion), now);
      case Lapsing(r, now) => CloseKeepsOutcomes(p, r, LapseClosing(p.runs[r]), now);
      case _ =>
        RunsHaveOrders(p);
        SameRowsKeepOutcomes(p, Perform(hash, p, c));
    }
  }

  lemma EventKeepsOutcomes(hash: Identity -> string, p: Plane, e: Event)
    requires Inv(p) && OutcomesOk(p)
    ensures OutcomesOk(Apply(hash, p, e))
  {
    var c := EventDoes(hash, p, e);
    ChangeKeepsOutcomes(hash, p, c);
  }

  lemma {:induction false} TraceKeepsOutcomes(hash: Identity -> string, p: Plane, es: seq<Event>)
    requires Inv(p) && OutcomesOk(p)
    ensures Inv(Trace(hash, p, es)) && OutcomesOk(Trace(hash, p, es))
    decreases |es|
  {
    if es != [] {
      EventKeepsInv(hash, p, es[0]);
      EventKeepsOutcomes(hash, p, es[0]);
      TraceKeepsOutcomes(hash, Apply(hash, p, es[0]), es[1..]);
    }
  }

  /** After every run of operations: an order that succeeded, failed or timed out did so
      through its last run, which ended at the same instant with the same outcome; and a
      last run that succeeded or failed settled its order. */
  lemma OutcomeIsLastRuns(hash: Identity -> string, es: seq<Event>, o: nat)
    requires o < |Trace(hash, EMPTY_PLANE, es).orders|
    ensures var p := Trace(hash, EMPTY_PLANE, es);
            && (Executed(p.orders[o].status) ==> HasAttempt(p.runs, o, p.orders[o].attempts))
            && (forall r :: 0 <= r < |p.runs| && p.runs[r].order == o && p.runs[r].attempt == p.orders[o].attempts ==>
                  Agree(p.orders[o], p.runs[r]))
  {
    var p := Trace(hash, EMPTY_PLANE, es);
    EmptyPlaneOk();
    TraceKeepsOutcomes(hash, EMPTY_PLANE, es);
    AttemptsAreExact(p, o);
    forall r | 0 <= r < |p.runs| && p.runs[r].order == o && p.runs[r].attempt == p.orders[o].attempts
      ensures Agree(p.orders[o], p.runs[r])
    {
      assert OutcomeOk(p, r);
    }
  }
}
