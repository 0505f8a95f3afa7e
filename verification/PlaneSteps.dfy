/**
 Every kind of change keeps the cross-table invariant, and so does every event.
 */
module PlaneSteps {
  import opened Options
  import opened Lifecycle
  import opened Tables
  import opened Reuse
  import opened Events
  import opened Accounts
  import opened PlaneInvariant
  import opened Changes

  // ----- an order that has no lease changes status -----

  lemma OrderStepLeases(p: Plane, o: nat, order: WorkOrder)
    requires LeasesOk(p.orders, p.runs, p.leases) && RunsOk(p)
    requires o < |p.orders| && !ActiveOrder(p.orders[o].status)
    ensures LeasesOk(p.orders[o := order], p.runs, p.leases)
  {
    forall r | r in p.leases
      ensures LeaseOk(p.orders[o := order], p.runs, p.leases, r)
    {
      assert LeaseOk(p.orders, p.runs, p.leases, r) && RunOk(p, r);
    }
  }

  /** One order changes, and leases of other orders survive. */
  lemma OrdersFollow(
    orders: seq<WorkOrder>, leases: map<nat, Lease>, o: nat, order: WorkOrder, leases': map<nat, Lease>)
    requires OrdersOk(orders, leases) && o < |orders|
    requires forall k, r :: LeaseOf(leases, k, r) && k != o ==> LeaseOf(leases', k, r)
    requires ActiveOrder(order.status) ==> exists r :: LeaseOf(leases', o, r)
    requires order.attempts > 0 ==> order.approvedAt.Some?
    requires order.status !in {PendingApproval, Rejected, Cancelled} ==> order.approvedAt.Some?
    requires order.status in {PendingApproval, Rejected} ==> order.approvedAt.None?
    ensures OrdersOk(orders[o := order], leases')
  {
    var rows := orders[o := order];
    forall k: nat | k < |rows|
      ensures OrderOk(rows, leases', k)
    {
      assert OrderOk(orders, leases, k);
    }
  }

  lemma OrderStep(p: Plane, o: nat, order: WorkOrder)
    requires Inv(p) && o < |p.orders|
    requires !ActiveOrder(p.orders[o].status) && !ActiveOrder(order.status)
    requires order == p.orders[o].(status := order.status, approvedAt := order.approvedAt,
                                   queuedAt := order.queuedAt, finishedAt := order.finishedAt)
    requires order.status !in {PendingApproval, Rejected, Cancelled} ==> order.approvedAt.Some?
    requires order.status in {PendingApproval, Rejected} ==> order.approvedAt.None?
    requires p.orders[o].approvedAt.Some? ==> order.approvedAt.Some?
    ensures Inv(WithOrder(p, o, order))
  {
    var q := WithOrder(p, o, order);
    assert OrderOk(p.orders, p.leases, o);
    AttemptsKept(p.orders, p.runs, q.orders, q.runs);
    OrderStepLeases(p, o, order);
    OrdersFollow(p.orders, p.leases, o, order, p.leases);
    forall r: nat | r < |q.runs|
      ensures RunOk(q, r)
    {
      assert RunOk(p, r);
    }
  }

  lemma {:induction false} NoRunsYet(runs: seq<Run>, n: nat, o: nat)
    requires n <= |runs| && forall r :: 0 <= r < n ==> runs[r].order < o
    ensures RunsOf(runs, n, o) == 0
  {
    if n > 0 {
      NoRunsYet(runs, n - 1, o);
    }
  }

  lemma NewOrderAttempts(p: Plane, order: WorkOrder)
    requires RunsOk(p) && AttemptsOk(p.orders, p.runs) && order.attempts == 0
    ensures AttemptsOk(p.orders + [order], p.runs)
  {
    var rows := p.orders + [order];
    forall r | 0 <= r < |p.runs|
      ensures p.runs[r].order < |p.orders|
    {
      assert RunOk(p, r);
    }
    NoRunsYet(p.runs, |p.runs|, |p.orders|);
    forall k: nat | k < |rows|
      ensures Counted(rows, p.runs, k)
    {
      assert k < |p.orders| ==> Counted(p.orders, p.runs, k);
    }
  }

  lemma NewOrderStep(p: Plane, terms: Terms)
    requires Inv(p)
    ensures Inv(p.(orders := p.orders + [NewOrder(terms)]))
  {
    var q := p.(orders := p.orders + [NewOrder(terms)]);
    NewOrderAttempts(p, NewOrder(terms));
    forall r: nat | r < |q.runs|
      ensures RunOk(q, r)
    {
      assert RunOk(p, r);
    }
    forall r | r in q.leases
      ensures LeaseOk(q.orders, q.runs, q.leases, r)
    {
      assert LeaseOk(p.orders, p.runs, p.leases, r);
    }
    forall k: nat | k < |q.orders|
      ensures OrderOk(q.orders, q.leases, k)
    {
      assert k < |p.orders| ==> OrderOk(p.orders, p.leases, k);
    }
  }

  // ----- a worker row is registered or refreshed -----

  lemma WorkerStepWorkers(p: Plane, w: string, worker: Worker)
    requires RunsOk(p) && LeasesOk(p.orders, p.runs, p.leases) && WorkersOk(p.workers, p.leases)
    requires worker.maxConcurrency >= 1
    requires worker.active == if w in p.workers then p.workers[w].active else 0
    requires worker.status == Online ==> worker.active < worker.maxConcurrency
    ensures WorkersOk(p.workers[w := worker], p.leases)
  {
    var rows := p.workers[w := worker];
    forall v | v in rows
      ensures WorkerOk(rows, p.leases, v)
    {
      if v in p.workers {
        assert WorkerOk(p.workers, p.leases, v);
      } else {
        forall r | r in p.leases
          ensures p.leases[r].worker != v
        {
          assert LeaseOk(p.orders, p.runs, p.leases, r) && RunOk(p, r);
        }
        assert HeldBy(p.leases, v) == {};
      }
    }
  }

  lemma WorkerStep(p: Plane, w: string, worker: Worker)
    requires Inv(p)
    requires worker.maxConcurrency >= 1
    requires worker.active == if w in p.workers then p.workers[w].active else 0
    requires worker.status == Online ==> worker.active < worker.maxConcurrency
    ensures Inv(WithWorker(p, w, worker))
  {
    var q := WithWorker(p, w, worker);
    WorkerStepWorkers(p, w, worker);
    forall r: nat | r < |q.runs|
      ensures RunOk(q, r)
    {
      assert RunOk(p, r);
    }
  }

  // ----- an operator writes a profile while nothing is reserved -----

  lemma ProfileStep(p: Plane, w: string, profile: Profile)
    requires Inv(p) && w in p.workers && NoneReserved(p.runs, w) && ValidProfile(profile)
    ensures Inv(WithProfile(p, w, profile))
  {
    var q := WithProfile(p, w, profile);
    forall r: nat | r < |q.runs|
      ensures RunOk(q, r)
    {
      assert RunOk(p, r);
    }
  }

  // ----- a queued order is claimed -----

  lemma ClaimAccounts(p: Plane, run: Run, debit: bool)
    requires AccountsOk(p)
    requires run.quotaState == InitialQuota(run.route.reserved)
    requires debit ==>
               && run.worker in p.profiles
               && p.profiles[run.worker].revision < MAX_ROUTING_INTEGER
               && run.route.reserved <= p.profiles[run.worker].remaining
    requires !debit ==> run.route.reserved == 0
    ensures AccountsOk(p.(runs := p.runs + [run],
                          profiles := if debit
                            then p.profiles[run.worker := Debited(p.profiles[run.worker], run.route.reserved)]
                                      else p.profiles))
  {
    var xs := p.runs + [run];
    var rows := if debit then p.profiles[run.worker := Debited(p.profiles[run.worker], run.route.reserved)]
      else p.profiles;
    forall v | v in rows
      ensures v in p.workers && v in p.ledger && AccountOk(xs, v, rows[v], p.ledger[v])
    {
      var l := p.ledger[v];
      assert AccountOk(p.runs, v, p.profiles[v], l);
      ChargedAgree(p.runs, xs, l.epoch, |p.runs|, v);
      assert Charged(xs, l.epoch, |xs|, v) == Charged(xs, l.epoch, |p.runs|, v) + Charge(run, v);
    }
  }

  lemma HeldAfterClaim(leases: map<nat, Lease>, r: nat, lease: Lease, v: string)
    requires r !in leases
    ensures |HeldBy(leases[r := lease], v)| == |HeldBy(leases, v)| + (if v == lease.worker then 1 else 0)
  {
    var before, after := HeldBy(leases, v), HeldBy(leases[r := lease], v);
    if v == lease.worker {
      assert after == before + {r};
    } else {
      assert after == before;
    }
  }

  lemma ClaimWorkers(workers: map<string, Worker>, leases: map<nat, Lease>, r: nat, lease: Lease)
    requires WorkersOk(workers, leases) && r !in leases && lease.worker in workers
    requires workers[lease.worker].active < workers[lease.worker].maxConcurrency
    ensures WorkersOk(workers[lease.worker := TakenSlot(workers[lease.worker])], leases[r := lease])
  {
    var rows, held := workers[lease.worker := TakenSlot(workers[lease.worker])], leases[r := lease];
    forall v | v in rows
      ensures WorkerOk(rows, held, v)
    {
      assert WorkerOk(workers, leases, v);
      HeldAfterClaim(leases, r, lease, v);
    }
  }

  lemma ClaimRuns(p: Plane, w: string, o: nat, seen: Option<Profile>, eligible: nat, now: int, expiresAt: int)
    requires RunsOk(p) && AttemptsOk(p.orders, p.runs) && CanClaim(p, w, o, seen)
    ensures RunsOk(Claimed(p, w, o, seen, eligible, now, expiresAt))
  {
    var q := Claimed(p, w, o, seen, eligible, now, expiresAt);
    forall r: nat | r < |q.runs|
      ensures RunOk(q, r)
    {
      if r < |p.runs| {
        assert RunOk(p, r);
        if p.runs[r].order == o {
          AttemptBounded(p.orders, p.runs, r);
        }
      }
    }
  }

  lemma ClaimLeases(p: Plane, q: Plane, o: nat, run: Run)
    requires RunsOk(p) && LeasesOk(p.orders, p.runs, p.leases) && |p.runs| !in p.leases
    requires |q.orders| == |p.orders| && o < |p.orders| && p.orders[o].status == Queued
    requires q.orders == p.orders[o := q.orders[o]] && q.orders[o].status == Assigned
    requires q.runs == p.runs + [run] && run.order == o && run.status == RunAssigned
    requires run.attempt == q.orders[o].attempts
    requires q.leases == p.leases[|p.runs| := Lease(o, run.worker, run.leaseExpiresAt)]
    ensures LeasesOk(q.orders, q.runs, q.leases)
  {
    forall r | r in q.leases
      ensures LeaseOk(q.orders, q.runs, q.leases, r)
      ensures r != |p.runs| ==> q.leases[r].order != o
    {
      if r in p.leases {
        assert LeaseOk(p.orders, p.runs, p.leases, r) && RunOk(p, r);
      }
    }
  }

  lemma NextRunUnleased(p: Plane)
    requires LeasesOk(p.orders, p.runs, p.leases)
    ensures |p.runs| !in p.leases
  {
    assert |p.runs| in p.leases ==> LeaseOk(p.orders, p.runs, p.leases, |p.runs|);
  }

  lemma ClaimTables(p: Plane, w: string, o: nat, seen: Option<Profile>, eligible: nat, now: int, expiresAt: int)
    requires LeasesOk(p.orders, p.runs, p.leases) && WorkersOk(p.workers, p.leases) && AccountsOk(p)
    requires AttemptsOk(p.orders, p.runs) && CanClaim(p, w, o, seen)
    ensures var q := Claimed(p, w, o, seen, eligible, now, expiresAt);
            WorkersOk(q.workers, q.leases) && AttemptsOk(q.orders, q.runs) && AccountsOk(q)
  {
    var q := Claimed(p, w, o, seen, eligible, now, expiresAt);
    NextRunUnleased(p);
    AttemptsExtend(p.orders, p.runs, o, q.orders[o], q.runs[|p.runs|]);
    ClaimWorkers(p.workers, p.leases, |p.runs|, Lease(o, w, expiresAt));
    assert AccountsOk(q) by {
      ClaimAccounts(p, q.runs[|p.runs|], seen.Some?);
      assert AccountsOk(p.(runs := q.runs, profiles := q.profiles));
    }
  }

  lemma ClaimOrders(p: Plane, w: string, o: nat, seen: Option<Profile>, eligible: nat, now: int, expiresAt: int)
    requires OrdersOk(p.orders, p.leases) && |p.runs| !in p.leases && CanClaim(p, w, o, seen)
    ensures var q := Claimed(p, w, o, seen, eligible, now, expiresAt);
            OrdersOk(q.orders, q.leases)
  {
    var q := Claimed(p, w, o, seen, eligible, now, expiresAt);
    assert OrderOk(p.orders, p.leases, o);
    assert LeaseOf(q.leases, o, |p.runs|);
    OrdersFollow(p.orders, p.leases, o, q.orders[o], q.leases);
  }

  lemma ClaimStep(p: Plane, w: string, o: nat, seen: Option<Profile>, eligible: nat, now: int, expiresAt: int)
    requires Inv(p) && CanClaim(p, w, o, seen)
    ensures Inv(Claimed(p, w, o, seen, eligible, now, expiresAt))
  {
    var q := Claimed(p, w, o, seen, eligible, now, expiresAt);
    ClaimRuns(p, w, o, seen, eligible, now, expiresAt);
    ClaimTables(p, w, o, seen, eligible, now, expiresAt);
    NextRunUnleased(p);
    ClaimLeases(p, q, o, q.runs[|p.runs|]);
    ClaimOrders(p, w, o, seen, eligible, now, expiresAt);
  }

  // ----- rows of a leased run change while the lease stays -----

  /** Replacing the row of a run by one that charges the same keeps every account. */
  lemma AccountsKept(p: Plane, r: nat, run: Run)
    requires AccountsOk(p) && r < |p.runs|
    requires run.worker == p.runs[r].worker && run.route == p.runs[r].route
    requires run.quotaState == p.runs[r].quotaState || (p.runs[r].quotaState == Reserved && run.quotaState == Consumed)
    ensures AccountsOk(p.(runs := p.runs[r := run]))
  {
    var xs := p.runs[r := run];
    forall v | v in p.profiles
      ensures v in p.workers && v in p.ledger && AccountOk(xs, v, p.profiles[v], p.ledger[v])
    {
      assert AccountOk(p.runs, v, p.profiles[v], p.ledger[v]);
      ChargedAgree(p.runs, xs, p.ledger[v].epoch, |p.runs|, v);
    }
  }

  /** Only the latest run of an order is mirrored by it, so updating both together keeps
      every other run in order. */
  lemma TouchedRuns(p: Plane, q: Plane, r: nat, o: nat)
    requires RunsOk(p) && AttemptsOk(p.orders, p.runs)
    requires r < |p.runs| && o < |p.orders| && p.runs[r].order == o && p.runs[r].attempt == p.orders[o].attempts
    requires |q.runs| == |p.runs| && |q.orders| == |p.orders|
    requires forall k :: 0 <= k < |p.runs| && k != r ==> q.runs[k] == p.runs[k]
    requires forall k :: 0 <= k < |p.orders| && k != o ==> q.orders[k] == p.orders[k]
    requires q.orders[o].attempts == p.orders[o].attempts
    requires forall k :: k != r ==> (k in q.leases <==> k in p.leases)
    requires q.workers.Keys == p.workers.Keys && q.profiles.Keys == p.profiles.Keys
    requires RunOk(q, r)
    ensures RunsOk(q)
  {
    forall k: nat | k < |q.runs|
      ensures RunOk(q, k)
    {
      if k != r {
        assert RunOk(p, k);
        if p.runs[k].order == o && p.runs[k].attempt == p.orders[o].attempts {
          LatestIsUnique(p.orders, p.runs, k, r);
        }
      }
    }
  }

  lemma BeatLeases(p: Plane, r: nat, now: int, expiresAt: int)
    requires RunsOk(p) && LeasesOk(p.orders, p.runs, p.leases) && Leased(p, r)
    ensures var q := RunBeaten(p, r, now, expiresAt);
            LeasesOk(q.orders, q.runs, q.leases)
  {
    var q := RunBeaten(p, r, now, expiresAt);
    assert LeaseOk(p.orders, p.runs, p.leases, r) && RunOk(p, r);
    forall k | k in q.leases
      ensures LeaseOk(q.orders, q.runs, q.leases, k)
    {
      assert LeaseOk(p.orders, p.runs, p.leases, k);
    }
  }

  lemma RenewedWorkers(workers: map<string, Worker>, leases: map<nat, Lease>, r: nat, expiresAt: int)
    requires WorkersOk(workers, leases) && r in leases
    ensures WorkersOk(workers, leases[r := leases[r].(expiresAt := expiresAt)])
  {
    var held := leases[r := leases[r].(expiresAt := expiresAt)];
    forall w | w in workers
      ensures WorkerOk(workers, held, w)
    {
      assert WorkerOk(workers, leases, w);
      assert HeldBy(held, w) == HeldBy(leases, w);
    }
  }

  lemma BeatTables(p: Plane, r: nat, now: int, expiresAt: int)
    requires Inv(p) && Leased(p, r)
    ensures var q := RunBeaten(p, r, now, expiresAt);
            OrdersOk(q.orders, q.leases) && AccountsOk(q)
  {
    var q := RunBeaten(p, r, now, expiresAt);
    var o := p.leases[r].order;
    assert OrderOk(p.orders, p.leases, o) && LeaseOf(q.leases, o, r);
    assert LeaseOk(p.orders, p.runs, p.leases, r) && RunOk(p, r);
    OrdersFollow(p.orders, p.leases, o, q.orders[o], q.leases);
    AccountsKept(p, r, q.runs[r]);
    assert AccountsOk(p.(runs := q.runs));
  }

  lemma BeatRuns(p: Plane, r: nat, now: int, expiresAt: int)
    requires RunsOk(p) && LeasesOk(p.orders, p.runs, p.leases) && AttemptsOk(p.orders, p.runs) && Leased(p, r)
    ensures var q := RunBeaten(p, r, now, expiresAt);
            RunsOk(q) && AttemptsOk(q.orders, q.runs)
  {
    var q := RunBeaten(p, r, now, expiresAt);
    assert LeaseOk(p.orders, p.runs, p.leases, r) && RunOk(p, r);
    assert RunOk(q, r);
    TouchedRuns(p, q, r, p.leases[r].order);
    AttemptsKept(p.orders, p.runs, q.orders, q.runs);
  }

  lemma BeatStep(p: Plane, r: nat, now: int, expiresAt: int)
    requires Inv(p) && Leased(p, r)
    ensures Inv(RunBeaten(p, r, now, expiresAt))
  {
    BeatLeases(p, r, now, expiresAt);
    BeatRuns(p, r, now, expiresAt);
    BeatTables(p, r, now, expiresAt);
    RenewedWorkers(p.workers, p.leases, r, expiresAt);
  }

  lemma ReuseStep(p: Plane, r: nat, record: ReuseRecord)
    requires Inv(p) && r < |p.runs|
    ensures Inv(WithReuse(p, r, record))
  {
    var q := WithReuse(p, r, record);
    AccountsKept(p, r, q.runs[r]);
    AttemptsKept(p.orders, p.runs, q.orders, q.runs);
    forall k: nat | k < |q.runs|
      ensures RunOk(q, k)
    {
      assert RunOk(p, k);
    }
    forall k | k in q.leases
      ensures LeaseOk(q.orders, q.runs, q.leases, k)
    {
      assert LeaseOk(p.orders, p.runs, p.leases, k);
    }
  }

  // ----- a lease is closed -----

  lemma HeldAfterClose(leases: map<nat, Lease>, r: nat, v: string)
    requires r in leases
    ensures |HeldBy(leases - {r}, v)| == |HeldBy(leases, v)| - (if v == leases[r].worker then 1 else 0)
  {
    var before, after := HeldBy(leases, v), HeldBy(leases - {r}, v);
    if v == leases[r].worker {
      assert r in before;
      assert after == before - {r};
    } else {
      assert after == before;
    }
  }

  lemma CloseWorkers(workers: map<string, Worker>, leases: map<nat, Lease>, r: nat)
    requires WorkersOk(workers, leases) && r in leases && leases[r].worker in workers
    requires workers[leases[r].worker].active > 0
    ensures WorkersOk(workers[leases[r].worker := FreedSlot(workers[leases[r].worker])], leases - {r})
  {
    var w := leases[r].worker;
    var rows, held := workers[w := FreedSlot(workers[w])], leases - {r};
    forall v | v in rows
      ensures WorkerOk(rows, held, v)
    {
      assert WorkerOk(workers, leases, v);
      HeldAfterClose(leases, r, v);
    }
  }

  lemma CloseLeases(p: Plane, r: nat, c: Closing, now: int)
    requires LeasesOk(p.orders, p.runs, p.leases) && CanClose(p, r)
    ensures var q := Closed(p, r, c, now);
            LeasesOk(q.orders, q.runs, q.leases)
  {
    var q := Closed(p, r, c, now);
    assert LeaseOk(p.orders, p.runs, p.leases, r);
    forall k | k in q.leases
      ensures LeaseOk(q.orders, q.runs, q.leases, k)
    {
      assert LeaseOk(p.orders, p.runs, p.leases, k);
    }
  }

  lemma CloseOrders(p: Plane, r: nat, c: Closing, now: int)
    requires RunsOk(p) && LeasesOk(p.orders, p.runs, p.leases) && OrdersOk(p.orders, p.leases)
    requires CanClose(p, r) && TerminalRun(c.status)
    ensures var q := Closed(p, r, c, now);
            OrdersOk(q.orders, q.leases)
  {
    var q := Closed(p, r, c, now);
    var o := p.leases[r].order;
    assert LeaseOk(p.orders, p.runs, p.leases, r) && RunOk(p, r) && OrderOk(p.orders, p.leases, o);
    OrdersFollow(p.orders, p.leases, o, q.orders[o], q.leases);
  }

  /** A refund returns the units of one reserved run to the account they came from. */
  lemma RefundAccounts(p: Plane, r: nat, run: Run)
    requires AccountsOk(p) && r < |p.runs| && Refundable(p.runs[r])
    requires run.worker == p.runs[r].worker && run.route == p.runs[r].route && run.quotaState == Released
    requires run.worker in p.ledger && p.ledger[run.worker].epoch <= r
    requires CanRefund(p, run.worker, run.route.reserved)
    ensures AccountsOk(p.(runs := p.runs[r := run],
                          profiles := p.profiles[run.worker := Credited(p.profiles[run.worker], run.route.reserved)]))
  {
    var xs := p.runs[r := run];
    var rows := p.profiles[run.worker := Credited(p.profiles[run.worker], run.route.reserved)];
    forall v | v in rows
      ensures v in p.workers && v in p.ledger && AccountOk(xs, v, rows[v], p.ledger[v])
    {
      assert AccountOk(p.runs, v, p.profiles[v], p.ledger[v]);
      if v == run.worker {
        ChargedUpdate(p.runs, p.ledger[v].epoch, |p.runs|, v, r, run);
      } else {
        ChargedAgree(p.runs, xs, p.ledger[v].epoch, |p.runs|, v);
      }
    }
  }

  lemma CloseAccounts(p: Plane, r: nat, c: Closing, now: int)
    requires Inv(p) && CanClose(p, r)
    ensures AccountsOk(Closed(p, r, c, now))
  {
    var q := Closed(p, r, c, now);
    assert LeaseOk(p.orders, p.runs, p.leases, r) && RunOk(p, r);
    if Refundable(p.runs[r]) {
      RefundFits(p, r);
      RefundAccounts(p, r, q.runs[r]);
    } else {
      AccountsKept(p, r, q.runs[r]);
    }
    assert AccountsOk(p.(runs := q.runs, profiles := q.profiles));
  }

  lemma ClosedRunOk(p: Plane, r: nat, c: Closing, now: int)
    requires RunOk(p, r) && CanClose(p, r) && TerminalRun(c.status)
    requires LeaseOk(p.orders, p.runs, p.leases, r)
    ensures RunOk(Closed(p, r, c, now), r)
  {
  }

  lemma CloseRuns(p: Plane, r: nat, c: Closing, now: int)
    requires RunsOk(p) && LeasesOk(p.orders, p.runs, p.leases) && AttemptsOk(p.orders, p.runs)
    requires CanClose(p, r) && TerminalRun(c.status)
    ensures var q := Closed(p, r, c, now);
            RunsOk(q) && AttemptsOk(q.orders, q.runs)
  {
    var q := Closed(p, r, c, now);
    assert LeaseOk(p.orders, p.runs, p.leases, r) && RunOk(p, r);
    ClosedRunOk(p, r, c, now);
    TouchedRuns(p, q, r, p.leases[r].order);
    AttemptsKept(p.orders, p.runs, q.orders, q.runs);
  }

  lemma CloseStep(p: Plane, r: nat, c: Closing, now: int)
    requires Inv(p) && CanClose(p, r) && TerminalRun(c.status)
    ensures Inv(Closed(p, r, c, now))
  {
    CloseRuns(p, r, c, now);
    CloseLeases(p, r, c, now);
    CloseOrders(p, r, c, now);
    CloseWorkers(p.workers, p.leases, r);
    CloseAccounts(p, r, c, now);
  }

  // ----- every change, every event -----

  lemma MoveStep(p: Plane, o: nat, moved: WorkOrder)
    requires Inv(p) && o < |p.orders| && OrderMoves(p.orders[o], moved)
    ensures Inv(WithOrder(p, o, moved))
  {
    assert OrderOk(p.orders, p.leases, o);
    OrderStep(p, o, moved);
  }

  lemma ChangeKeepsInv(hash: Identity -> string, p: Plane, c: Change)
    requires Inv(p) && Legal(hash, p, c)
    ensures Inv(Perform(hash, p, c))
  {
    match c {
      case Unchanged =>
      case Added(terms) => NewOrderStep(p, terms);
      case Moved(o, moved) => MoveStep(p, o, moved);
      case WorkerSet(w, row) => WorkerStep(p, w, row);
      case ProfileSet(w, profile) => ProfileStep(p, w, profile);
      case Claiming(w, o, seen, eligible, now, expiresAt) => ClaimStep(p, w, o, seen, eligible, now, expiresAt);
      case Beating(r, w, now, expiresAt) => BeatStep(p, r, now, expiresAt);
      case Resolving(r, w, identity, identityHash, now) =>
        ReuseStep(p, r, Resolved(p, hash, r, w, identity, identityHash, now));
      case Finishing(r, completion, now) =>
        CloseStep(p, r, ClosingFor(p, hash, r, completion), now);
      case Lapsing(r, now) => CloseStep(p, r, LapseClosing(p.runs[r]), now);
    }
  }

  /** Each event keeps the invariant, whatever its arguments. */
  lemma EventKeepsInv(hash: Identity -> string, p: Plane, e: Event)
    requires Inv(p)
    ensures Inv(Apply(hash, p, e))
  {
    var c := EventDoes(hash, p, e);
    ChangeKeepsInv(hash, p, c);
  }
}
