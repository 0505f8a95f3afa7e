/**
 The cross-table invariant of the execution plane, row by row.
 */
module PlaneInvariant {
  import opened Options
  import opened Lifecycle
  import opened Tables
  import opened Events
  import opened Accounts

  function HeldBy(leases: map<nat, Lease>, w: string): set<nat> {
    set r | r in leases && leases[r].worker == w
  }

  /** The quota state is determined by the units, the status and whether the run started. */
  function QuotaDue(run: Run): QuotaState {
    if run.route.reserved == 0 then NotRequired
    else if run.startedAt.Some? then Consumed
    else if ActiveRun(run.status) then Reserved
    else Released
  }

  /** One run row: it started exactly if it ever beat, and it is charged as that demands. */
  predicate ChargedRight(run: Run) {
    && run.route.worker == run.worker
    && run.status != RunQueued
    && (run.status == RunAssigned ==> run.startedAt.None?)
    && (run.status == RunRunning ==> run.startedAt.Some?)
    && run.quotaState == QuotaDue(run)
  }

  /** One run: its keys exist, it is leased exactly while active, and its order shows its
      route and quota state while it is the latest attempt. */
  ghost predicate RunOk(p: Plane, r: nat) {
    && r < |p.runs|
    && var run := p.runs[r];
    && ChargedRight(run)
    && run.order < |p.orders|
    && run.worker in p.workers
    && (run.route.reserved > 0 ==> run.worker in p.profiles)
    && (ActiveRun(run.status) <==> r in p.leases)
    && (run.attempt == p.orders[run.order].attempts ==>
          && p.orders[run.order].quotaState == Some(run.quotaState)
          && p.orders[run.order].route == Some(run.route))
  }

  /** One lease agrees with its run and its order, and the run is the order's latest. */
  ghost predicate LeaseOk(orders: seq<WorkOrder>, runs: seq<Run>, leases: map<nat, Lease>, r: nat)
    requires r in leases
  {
    var lease := leases[r];
    && r < |runs|
    && lease.order < |orders|
    && runs[r].order == lease.order
    && runs[r].worker == lease.worker
    && runs[r].leaseExpiresAt == lease.expiresAt
    && orders[lease.order].status == OrderStatusOf(runs[r].status)
    && runs[r].attempt == orders[lease.order].attempts
  }

  /** One order: an active order is leased, and only an approved order is past approval
      or was ever attempted. */
  ghost predicate OrderOk(orders: seq<WorkOrder>, leases: map<nat, Lease>, o: nat) {
    && o < |orders|
    && var order := orders[o];
    && (ActiveOrder(order.status) ==> exists r :: LeaseOf(leases, o, r))
    && (order.attempts > 0 ==> order.approvedAt.Some?)
    && (order.status !in {PendingApproval, Rejected, Cancelled} ==> order.approvedAt.Some?)
    && (order.status in {PendingApproval, Rejected} ==> order.approvedAt.None?)
  }

  /** One worker: the slot counter counts its leases, and online means a free slot. */
  ghost predicate WorkerOk(workers: map<string, Worker>, leases: map<nat, Lease>, w: string)
    requires w in workers
  {
    && workers[w].maxConcurrency >= 1
    && workers[w].active == |HeldBy(leases, w)|
    && (workers[w].status == Online ==> workers[w].active < workers[w].maxConcurrency)
  }

  predicate ValidProfile(f: Profile) {
    && 0 <= f.cost <= MAX_ROUTING_INTEGER
    && 0 <= f.capacity <= MAX_ROUTING_INTEGER
    && 0 <= f.remaining <= f.capacity
    && 0 <= f.priority <= MAX_ROUTING_INTEGER
    && 1 <= f.revision <= MAX_ROUTING_INTEGER
  }

  ghost predicate NoDebtBefore(runs: seq<Run>, epoch: nat, w: string) {
    forall r :: 0 <= r < epoch && r < |runs| && runs[r].worker == w ==> runs[r].quotaState != Reserved
  }

  /** One profile's account: what remains plus what is reserved or consumed since the last
      operator write is what that write set; older runs hold no reservation. */
  ghost predicate AccountOk(runs: seq<Run>, w: string, f: Profile, l: Ledger) {
    && ValidProfile(f)
    && l.epoch <= |runs|
    && l.baseline <= f.capacity
    && f.remaining + Charged(runs, l.epoch, |runs|, w) == l.baseline
    && NoDebtBefore(runs, l.epoch, w)
  }

  predicate Numbered(runs: seq<Run>, r: nat) {
    r < |runs| && runs[r].attempt == RunsOf(runs, r, runs[r].order) + 1
  }

  predicate Counted(orders: seq<WorkOrder>, runs: seq<Run>, o: nat) {
    o < |orders| && orders[o].attempts == RunsOf(runs, |runs|, o)
  }

  /** The runs of an order carry attempt numbers 1, 2, ... in creation order. */
  ghost predicate AttemptsOk(orders: seq<WorkOrder>, runs: seq<Run>) {
    && (forall r: nat :: r < |runs| ==> Numbered(runs, r))
    && (forall o: nat :: o < |orders| ==> Counted(orders, runs, o))
  }

  ghost predicate RunsOk(p: Plane) {
    forall r: nat :: r < |p.runs| ==> RunOk(p, r)
  }

  ghost predicate OneLeasePerOrder(leases: map<nat, Lease>) {
    forall r, s :: r in leases && s in leases && leases[r].order == leases[s].order ==> r == s
  }

  ghost predicate LeasesOk(orders: seq<WorkOrder>, runs: seq<Run>, leases: map<nat, Lease>) {
    && (forall r :: r in leases ==> LeaseOk(orders, runs, leases, r))
    && OneLeasePerOrder(leases)
  }

  ghost predicate OrdersOk(orders: seq<WorkOrder>, leases: map<nat, Lease>) {
    forall o: nat :: o < |orders| ==> OrderOk(orders, leases, o)
  }

  ghost predicate WorkersOk(workers: map<string, Worker>, leases: map<nat, Lease>) {
    forall w :: w in workers ==> WorkerOk(workers, leases, w)
  }

  ghost predicate AccountsOk(p: Plane) {
    forall w :: w in p.profiles ==>
      w in p.workers && w in p.ledger && AccountOk(p.runs, w, p.profiles[w], p.ledger[w])
  }

  ghost predicate Inv(p: Plane) {
    && RunsOk(p)
    && LeasesOk(p.orders, p.runs, p.leases)
    && OrdersOk(p.orders, p.leases)
    && WorkersOk(p.workers, p.leases)
    && AccountsOk(p)
    && AttemptsOk(p.orders, p.runs)
  }

  // ----- attempt numbers -----

  /** Two runs of one order never share an attempt number. */
  lemma AttemptsDiffer(orders: seq<WorkOrder>, runs: seq<Run>, r: nat, s: nat)
    requires AttemptsOk(orders, runs)
    requires r < s < |runs| && runs[r].order == runs[s].order
    ensures runs[r].attempt < runs[s].attempt
  {
    assert Numbered(runs, r) && Numbered(runs, s);
    RunsOfGrows(runs, r + 1, s, runs[r].order);
  }

  lemma LatestIsUnique(orders: seq<WorkOrder>, runs: seq<Run>, r: nat, s: nat)
    requires AttemptsOk(orders, runs)
    requires r < |runs| && s < |runs| && runs[r].order == runs[s].order && runs[r].attempt == runs[s].attempt
    ensures r == s
  {
    if r < s {
      AttemptsDiffer(orders, runs, r, s);
    } else if s < r {
      AttemptsDiffer(orders, runs, s, r);
    }
  }

  /** No run is numbered beyond its order's counter. */
  lemma AttemptBounded(orders: seq<WorkOrder>, runs: seq<Run>, r: nat)
    requires AttemptsOk(orders, runs)
    requires r < |runs| && runs[r].order < |orders|
    ensures 1 <= runs[r].attempt <= orders[runs[r].order].attempts
  {
    assert Numbered(runs, r) && Counted(orders, runs, runs[r].order);
    RunsOfGrows(runs, r + 1, |runs|, runs[r].order);
  }

  /** Appending the next attempt of an order extends the numbering. */
  lemma AttemptsExtend(orders: seq<WorkOrder>, runs: seq<Run>, o: nat, order: WorkOrder, run: Run)
    requires AttemptsOk(orders, runs)
    requires o < |orders| && run.order == o
    requires order.attempts == orders[o].attempts + 1 == run.attempt
    ensures AttemptsOk(orders[o := order], runs + [run])
  {
    var xs, rows := runs + [run], orders[o := order];
    assert Counted(orders, runs, o);
    forall r: nat | r < |xs|
      ensures Numbered(xs, r)
    {
      assert r < |runs| ==> Numbered(runs, r);
      RunsOfAgree(runs, xs, r, xs[r].order);
    }
    forall k: nat | k < |rows|
      ensures Counted(rows, xs, k)
    {
      assert Counted(orders, runs, k);
      RunsOfAgree(runs, xs, |runs|, k);
    }
  }

  /** Changing rows without touching order keys or attempt numbers keeps the numbering. */
  lemma AttemptsKept(orders: seq<WorkOrder>, runs: seq<Run>, orders': seq<WorkOrder>, runs': seq<Run>)
    requires AttemptsOk(orders, runs)
    requires |orders'| == |orders| && |runs'| == |runs|
    requires forall r :: 0 <= r < |runs| ==> runs'[r].order == runs[r].order && runs'[r].attempt == runs[r].attempt
    requires forall o :: 0 <= o < |orders| ==> orders'[o].attempts == orders[o].attempts
    ensures AttemptsOk(orders', runs')
  {
    forall r: nat | r < |runs'|
      ensures Numbered(runs', r)
    {
      assert Numbered(runs, r);
      RunsOfAgree(runs, runs', r, runs'[r].order);
    }
    forall o: nat | o < |orders'|
      ensures Counted(orders', runs', o)
    {
      assert Counted(orders, runs, o);
      RunsOfAgree(runs, runs', |runs|, o);
    }
  }

  // ----- leases and refunds -----

  /** A held lease keeps its worker's slot counter positive. */
  lemma HolderIsBusy(p: Plane, r: nat)
    requires Inv(p) && r in p.leases
    ensures p.leases[r].worker in p.workers && p.workers[p.leases[r].worker].active > 0
  {
    assert LeaseOk(p.orders, p.runs, p.leases, r) && RunOk(p, r);
    assert WorkerOk(p.workers, p.leases, p.leases[r].worker);
    assert r in HeldBy(p.leases, p.leases[r].worker);
  }

  /** The refund never exceeds capacity: what a reserved run holds was taken from the
      baseline of the current accounting period. */
  lemma RefundFits(p: Plane, r: nat)
    requires Inv(p) && r < |p.runs| && p.runs[r].quotaState == Reserved
    ensures r in p.leases && p.runs[r].route.reserved > 0 && p.runs[r].worker in p.profiles
    ensures p.profiles[p.runs[r].worker].remaining + p.runs[r].route.reserved <= p.profiles[p.runs[r].worker].capacity
    ensures p.runs[r].worker in p.ledger && r >= p.ledger[p.runs[r].worker].epoch
  {
    var w := p.runs[r].worker;
    assert RunOk(p, r);
    assert AccountOk(p.runs, w, p.profiles[w], p.ledger[w]);
    ChargedCovers(p.runs, p.ledger[w].epoch, |p.runs|, w, r);
  }

  /** A lease whose unspent reservation can no longer be returned: its profile is at the
      revision ceiling. */
  predicate AtCeiling(p: Plane, r: nat) {
    && r in p.leases
    && r < |p.runs|
    && p.runs[r].quotaState == Reserved
    && p.leases[r].worker in p.profiles
    && p.profiles[p.leases[r].worker].revision >= MAX_ROUTING_INTEGER
  }

  /** Every guard met while closing a lease holds, except that a lease with an unspent
      reservation is stuck exactly at the revision ceiling. */
  lemma ClosableIff(p: Plane, r: nat)
    requires Inv(p) && r in p.leases
    ensures Leased(p, r)
    ensures CanClose(p, r) <==> !AtCeiling(p, r)
  {
    assert LeaseOk(p.orders, p.runs, p.leases, r) && RunOk(p, r);
    HolderIsBusy(p, r);
    if p.runs[r].quotaState == Reserved {
      RefundFits(p, r);
    }
  }
}
