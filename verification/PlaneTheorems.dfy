/**
 What every run of the execution plane keeps: the lifecycle tables, frozen terminal rows,
 exactly-once charging, quota conservation and strictly growing profile revisions.
 */
module PlaneTheorems {
  import opened Options
  import opened Lifecycle
  import opened Tables
  import opened Reuse
  import opened Events
  import opened Accounts
  import opened PlaneInvariant
  import opened Changes
  import opened PlaneSteps

  // ----- one event -----

  /** What one event may do to an order row. */
  predicate OrderFollows(a: WorkOrder, b: WorkOrder) {
    && b.terms == a.terms
    && (b.status == a.status || b.status in OrderTransitions(a.status))
    && (TerminalOrder(a.status) ==> b == a)
    && a.attempts <= b.attempts <= a.attempts + 1
    && (b.attempts != a.attempts ==> a.status == Queued && b.status == Assigned)
  }

  /** What one event may do to a run row: identity and route are fixed, the start instant
      is set once, a reservation is spent or returned once, and a finished row is final. */
  predicate RunFollows(a: Run, b: Run) {
    && b.order == a.order && b.worker == a.worker && b.attempt == a.attempt && b.route == a.route
    && (b.status == a.status || b.status in RunTransitions(a.status))
    && (TerminalRun(a.status) ==> b == a)
    && (a.startedAt.Some? ==> b.startedAt == a.startedAt)
    && (b.quotaState == a.quotaState || (a.quotaState == Reserved && b.quotaState in {Consumed, Released}))
  }

  ghost predicate FollowsTables(p: Plane, q: Plane) {
    && |p.orders| <= |q.orders|
    && (forall o :: 0 <= o < |p.orders| ==> OrderFollows(p.orders[o], q.orders[o]))
    && |p.runs| <= |q.runs|
    && (forall r :: 0 <= r < |p.runs| ==> RunFollows(p.runs[r], q.runs[r]))
    && (forall r :: |p.runs| <= r < |q.runs| ==> q.runs[r].status == RunAssigned)
  }

  /** At most one order and one run change, both as allowed; -1 stands for none. */
  lemma RowsFollow(p: Plane, q: Plane, o: int, r: int)
    requires |p.orders| <= |q.orders| && |p.runs| <= |q.runs|
    requires forall k :: 0 <= k < |p.orders| && k != o ==> q.orders[k] == p.orders[k]
    requires forall k :: 0 <= k < |p.runs| && k != r ==> q.runs[k] == p.runs[k]
    requires 0 <= o < |p.orders| ==> OrderFollows(p.orders[o], q.orders[o])
    requires 0 <= r < |p.runs| ==> RunFollows(p.runs[r], q.runs[r])
    requires forall k :: |p.runs| <= k < |q.runs| ==> q.runs[k].status == RunAssigned
    ensures FollowsTables(p, q)
  {
    forall k | 0 <= k < |p.orders|
      ensures OrderFollows(p.orders[k], q.orders[k])
    {
      assert k != o ==> OrderFollows(p.orders[k], p.orders[k]);
    }
    forall k | 0 <= k < |p.runs|
      ensures RunFollows(p.runs[k], q.runs[k])
    {
      assert k != r ==> RunFollows(p.runs[k], p.runs[k]);
    }
  }

  lemma ClosedRowsFollow(order: WorkOrder, run: Run, c: Closing, now: int)
    requires ChargedRight(run) && ActiveRun(run.status) && TerminalRun(c.status)
    requires order.status == OrderStatusOf(run.status)
    ensures OrderFollows(order, ClosedOrder(order, run, c, now)) && RunFollows(run, ClosedRun(run, c, now))
  {
  }

  lemma BeatenRowsFollow(order: WorkOrder, run: Run, now: int, expiresAt: int)
    requires ChargedRight(run) && ActiveRun(run.status) && order.status == OrderStatusOf(run.status)
    ensures OrderFollows(order, BeatenOrder(order, run, now)) && RunFollows(run, BeatenRun(run, now, expiresAt))
  {
  }

  lemma ActiveRows(p: Plane, r: nat)
    requires Inv(p) && r in p.leases
    ensures r < |p.runs| && p.leases[r].order < |p.orders| && p.runs[r].worker == p.leases[r].worker
    ensures ChargedRight(p.runs[r]) && ActiveRun(p.runs[r].status)
    ensures p.runs[r].order == p.leases[r].order
    ensures p.orders[p.leases[r].order].status == OrderStatusOf(p.runs[r].status)
  {
    assert LeaseOk(p.orders, p.runs, p.leases, r) && RunOk(p, r);
  }

  lemma ClosedFollows(p: Plane, r: nat, c: Closing, now: int)
    requires Inv(p) && CanClose(p, r) && TerminalRun(c.status)
    ensures FollowsTables(p, Closed(p, r, c, now))
  {
    ActiveRows(p, r);
    ClosedRowsFollow(p.orders[p.leases[r].order], p.runs[r], c, now);
    RowsFollow(p, Closed(p, r, c, now), p.leases[r].order, r);
  }

  lemma FinishedFollows(hash: Identity -> string, p: Plane, r: nat, completion: Completion, now: int)
    requires Inv(p) && CanClose(p, r) && Admissible(p, hash, r, completion)
    ensures FollowsTables(p, Finished(p, hash, r, completion, now))
  {
    ClosedFollows(p, r, ClosingFor(p, hash, r, completion), now);
  }

  lemma BeatenFollows(p: Plane, r: nat, now: int, expiresAt: int)
    requires Inv(p) && Leased(p, r)
    ensures FollowsTables(p, RunBeaten(p, r, now, expiresAt))
  {
    ActiveRows(p, r);
    BeatenRowsFollow(p.orders[p.leases[r].order], p.runs[r], now, expiresAt);
    RowsFollow(p, RunBeaten(p, r, now, expiresAt), p.leases[r].order, r);
  }

  lemma ReusedFollows(p: Plane, r: nat, record: ReuseRecord)
    requires Inv(p) && r in p.leases && r < |p.runs|
    ensures FollowsTables(p, WithReuse(p, r, record))
  {
    ActiveRows(p, r);
    RowsFollow(p, WithReuse(p, r, record), -1, r);
  }

  lemma ClaimedFollows(p: Plane, w: string, o: nat, seen: Option<Profile>, eligible: nat, now: int, expiresAt: int)
    requires CanClaim(p, w, o, seen)
    ensures FollowsTables(p, Claimed(p, w, o, seen, eligible, now, expiresAt))
  {
    RowsFollow(p, Claimed(p, w, o, seen, eligible, now, expiresAt), o, -1);
  }

  lemma MovedFollows(p: Plane, o: nat, order: WorkOrder)
    requires o < |p.orders| && OrderFollows(p.orders[o], order)
    ensures FollowsTables(p, WithOrder(p, o, order))
  {
    RowsFollow(p, WithOrder(p, o, order), o, -1);
  }

  lemma ChangeFollows(hash: Identity -> string, p: Plane, c: Change)
    requires Inv(p) && Legal(hash, p, c)
    ensures FollowsTables(p, Perform(hash, p, c))
  {
    match c {
      case Moved(o, moved) => MovedFollows(p, o, moved);
      case Claiming(w, o, seen, eligible, now, expiresAt) => ClaimedFollows(p, w, o, seen, eligible, now, expiresAt);
      case Beating(r, w, now, expiresAt) => BeatenFollows(p, r, now, expiresAt);
      case Resolving(r, w, identity, identityHash, now) =>
        ReusedFollows(p, r, Resolved(p, hash, r, w, identity, identityHash, now));
      case Finishing(r, completion, now) => FinishedFollows(hash, p, r, completion, now);
      case Lapsing(r, now) => ClosedFollows(p, r, LapseClosing(p.runs[r]), now);
      case _ => RowsFollow(p, Perform(hash, p, c), -1, -1);
    }
  }

  /** Every status change follows the declared tables and finished rows never change. */
  lemma EventFollowsTables(hash: Identity -> string, p: Plane, e: Event)
    requires Inv(p)
    ensures FollowsTables(p, Apply(hash, p, e))
  {
    var c := EventDoes(hash, p, e);
    ChangeFollows(hash, p, c);
  }

  // ----- whole runs -----

  lemma {:induction false} TraceKeepsInv(hash: Identity -> string, p: Plane, es: seq<Event>)
    requires Inv(p)
    ensures Inv(Trace(hash, p, es))
    decreases |es|
  {
    if es != [] {
      EventKeepsInv(hash, p, es[0]);
      TraceKeepsInv(hash, Apply(hash, p, es[0]), es[1..]);
    }
  }

  lemma EmptyPlaneOk()
    ensures Inv(EMPTY_PLANE)
  {
  }

  /** The invariant holds after any run of events, with any arguments and clock readings. */
  lemma EveryRunKeepsInv(hash: Identity -> string, es: seq<Event>)
    ensures Inv(Trace(hash, EMPTY_PLANE, es))
  {
    EmptyPlaneOk();
    TraceKeepsInv(hash, EMPTY_PLANE, es);
  }

  // ----- accepted terms -----

  /** The terms of an order are within bounds and its pinned worker is registered. */
  predicate TermsFit(p: Plane, terms: Terms) {
    && terms.requiredQuota <= 2_147_483_647
    && (terms.maximumCost.Some? ==> 0 <= terms.maximumCost.value <= 2_147_483_647)
    && (terms.preferred.Some? ==> terms.preferred.value in p.workers)
  }

  ghost predicate TermsOk(p: Plane) {
    forall o :: 0 <= o < |p.orders| ==> TermsFit(p, p.orders[o].terms)
  }

  lemma ChangeKeepsWorkers(hash: Identity -> string, p: Plane, c: Change)
    requires Legal(hash, p, c)
    ensures p.workers.Keys <= Perform(hash, p, c).workers.Keys
    ensures |Perform(hash, p, c).orders| > |p.orders| ==>
              && |Perform(hash, p, c).orders| == |p.orders| + 1
              && TermsFit(p, Perform(hash, p, c).orders[|p.orders|].terms)
  {
  }

  lemma EventKeepsTerms(hash: Identity -> string, p: Plane, e: Event)
    requires Inv(p) && TermsOk(p)
    ensures TermsOk(Apply(hash, p, e))
  {
    var c := EventDoes(hash, p, e);
    ChangeFollows(hash, p, c);
    ChangeKeepsWorkers(hash, p, c);
    RowsKeepTerms(p, Perform(hash, p, c));
  }

  lemma RowsKeepTerms(p: Plane, q: Plane)
    requires TermsOk(p) && FollowsTables(p, q) && p.workers.Keys <= q.workers.Keys
    requires |q.orders| > |p.orders| ==>
               |q.orders| == |p.orders| + 1 && TermsFit(p, q.orders[|p.orders|].terms)
    ensures TermsOk(q)
  {
    forall o | 0 <= o < |q.orders|
      ensures TermsFit(q, q.orders[o].terms)
    {
      assert o < |p.orders| ==> OrderFollows(p.orders[o], q.orders[o]) && TermsFit(p, p.orders[o].terms);
    }
  }

  /** After any run of events every order asks for quota and cost within bounds, and the
      worker it is pinned to is still registered. */
  lemma {:induction false} TermsStayValid(hash: Identity -> string, p: Plane, es: seq<Event>)
    requires Inv(p) && TermsOk(p)
    ensures TermsOk(Trace(hash, p, es))
    decreases |es|
  {
    if es != [] {
      EventKeepsInv(hash, p, es[0]);
      EventKeepsTerms(hash, p, es[0]);
      TermsStayValid(hash, Apply(hash, p, es[0]), es[1..]);
    }
  }

  /** What any number of events may do to an order row. */
  predicate OrderLater(a: WorkOrder, b: WorkOrder) {
    && b.terms == a.terms
    && a.attempts <= b.attempts
    && (TerminalOrder(a.status) ==> b == a)
  }

  /** What any number of events may do to a run row. */
  predicate RunLater(a: Run, b: Run) {
    && b.order == a.order && b.worker == a.worker && b.attempt == a.attempt && b.route == a.route
    && (TerminalRun(a.status) ==> b == a)
    && (a.startedAt.Some? ==> b.startedAt == a.startedAt)
    && (a.quotaState != Reserved ==> b.quotaState == a.quotaState)
  }

  ghost predicate Later(p: Plane, q: Plane) {
    && |p.orders| <= |q.orders|
    && (forall o :: 0 <= o < |p.orders| ==> OrderLater(p.orders[o], q.orders[o]))
    && |p.runs| <= |q.runs|
    && (forall r :: 0 <= r < |p.runs| ==> RunLater(p.runs[r], q.runs[r]))
  }

  lemma LaterTransitive(p: Plane, q: Plane, z: Plane)
    requires FollowsTables(p, q) && Later(q, z)
    ensures Later(p, z)
  {
    forall o | 0 <= o < |p.orders|
      ensures OrderLater(p.orders[o], z.orders[o])
    {
      assert OrderFollows(p.orders[o], q.orders[o]) && OrderLater(q.orders[o], z.orders[o]);
    }
    forall r | 0 <= r < |p.runs|
      ensures RunLater(p.runs[r], z.runs[r])
    {
      assert RunFollows(p.runs[r], q.runs[r]) && RunLater(q.runs[r], z.runs[r]);
    }
  }

  /** Nothing is ever deleted or rewritten: through any run of events, rows keep their
      identity, finished orders and runs never change again, a start instant is set once,
      and a reservation that was spent or returned stays so. */
  lemma {:induction false} HistoryIsKept(hash: Identity -> string, p: Plane, es: seq<Event>)
    requires Inv(p)
    ensures Later(p, Trace(hash, p, es))
    decreases |es|
  {
    if es != [] {
      var q := Apply(hash, p, es[0]);
      EventKeepsInv(hash, p, es[0]);
      EventFollowsTables(hash, p, es[0]);
      HistoryIsKept(hash, q, es[1..]);
      LaterTransitive(p, q, Trace(hash, q, es[1..]));
    }
  }

  /** An order is assigned or running exactly if a lease names it; then there is only one
      such lease, and its run is the order's only unfinished run, with the same status and
      the lease's worker. */
  lemma ActiveMeansOneLease(p: Plane, o: nat)
    requires Inv(p) && o < |p.orders|
    ensures ActiveOrder(p.orders[o].status) <==> exists r: nat :: LeaseOf(p.leases, o, r)
    ensures forall r: nat, s: nat :: LeaseOf(p.leases, o, r) && LeaseOf(p.leases, o, s) ==> r == s
    ensures forall r: nat, s: nat :: LeaseOf(p.leases, o, r) && 0 <= s < |p.runs| && p.runs[s].order == o ==>
              (!TerminalRun(p.runs[s].status) <==> s == r)
    ensures forall r: nat :: LeaseOf(p.leases, o, r) ==>
              && r < |p.runs| && p.runs[r].worker == p.leases[r].worker
              && OrderStatusOf(p.runs[r].status) == p.orders[o].status
  {
    assert OrderOk(p.orders, p.leases, o);
    forall r: nat | LeaseOf(p.leases, o, r)
      ensures r < |p.runs| && p.runs[r].worker == p.leases[r].worker && ActiveRun(p.runs[r].status)
      ensures OrderStatusOf(p.runs[r].status) == p.orders[o].status
    {
      ActiveRows(p, r);
    }
    forall r: nat, s: nat | LeaseOf(p.leases, o, r) && 0 <= s < |p.runs| && p.runs[s].order == o
      ensures !TerminalRun(p.runs[s].status) <==> s == r
    {
      assert RunOk(p, s);
      if s in p.leases {
        ActiveRows(p, s);
      }
    }
  }

  /** A worker's slot counter counts its leases, and online means there is a free slot. */
  lemma SlotsAreExact(p: Plane, w: string)
    requires Inv(p) && w in p.workers
    ensures p.workers[w].active == |set r | r in p.leases && p.leases[r].worker == w|
    ensures p.workers[w].status == Online ==> p.workers[w].active < p.workers[w].maxConcurrency
  {
    assert WorkerOk(p.workers, p.leases, w);
    assert HeldBy(p.leases, w) == set r | r in p.leases && p.leases[r].worker == w;
  }

  /** A run with reserved units ends consumed exactly if it ever started and released
      exactly if it never did, and its order mirrors it while it is the latest attempt. */
  lemma ChargedExactlyOnce(p: Plane, r: nat)
    requires Inv(p) && r < |p.runs| && p.runs[r].route.reserved > 0
    ensures p.runs[r].order < |p.orders|
    ensures TerminalRun(p.runs[r].status) ==>
              && (p.runs[r].quotaState == Consumed <==> p.runs[r].startedAt.Some?)
              && (p.runs[r].quotaState == Released <==> p.runs[r].startedAt.None?)
    ensures !TerminalRun(p.runs[r].status) ==>
              && r in p.leases
              && p.orders[p.runs[r].order].quotaState == Some(p.runs[r].quotaState)
              && (p.runs[r].quotaState == Reserved <==> p.runs[r].status == RunAssigned)
  {
    assert RunOk(p, r);
    if r in p.leases {
      assert LeaseOk(p.orders, p.runs, p.leases, r);
    }
  }

  // ----- a run starts with its first accepted beat -----

  /** A beat of run `r` that is accepted: by the owner of its live lease. */
  predicate AcceptedBeat(p: Plane, e: Event, r: nat) {
    e.RunBeat? && e.run == r && OwnsLive(p, r, e.worker, e.now)
  }

  predicate Started(p: Plane, r: nat) {
    r < |p.runs| && p.runs[r].startedAt.Some?
  }

  lemma ChangeStarts(hash: Identity -> string, p: Plane, c: Change, r: nat)
    requires Inv(p) && Legal(hash, p, c)
    ensures Started(Perform(hash, p, c), r) <==> Started(p, r) || (c.Beating? && c.run == r)
  {
    if c.Beating? {
      ActiveRows(p, c.run);
    }
  }

  lemma EventStarts(hash: Identity -> string, p: Plane, e: Event, r: nat)
    requires Inv(p)
    ensures Started(Apply(hash, p, e), r) <==> Started(p, r) || AcceptedBeat(p, e, r)
  {
    var c := EventDoes(hash, p, e);
    ChangeStarts(hash, p, c, r);
    if AcceptedBeat(p, e, r) {
      ClosableIff(p, r);
      BeatIsDone(hash, p, r, e.worker, e.now, e.expiresAt);
    }
  }

  lemma BeatIsDone(hash: Identity -> string, p: Plane, r: nat, w: string, now: int, expiresAt: int)
    requires Inv(p) && Leased(p, r) && OwnsLive(p, r, w, now)
    ensures Started(Apply(hash, p, RunBeat(r, w, now, expiresAt)), r)
  {
    ActiveRows(p, r);
  }

  /** The run contains an accepted beat of `r`. */
  ghost predicate EverBeat(hash: Identity -> string, p: Plane, es: seq<Event>, r: nat)
    decreases |es|
  {
    es != [] && (AcceptedBeat(p, es[0], r) || EverBeat(hash, Apply(hash, p, es[0]), es[1..], r))
  }

  /** Over any run of events, exactly the runs that had an accepted beat have started. */
  lemma {:induction false} StartedIffBeaten(hash: Identity -> string, p: Plane, es: seq<Event>, r: nat)
    requires Inv(p)
    ensures Started(Trace(hash, p, es), r) <==> Started(p, r) || EverBeat(hash, p, es, r)
    decreases |es|
  {
    if es != [] {
      EventStarts(hash, p, es[0], r);
      EventKeepsInv(hash, p, es[0]);
      StartedIffBeaten(hash, Apply(hash, p, es[0]), es[1..], r);
    }
  }

  /** Charging over whole histories: after any run of events from empty tables, a finished
      run with reserved units is consumed exactly if it had an accepted beat, and released
      exactly if it had none. */
  lemma ChargedIffBeaten(hash: Identity -> string, es: seq<Event>, r: nat)
    requires r < |Trace(hash, EMPTY_PLANE, es).runs|
    ensures var run := Trace(hash, EMPTY_PLANE, es).runs[r];
            run.route.reserved > 0 && TerminalRun(run.status) ==>
              && (run.quotaState == Consumed <==> EverBeat(hash, EMPTY_PLANE, es, r))
              && (run.quotaState == Released <==> !EverBeat(hash, EMPTY_PLANE, es, r))
  {
    EveryRunKeepsInv(hash, es);
    EmptyPlaneOk();
    StartedIffBeaten(hash, EMPTY_PLANE, es, r);
    if Trace(hash, EMPTY_PLANE, es).runs[r].route.reserved > 0 {
      ChargedExactlyOnce(Trace(hash, EMPTY_PLANE, es), r);
    }
  }

  /** Attempt numbers of an order are exactly 1 to its attempt count. */
  lemma {:induction false} AttemptExists(orders: seq<WorkOrder>, runs: seq<Run>, o: nat, k: nat, n: nat)
    returns (r: nat)
    requires AttemptsOk(orders, runs) && n <= |runs| && 1 <= k <= RunsOf(runs, n, o)
    ensures r < n && runs[r].order == o && runs[r].attempt == k
  {
    assert Numbered(runs, n - 1);
    if runs[n - 1].order == o && runs[n - 1].attempt == k {
      r := n - 1;
    } else {
      r := AttemptExists(orders, runs, o, k, n - 1);
    }
  }

  ghost predicate HasAttempt(runs: seq<Run>, o: nat, k: nat) {
    exists r :: 0 <= r < |runs| && runs[r].order == o && runs[r].attempt == k
  }

  predicate SameAttempt(runs: seq<Run>, o: nat, r: nat, s: nat)
    requires r < |runs| && s < |runs|
  {
    runs[r].order == runs[s].order == o && runs[r].attempt == runs[s].attempt
  }

  /** For every order: exactly one run for each attempt number up to the counter, none beyond,
      and only the last may still be active. An order never approved has no run. */
  lemma AttemptsAreExact(p: Plane, o: nat)
    requires Inv(p) && o < |p.orders|
    ensures forall k :: 1 <= k <= p.orders[o].attempts ==> HasAttempt(p.runs, o, k)
    ensures forall r :: 0 <= r < |p.runs| && p.runs[r].order == o ==>
              && 1 <= p.runs[r].attempt <= p.orders[o].attempts
              && (ActiveRun(p.runs[r].status) ==> p.runs[r].attempt == p.orders[o].attempts)
              && p.orders[o].approvedAt.Some?
    ensures forall r: nat, s: nat :: r < |p.runs| && s < |p.runs| && SameAttempt(p.runs, o, r, s) ==> r == s
  {
    forall r: nat, s: nat | r < |p.runs| && s < |p.runs| && SameAttempt(p.runs, o, r, s)
      ensures r == s
    {
      LatestIsUnique(p.orders, p.runs, r, s);
    }
    assert Counted(p.orders, p.runs, o) && OrderOk(p.orders, p.leases, o);
    forall k | 1 <= k <= p.orders[o].attempts
      ensures HasAttempt(p.runs, o, k)
    {
      var r := AttemptExists(p.orders, p.runs, o, k, |p.runs|);
    }
    forall r | 0 <= r < |p.runs| && p.runs[r].order == o
      ensures 1 <= p.runs[r].attempt <= p.orders[o].attempts && p.orders[o].approvedAt.Some?
      ensures ActiveRun(p.runs[r].status) ==> p.runs[r].attempt == p.orders[o].attempts
    {
      AttemptBounded(p.orders, p.runs, r);
      assert RunOk(p, r);
      if r in p.leases {
        assert LeaseOk(p.orders, p.runs, p.leases, r);
      }
    }
  }

  // ----- quota conservation -----

  predicate OperatorWrite(e: Event, w: string) {
    (e.CreateProfile? || e.ReplaceProfile? || e.ResetQuota?) && e.worker == w
  }

  predicate LedgerKept(p: Plane, q: Plane, w: string) {
    w in p.ledger && w in q.profiles && w in q.ledger && q.ledger[w] == p.ledger[w]
  }

  lemma ChangeKeepsLedger(hash: Identity -> string, p: Plane, c: Change, w: string)
    requires Legal(hash, p, c) && w in p.profiles && w in p.ledger && !(c.ProfileSet? && c.worker == w)
    ensures LedgerKept(p, Perform(hash, p, c), w)
  {
  }

  lemma EventKeepsLedger(hash: Identity -> string, p: Plane, e: Event, w: string)
    requires Inv(p) && w in p.profiles && w in p.ledger && (OperatorWrite(e, w) ==> Apply(hash, p, e) == p)
    ensures LedgerKept(p, Apply(hash, p, e), w)
  {
    if !OperatorWrite(e, w) {
      var c := EventDoes(hash, p, e);
      ChangeKeepsLedger(hash, p, c, w);
    }
  }

  /** No operator write to the profile of `w` takes effect during the run; refused ones may
      occur. */
  ghost predicate NoWriteTakesEffect(hash: Identity -> string, p: Plane, es: seq<Event>, w: string)
    decreases |es|
  {
    es == [] ||
    ((OperatorWrite(es[0], w) ==> Apply(hash, p, es[0]) == p)
     && NoWriteTakesEffect(hash, Apply(hash, p, es[0]), es[1..], w))
  }

  lemma {:induction false} TraceKeepsLedger(hash: Identity -> string, p: Plane, es: seq<Event>, w: string)
    requires Inv(p) && w in p.profiles && w in p.ledger && NoWriteTakesEffect(hash, p, es, w)
    ensures LedgerKept(p, Trace(hash, p, es), w)
    decreases |es|
  {
    if es != [] {
      EventKeepsInv(hash, p, es[0]);
      EventKeepsLedger(hash, p, es[0], w);
      TraceKeepsLedger(hash, Apply(hash, p, es[0]), es[1..], w);
    }
  }

  lemma WriteOpensLedger(hash: Identity -> string, p: Plane, write: Event, w: string)
    requires OperatorWrite(write, w) && Apply(hash, p, write) != p
    ensures var q := Apply(hash, p, write);
            w in q.profiles && w in q.ledger && q.ledger[w] == Ledger(q.profiles[w].remaining, |q.runs|)
  {
  }

  lemma ConservedSince(hash: Identity -> string, q: Plane, es: seq<Event>, w: string)
    requires Inv(q) && w in q.profiles && w in q.ledger && q.ledger[w] == Ledger(q.profiles[w].remaining, |q.runs|)
    requires NoWriteTakesEffect(hash, q, es, w)
    ensures var z := Trace(hash, q, es);
            && w in z.profiles && |q.runs| <= |z.runs|
            && z.profiles[w].remaining + Charged(z.runs, |q.runs|, |z.runs|, w) == q.profiles[w].remaining
            && z.profiles[w].remaining + Outstanding(z.runs, |z.runs|, w) <= z.profiles[w].capacity
  {
    var z := Trace(hash, q, es);
    TraceKeepsInv(hash, q, es);
    TraceKeepsLedger(hash, q, es, w);
    assert AccountOk(z.runs, w, z.profiles[w], z.ledger[w]);
    OutstandingIsCharged(z.runs, |q.runs|, |z.runs|, w);
  }

  /** Exact conservation: from an operator write on, until the next one that takes effect, the remaining
      quota plus the units of the runs claimed since that are reserved or consumed is the
      quota the write set, and unspent reservations always fit back under the capacity. */
  lemma QuotaIsConserved(hash: Identity -> string, p: Plane, write: Event, es: seq<Event>, w: string)
    requires Inv(p) && OperatorWrite(write, w)
    requires Apply(hash, p, write) != p
    requires NoWriteTakesEffect(hash, Apply(hash, p, write), es, w)
    ensures var q := Apply(hash, p, write);
            var z := Trace(hash, q, es);
            && w in q.profiles && w in z.profiles
            && |q.runs| <= |z.runs|
            && z.profiles[w].remaining + Charged(z.runs, |q.runs|, |z.runs|, w) == q.profiles[w].remaining
            && z.profiles[w].remaining + Outstanding(z.runs, |z.runs|, w) <= z.profiles[w].capacity
  {
    EventKeepsInv(hash, p, write);
    WriteOpensLedger(hash, p, write, w);
    ConservedSince(hash, Apply(hash, p, write), es, w);
  }
}
