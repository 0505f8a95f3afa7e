/**
 The declared transition tables are exact: every entry is taken by some operation on some
 reachable plane, and nothing else ever is. The one exception is the status of a queued run,
 which the tables declare and no run ever has.
 */
module TableExactness {
  import opened Options
  import opened Lifecycle
  import opened Tables
  import opened Reuse
  import opened Events
  import opened PlaneInvariant
  import opened PlaneTheorems
  import opened EvidenceTheorems

  /** Some event takes order `o` from status `a` to status `b` after the events `es`. */
  ghost predicate TakesOrder(
    hash: Identity -> string, es: seq<Event>, e: Event, o: nat, a: OrderStatus, b: OrderStatus)
  {
    var p := Trace(hash, EMPTY_PLANE, es);
    var q := Apply(hash, p, e);
    o < |p.orders| && o < |q.orders| && p.orders[o].status == a && q.orders[o].status == b
  }

  ghost predicate OrderTaken(hash: Identity -> string, a: OrderStatus, b: OrderStatus) {
    exists es, e, o :: TakesOrder(hash, es, e, o, a, b)
  }

  ghost predicate TakesRun(
    hash: Identity -> string, es: seq<Event>, e: Event, r: nat, a: RunStatus, b: RunStatus)
  {
    var p := Trace(hash, EMPTY_PLANE, es);
    var q := Apply(hash, p, e);
    r < |p.runs| && r < |q.runs| && p.runs[r].status == a && q.runs[r].status == b
  }

  ghost predicate RunTaken(hash: Identity -> string, a: RunStatus, b: RunStatus) {
    exists es, e, r :: TakesRun(hash, es, e, r, a, b)
  }

  // ----- one order on its way -----

  const WORKER: string := "w"

  const TERMS := Terms(Subject("", "", ""), "", FirstAvailable, None, 0, None, Never, "", "", [])

  const REGISTRATION := Registration(Online, 1, [], "", false)

  function Drawn(status: OrderStatus): WorkOrder {
    WorkOrder(TERMS, status, if status == PendingApproval then None else Some(0),
              if status == Queued then Some(0) else None, None, None, None, 0, None, None)
  }

  /** A plane with one unleased order and one idle worker. */
  function Waiting(status: OrderStatus): Plane {
    Plane([Drawn(status)], [], map[], map[WORKER := Worker(Online, 1, 0, 0, None, [], "")], map[], map[])
  }

  function Claiming(): Event {
    Claim(WORKER, 0, None, 0, 0, 0)
  }

  function Beat(): Event {
    RunBeat(0, WORKER, 0, 0)
  }

  /** The worker's report of an outcome, without evidence. */
  function Report(status: RunStatus): Event {
    Complete(0, WORKER, Completion(status, [], None, None, None, None, None), 0)
  }

  lemma OneMore(hash: Identity -> string, es: seq<Event>, e: Event)
    ensures Trace(hash, EMPTY_PLANE, es + [e]) == Apply(hash, Trace(hash, EMPTY_PLANE, es), e)
  {
    TraceAppends(hash, EMPTY_PLANE, es, [e]);
    assert [e][1..] == [];
  }

  lemma ReachesPending(hash: Identity -> string) returns (es: seq<Event>)
    ensures Trace(hash, EMPTY_PLANE, es) == Waiting(PendingApproval)
  {
    es := [] + [Register(WORKER, REGISTRATION, 0)];
    OneMore(hash, [], Register(WORKER, REGISTRATION, 0));
    OneMore(hash, es, CreateOrder(TERMS));
    es := es + [CreateOrder(TERMS)];
  }

  lemma ReachesApproved(hash: Identity -> string) returns (es: seq<Event>)
    ensures Trace(hash, EMPTY_PLANE, es) == Waiting(Approved)
  {
    es := ReachesPending(hash);
    OneMore(hash, es, Approve(0, false, true, 0));
    es := es + [Approve(0, false, true, 0)];
  }

  lemma ReachesQueued(hash: Identity -> string) returns (es: seq<Event>)
    ensures Trace(hash, EMPTY_PLANE, es) == Waiting(Queued)
  {
    es := ReachesPending(hash);
    OneMore(hash, es, Approve(0, true, true, 0));
    es := es + [Approve(0, true, true, 0)];
  }

  function AssignedPlane(): Plane {
    Claimed(Waiting(Queued), WORKER, 0, None, 0, 0, 0)
  }

  function RunningPlane(): Plane {
    RunBeaten(AssignedPlane(), 0, 0, 0)
  }

  lemma ReachesAssigned(hash: Identity -> string) returns (es: seq<Event>)
    ensures Trace(hash, EMPTY_PLANE, es) == AssignedPlane()
  {
    es := ReachesQueued(hash);
    OneMore(hash, es, Claiming());
    es := es + [Claiming()];
  }

  lemma ReachesRunning(hash: Identity -> string) returns (es: seq<Event>)
    ensures Trace(hash, EMPTY_PLANE, es) == RunningPlane()
  {
    es := ReachesAssigned(hash);
    OneMore(hash, es, Beat());
    es := es + [Beat()];
  }

  // ----- unleased orders -----

  /** The operation that moves an unleased order to status `b`. */
  function MoveTo(a: OrderStatus, b: OrderStatus): Event {
    match b
    case Approved => Approve(0, false, true, 0)
    case Queued => if a == PendingApproval then Approve(0, true, true, 0) else Queue(0, 0)
    case Rejected => Reject(0, 0)
    case Expired => ExpireOrder(0, 0)
    case Assigned => Claiming()
    case _ => Cancel(0, 0)
  }

  lemma WaitingMoves(hash: Identity -> string, a: OrderStatus, b: OrderStatus)
    requires a in {PendingApproval, Approved, Queued} && b in OrderTransitions(a)
    ensures var q := Apply(hash, Waiting(a), MoveTo(a, b));
            |q.orders| == 1 && q.orders[0].status == b
  {
    if b == Cancelled {
      WaitingCancels(hash, a);
    } else if b == Assigned {
      WaitingClaims(hash);
    } else {
      WaitingMovesOn(hash, a, b);
    }
  }

  lemma WaitingCancels(hash: Identity -> string, a: OrderStatus)
    requires a in {PendingApproval, Approved, Queued}
    ensures var q := Apply(hash, Waiting(a), Cancel(0, 0));
            |q.orders| == 1 && q.orders[0].status == Cancelled
  {
  }

  lemma WaitingClaims(hash: Identity -> string)
    ensures var q := Apply(hash, Waiting(Queued), Claiming());
            |q.orders| == 1 && q.orders[0].status == Assigned
  {
  }

  lemma WaitingMovesOn(hash: Identity -> string, a: OrderStatus, b: OrderStatus)
    requires a in {PendingApproval, Approved, Queued} && b in OrderTransitions(a) && b != Cancelled && b != Assigned
    ensures var q := Apply(hash, Waiting(a), MoveTo(a, b));
            |q.orders| == 1 && q.orders[0].status == b
  {
  }

  lemma ReachesWaiting(hash: Identity -> string, a: OrderStatus) returns (es: seq<Event>)
    requires a in {PendingApproval, Approved, Queued}
    ensures Trace(hash, EMPTY_PLANE, es) == Waiting(a)
  {
    if a == PendingApproval {
      es := ReachesPending(hash);
    } else if a == Approved {
      es := ReachesApproved(hash);
    } else {
      es := ReachesQueued(hash);
    }
  }

  // ----- leased orders and their runs -----

  /** The one order of `p` is under a lease of its worker that ends at instant 0. */
  predicate UnderLease(p: Plane) {
    && Leased(p, 0) && p.leases[0] == Lease(0, WORKER, 0)
    && p.runs[0].order == 0 && p.runs[0].quotaState == NotRequired
    && p.runs[0].reuse.identity.None? && p.runs[0].reuse.identityHash.None?
    && p.orders[0].terms == TERMS && p.workers[WORKER].active == 1
  }

  lemma ReportEnds(hash: Identity -> string, p: Plane, status: RunStatus)
    requires UnderLease(p) && TerminalRun(status)
    ensures var q := Apply(hash, p, Report(status));
            && |q.orders| == |p.orders| && |q.runs| == |p.runs|
            && q.orders[0].status == OrderStatusOf(status) && q.runs[0].status == status
  {
    CompleteApplies(hash, p, 0, WORKER, Completion(status, [], None, None, None, None, None), 0);
  }

  lemma LapseEnds(hash: Identity -> string, p: Plane)
    requires UnderLease(p)
    ensures var q := Apply(hash, p, Lapse(0, 1));
            && |q.orders| == |p.orders| && |q.runs| == |p.runs|
            && q.orders[0].status == Queued && q.runs[0].status == RunTimedOut
  {
  }

  lemma BeatStarts(hash: Identity -> string, p: Plane)
    requires UnderLease(p)
    ensures var q := Apply(hash, p, Beat());
            && |q.orders| == |p.orders| && |q.runs| == |p.runs|
            && q.orders[0].status == Running && q.runs[0].status == RunRunning
  {
  }

  lemma ReachesActive(hash: Identity -> string, a: RunStatus) returns (es: seq<Event>)
    requires ActiveRun(a)
    ensures var p := Trace(hash, EMPTY_PLANE, es);
            UnderLease(p) && p.runs[0].status == a && p.orders[0].status == OrderStatusOf(a)
  {
    if a == RunAssigned {
      es := ReachesAssigned(hash);
    } else {
      es := ReachesRunning(hash);
    }
  }

  lemma ActiveRunMoves(hash: Identity -> string, a: RunStatus, b: RunStatus) returns (es: seq<Event>, e: Event)
    requires ActiveRun(a) && b in RunTransitions(a)
    ensures TakesRun(hash, es, e, 0, a, b)
    ensures TakesOrder(hash, es, e, 0, OrderStatusOf(a), OrderStatusOf(b))
  {
    es := ReachesActive(hash, a);
    var p := Trace(hash, EMPTY_PLANE, es);
    if b == RunRunning {
      e := Beat();
      BeatStarts(hash, p);
    } else {
      e := Report(b);
      ReportEnds(hash, p, b);
    }
  }

  lemma ActiveOrderMoves(hash: Identity -> string, a: OrderStatus, b: OrderStatus) returns (es: seq<Event>, e: Event)
    requires ActiveOrder(a) && b in OrderTransitions(a)
    ensures TakesOrder(hash, es, e, 0, a, b)
  {
    var from := if a == Assigned then RunAssigned else RunRunning;
    if b == Queued {
      es, e := ActiveLapses(hash, from);
    } else {
      var to := match b case Running => RunRunning case Succeeded => RunSucceeded case Failed => RunFailed
                        case TimedOut => RunTimedOut case _ => RunCancelled;
      es, e := ActiveRunMoves(hash, from, to);
    }
  }

  lemma ActiveLapses(hash: Identity -> string, a: RunStatus) returns (es: seq<Event>, e: Event)
    requires ActiveRun(a)
    ensures TakesOrder(hash, es, e, 0, OrderStatusOf(a), Queued)
  {
    es := ReachesActive(hash, a);
    e := Lapse(0, 1);
    LapseEnds(hash, Trace(hash, EMPTY_PLANE, es));
  }

  // ----- exactness -----

  lemma OnlyDeclared(hash: Identity -> string, es: seq<Event>, e: Event, o: nat, a: OrderStatus, b: OrderStatus)
    requires a != b && TakesOrder(hash, es, e, o, a, b)
    ensures b in OrderTransitions(a)
  {
    var p := Trace(hash, EMPTY_PLANE, es);
    EveryRunKeepsInv(hash, es);
    EventFollowsTables(hash, p, e);
    assert OrderFollows(p.orders[o], Apply(hash, p, e).orders[o]);
  }

  lemma OnlyDeclaredRuns(hash: Identity -> string, es: seq<Event>, e: Event, r: nat, a: RunStatus, b: RunStatus)
    requires a != b && TakesRun(hash, es, e, r, a, b)
    ensures b in RunTransitions(a) && a != RunQueued
  {
    var p := Trace(hash, EMPTY_PLANE, es);
    EveryRunKeepsInv(hash, es);
    EventFollowsTables(hash, p, e);
    assert RunOk(p, r) && RunFollows(p.runs[r], Apply(hash, p, e).runs[r]);
  }

  lemma DeclaredIsTaken(hash: Identity -> string, a: OrderStatus, b: OrderStatus)
    requires b in OrderTransitions(a)
    ensures OrderTaken(hash, a, b)
  {
    if ActiveOrder(a) {
      var es, e := ActiveOrderMoves(hash, a, b);
    } else {
      var es := ReachesWaiting(hash, a);
      WaitingMoves(hash, a, b);
      assert TakesOrder(hash, es, MoveTo(a, b), 0, a, b);
    }
  }

  /** An order changes its status from `a` to `b` in some history exactly if the table says so. */
  lemma OrderTableIsExact(hash: Identity -> string, a: OrderStatus, b: OrderStatus)
    requires a != b
    ensures OrderTaken(hash, a, b) <==> b in OrderTransitions(a)
  {
    if b in OrderTransitions(a) {
      DeclaredIsTaken(hash, a, b);
    }
    forall es, e, o: nat | TakesOrder(hash, es, e, o, a, b)
      ensures b in OrderTransitions(a)
    {
      OnlyDeclared(hash, es, e, o, a, b);
    }
  }

  /** The same for runs, except that no run is ever queued. */
  lemma RunTableIsExact(hash: Identity -> string, a: RunStatus, b: RunStatus)
    requires a != b
    ensures RunTaken(hash, a, b) <==> b in RunTransitions(a) && a != RunQueued
  {
    if b in RunTransitions(a) && a != RunQueued {
      var es, e := ActiveRunMoves(hash, a, b);
    }
    forall es, e, r: nat | TakesRun(hash, es, e, r, a, b)
      ensures b in RunTransitions(a) && a != RunQueued
    {
      OnlyDeclaredRuns(hash, es, e, r, a, b);
    }
  }
}
