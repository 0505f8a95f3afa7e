/**
 Status enumerations of the execution plane and the declared transition tables.
 The service never consults the tables; `PlaneTheorems` proves that it obeys them.
 */
module Lifecycle {
  datatype OrderStatus =
    | PendingApproval | Approved | Queued | Assigned | Running
    | Succeeded | Failed | TimedOut | Cancelled | Rejected | Expired

  // The `Run` prefix keeps the two enumerations apart; the stored values coincide.
  datatype RunStatus =
    | RunQueued | RunAssigned | RunRunning
    | RunSucceeded | RunFailed | RunTimedOut | RunCancelled

  datatype WorkerStatus = Online | Busy | Draining | Offline
  datatype ReusePolicy = Never | AllowExact | RequireExact
  datatype ReuseDecision =
    | NotRequested | Pending | CandidateAvailable | Fresh | Reused | Unavailable
  datatype RoutingPolicy = FirstAvailable | CheapestCapable
  datatype QuotaState = NotRequired | Reserved | Consumed | Released

  function OrderTransitions(s: OrderStatus): set<OrderStatus> {
    match s
    case PendingApproval => {Approved, Queued, Rejected, Cancelled}
    case Approved => {Queued, Cancelled, Expired}
    case Queued => {Assigned, Cancelled, Expired}
    case Assigned => {Running, Queued, Succeeded, Failed, TimedOut, Cancelled}
    case Running => {Succeeded, Failed, TimedOut, Cancelled, Queued}
    case _ => {}
  }

  function RunTransitions(s: RunStatus): set<RunStatus> {
    match s
    case RunQueued => {RunAssigned}
    case RunAssigned => {RunRunning, RunSucceeded, RunFailed, RunTimedOut, RunCancelled}
    case RunRunning => {RunSucceeded, RunFailed, RunTimedOut, RunCancelled}
    case _ => {}
  }

  predicate TerminalOrder(s: OrderStatus) {
    s in {Succeeded, Failed, TimedOut, Cancelled, Rejected, Expired}
  }

  predicate TerminalRun(s: RunStatus) {
    s in {RunSucceeded, RunFailed, RunTimedOut, RunCancelled}
  }

  predicate ActiveOrder(s: OrderStatus) {
    s == Assigned || s == Running
  }

  predicate ActiveRun(s: RunStatus) {
    s == RunAssigned || s == RunRunning
  }

  /** The order status with the same stored value as a run status. */
  function OrderStatusOf(s: RunStatus): OrderStatus {
    match s
    case RunQueued => Queued
    case RunAssigned => Assigned
    case RunRunning => Running
    case RunSucceeded => Succeeded
    case RunFailed => Failed
    case RunTimedOut => TimedOut
    case RunCancelled => Cancelled
  }

  /** Terminal statuses are exactly the ones the tables give no way out of, and an order
      whose run ends may always take the status of that run. */
  lemma TerminalMeansNoWayOut(o: OrderStatus, r: RunStatus, end: RunStatus)
    ensures TerminalOrder(o) <==> OrderTransitions(o) == {}
    ensures TerminalRun(r) <==> RunTransitions(r) == {}
    ensures end in RunTransitions(r) && ActiveRun(r) ==> OrderStatusOf(end) in OrderTransitions(OrderStatusOf(r))
  {
    match o {
      case PendingApproval => assert Queued in OrderTransitions(o);
      case Approved => assert Queued in OrderTransitions(o);
      case Queued => assert Expired in OrderTransitions(o);
      case Assigned => assert Queued in OrderTransitions(o);
      case Running => assert Queued in OrderTransitions(o);
      case _ =>
    }
    match r {
      case RunQueued => assert RunAssigned in RunTransitions(r);
      case RunAssigned => assert RunFailed in RunTransitions(r);
      case RunRunning => assert RunFailed in RunTransitions(r);
      case _ =>
    }
  }
}
