/**
 Guarded row updates of the execution tables. Each reports whether exactly one row was hit,
 and its contract says when that is and what the tables are afterwards.
 */
module Repository {
  import opened Options
  import opened Lifecycle
  import opened Tables
  import opened Reuse
  import opened Events
  import opened Accounts

  /** Which leases a guarded delete accepts. */
  datatype Liveness = AnyLease | LiveLease | StaleLease

  predicate Accepts(mode: Liveness, expiresAt: int, now: int) {
    match mode
    case AnyLease => true
    case LiveLease => expiresAt >= now
    case StaleLease => expiresAt < now
  }

  /** Table contents remembered by a savepoint. */
  datatype Savepoint = Savepoint(
    orders: seq<WorkOrder>,
    runs: seq<Run>,
    leases: map<nat, Lease>,
    workers: map<string, Worker>,
    profiles: map<string, Profile>)

  predicate CanConsumeQuota(p: Plane, r: nat, o: nat) {
    && r < |p.runs|
    && ( || p.runs[r].quotaState in {NotRequired, Consumed}
         || (p.runs[r].quotaState == Reserved && o < |p.orders| && p.orders[o].quotaState == Some(Reserved)))
  }

  function QuotaConsumed(p: Plane, r: nat, o: nat): Plane
    requires CanConsumeQuota(p, r, o)
  {
    if p.runs[r].quotaState != Reserved then p
    else p.(runs := p.runs[r := p.runs[r].(quotaState := Consumed)],
            orders := p.orders[o := p.orders[o].(quotaState := Some(Consumed))])
  }

  predicate CanReleaseQuota(p: Plane, r: nat, o: nat, w: string) {
    && r < |p.runs|
    && (p.runs[r].quotaState == Reserved ==>
          && (p.runs[r].route.reserved > 0 ==> CanRefund(p, w, p.runs[r].route.reserved))
          && o < |p.orders| && p.orders[o].quotaState == Some(Reserved))
  }

  function QuotaReleased(p: Plane, r: nat, o: nat, w: string): Plane
    requires CanReleaseQuota(p, r, o, w)
  {
    if p.runs[r].quotaState != Reserved then p
    else p.(runs := p.runs[r := p.runs[r].(quotaState := Released)],
            orders := p.orders[o := p.orders[o].(quotaState := Some(Released))],
            profiles := if p.runs[r].route.reserved > 0
                        then p.profiles[w := Credited(p.profiles[w], p.runs[r].route.reserved)] else p.profiles)
  }

  /** The first beat sets the start instant of an order. */
  function StartOf(order: WorkOrder, now: int): Option<int> {
    if order.status == Assigned then Some(now) else order.startedAt
  }

  /** A beat without the quota column, which has its own update. */
  function UnchargedBeat(run: Run, now: int, expiresAt: int): Run {
    BeatenRun(run, now, expiresAt).(quotaState := run.quotaState)
  }

  class ExecutionRepository {
    var orders: seq<WorkOrder>
    var runs: seq<Run>
    var leases: map<nat, Lease>
    var workers: map<string, Worker>
    var profiles: map<string, Profile>
    ghost var ledger: map<string, Ledger>

    ghost function View(): Plane
      reads this
    {
      Plane(orders, runs, leases, workers, profiles, ledger)
    }

    /** The tables as queries see them, without the history variable. */
    function Rows(): (p: Plane)
      reads this
      ensures p == View().(ledger := map[])
    {
      Plane(orders, runs, leases, workers, profiles, map[])
    }

    constructor ()
      ensures View() == EMPTY_PLANE
    {
      orders, runs, leases, workers, profiles, ledger := [], [], map[], map[], map[], map[];
    }

    // ----- savepoints -----

    method Begin() returns (s: Savepoint)
      ensures s == Savepoint(orders, runs, leases, workers, profiles)
    {
      s := Savepoint(orders, runs, leases, workers, profiles);
    }

    method Rollback(s: Savepoint)
      modifies this
      ensures View() == Plane(s.orders, s.runs, s.leases, s.workers, s.profiles, old(ledger))
    {
      orders, runs, leases, workers, profiles := s.orders, s.runs, s.leases, s.workers, s.profiles;
    }

    // ----- work orders -----

    method CreateWorkOrder(terms: Terms) returns (o: nat)
      modifies this
      ensures o == |old(orders)|
      ensures View() == old(View()).(orders := old(orders) + [NewOrder(terms)])
    {
      o := |orders|;
      orders := orders + [NewOrder(terms)];
    }

    /** `patch` is the set of column values of the update. */
    method TransitionUnleasedWorkOrder(o: nat, current: set<OrderStatus>, patch: WorkOrder -> WorkOrder)
      returns (hit: bool)
      modifies this
      ensures hit <==> InStatus(old(View()), o, current)
      ensures View() == if hit then WithOrder(old(View()), o, patch(old(orders)[o])) else old(View())
    {
      hit := o < |orders| && orders[o].status in current;
      if hit {
        orders := orders[o := patch(orders[o])];
      }
    }

    method ClaimQueuedWorkOrder(o: nat, route: Route, now: int) returns (hit: bool)
      modifies this
      ensures hit <==> InStatus(old(View()), o, {Queued})
      ensures View() == if hit then WithOrder(old(View()), o, ClaimedOrder(old(orders)[o], route, now)) else old(View())
    {
      hit := o < |orders| && orders[o].status == Queued;
      if hit {
        orders := orders[o := ClaimedOrder(orders[o], route, now)];
      }
    }

    method MarkActiveWorkOrderRunning(o: nat, now: int) returns (hit: bool)
      modifies this
      ensures hit <==> InStatus(old(View()), o, {Assigned, Running})
      ensures View() == if !hit then old(View())
                        else WithOrder(old(View()), o,
                                       old(orders)[o].(status := Running,
                                                       startedAt := StartOf(old(orders)[o], now)))
    {
      hit := o < |orders| && ActiveOrder(orders[o].status);
      if hit {
        var order := orders[o];
        if order.status == Assigned {
          order := order.(status := Running, startedAt := Some(now));
        }
        orders := orders[o := order];
      }
    }

    method FinishActiveWorkOrder(o: nat, status: OrderStatus, now: int) returns (hit: bool)
      modifies this
      ensures hit <==> InStatus(old(View()), o, {Assigned, Running})
      ensures View() == if hit then WithOrder(old(View()), o, EndedOrder(old(orders)[o], status, now)) else old(View())
    {
      hit := o < |orders| && ActiveOrder(orders[o].status);
      if hit {
        orders := orders[o := orders[o].(status := status, finishedAt := Some(now))];
      }
    }

    method RequeueStaleActiveWorkOrder(o: nat, now: int) returns (hit: bool)
      modifies this
      ensures hit <==> InStatus(old(View()), o, {Assigned, Running})
      ensures View() == if hit then WithOrder(old(View()), o, QueuedOrder(old(orders)[o], now)) else old(View())
    {
      hit := o < |orders| && ActiveOrder(orders[o].status);
      if hit {
        orders := orders[o := orders[o].(status := Queued, queuedAt := Some(now))];
      }
    }

    // ----- runs -----

    /** A new run and its unique lease. */
    method CreateActiveRun(o: nat, route: Route, expiresAt: int) returns (r: nat)
      requires o < |orders|
      modifies this
      ensures r == |old(runs)|
      ensures View() == old(View()).(runs := old(runs) + [NewRun(old(orders)[o], o, route, expiresAt)],
                                     leases := old(leases)[r := Lease(o, route.worker, expiresAt)])
    {
      r := |runs|;
      runs := runs + [NewRun(orders[o], o, route, expiresAt)];
      leases := leases[r := Lease(o, route.worker, expiresAt)];
    }

    method ConsumeRunQuotaReservation(r: nat, o: nat) returns (done: bool)
      modifies this
      ensures done <==> CanConsumeQuota(old(View()), r, o)
      ensures done ==> View() == QuotaConsumed(old(View()), r, o)
      ensures ledger == old(ledger)
    {
      if r >= |runs| {
        return false;
      }
      if runs[r].quotaState in {NotRequired, Consumed} {
        return true;
      }
      if runs[r].quotaState != Reserved {
        return false;
      }
      runs := runs[r := runs[r].(quotaState := Consumed)];
      done := o < |orders| && orders[o].quotaState == Some(Reserved);
      if done {
        orders := orders[o := orders[o].(quotaState := Some(Consumed))];
      }
    }

    method ReleaseRunQuotaReservation(r: nat, o: nat, w: string) returns (done: bool)
      modifies this
      ensures done <==> CanReleaseQuota(old(View()), r, o, w)
      ensures done ==> View() == QuotaReleased(old(View()), r, o, w)
      ensures ledger == old(ledger)
    {
      if r >= |runs| {
        return false;
      }
      if runs[r].quotaState in {NotRequired, Consumed, Released} {
        return true;
      }
      var units := runs[r].route.reserved;
      if units > 0 {
        if !(w in profiles && profiles[w].revision < MAX_ROUTING_INTEGER
             && profiles[w].remaining <= profiles[w].capacity - units) {
          return false;
        }
        profiles := profiles[w := Credited(profiles[w], units)];
      }
      runs := runs[r := runs[r].(quotaState := Released)];
      done := o < |orders| && orders[o].quotaState == Some(Reserved);
      if done {
        orders := orders[o := orders[o].(quotaState := Some(Released))];
      }
    }

    method MarkActiveRunRunning(r: nat, now: int, expiresAt: int) returns (hit: bool)
      modifies this
      ensures hit <==> r < |old(runs)| && ActiveRun(old(runs)[r].status)
      ensures View() == if !hit then old(View())
                        else old(View()).(runs := old(runs)[r := UnchargedBeat(old(runs)[r], now, expiresAt)])
    {
      hit := r < |runs| && ActiveRun(runs[r].status);
      if hit {
        var run := runs[r].(leaseExpiresAt := expiresAt);
        if run.status == RunAssigned {
          run := run.(status := RunRunning, startedAt := Some(now));
        }
        runs := runs[r := run];
      }
    }

    method FinishActiveRun(r: nat, patch: Run -> Run) returns (hit: bool)
      modifies this
      ensures hit <==> r < |old(runs)| && ActiveRun(old(runs)[r].status)
      ensures View() == if hit then old(View()).(runs := old(runs)[r := patch(old(runs)[r])]) else old(View())
    {
      hit := r < |runs| && ActiveRun(runs[r].status);
      if hit {
        runs := runs[r := patch(runs[r])];
      }
    }

    method UpdateActiveRunReuse(r: nat, record: ReuseRecord) returns (hit: bool)
      modifies this
      ensures hit <==> r < |old(runs)| && ActiveRun(old(runs)[r].status)
      ensures View() == if hit then WithReuse(old(View()), r, record) else old(View())
    {
      hit := r < |runs| && ActiveRun(runs[r].status);
      if hit {
        runs := runs[r := runs[r].(reuse := record)];
      }
    }

    method ListExactReuseCandidates(terms: Terms, w: string, identityHash: string, exclude: nat)
      returns (keys: seq<nat>)
      requires SourcesKnown(Rows())
      ensures keys == MatchingSources(Rows(), exclude, w, terms, identityHash, |runs|, MAX_EXACT_REUSE_CANDIDATES)
    {
      keys := [];
      var rows, budget := Rows(), MAX_EXACT_REUSE_CANDIDATES;
      ghost var all := MatchingSources(rows, exclude, w, terms, identityHash, |runs|, budget);
      for top := |runs| downto 0
        invariant budget == MAX_EXACT_REUSE_CANDIDATES - |keys| && budget >= 0
        invariant all == keys + MatchingSources(rows, exclude, w, terms, identityHash, top, budget)
      {
        NextSource(rows, exclude, w, terms, identityHash, keys, top, budget);
        if budget > 0 && MatchesQuery(rows, exclude, w, terms, identityHash, top) {
          keys := keys + [top];
          budget := budget - 1;
        }
      }
    }

    method CountReservedQuotaRuns(w: string) returns (n: nat)
      ensures n == Reservations(runs, |runs|, w)
      ensures n == 0 <==> NoneReserved(runs, w)
    {
      n := 0;
      for i := 0 to |runs|
        invariant n == Reservations(runs, i, w)
        invariant n == 0 <==> NoneReserved(runs[..i], w)
      {
        assert runs[..i + 1] == runs[..i] + [runs[i]];
        assert runs[..i + 1][i] == runs[i];
        if runs[i].worker == w && runs[i].quotaState == Reserved {
          n := n + 1;
        }
      }
      assert runs[..|runs|] == runs;
    }

    // ----- leases -----

    method RenewOwnedLiveLease(r: nat, w: string, now: int, expiresAt: int) returns (hit: bool)
      modifies this
      ensures hit <==> OwnsLive(old(View()), r, w, now)
      ensures View() == if !hit then old(View())
                        else old(View()).(leases := old(leases)[r := old(leases)[r].(expiresAt := expiresAt)])
    {
      hit := r in leases && leases[r].worker == w && leases[r].expiresAt >= now;
      if hit {
        leases := leases[r := leases[r].(expiresAt := expiresAt)];
      }
    }

    /** Delete one lease while it still is what the caller saw. */
    method ConsumeLease(r: nat, o: nat, w: string, now: int, mode: Liveness) returns (hit: bool)
      modifies this
      ensures hit <==> && r in old(leases) && old(leases)[r].order == o && old(leases)[r].worker == w
                       && Accepts(mode, old(leases)[r].expiresAt, now)
      ensures View() == if hit then old(View()).(leases := old(leases) - {r}) else old(View())
    {
      hit := r in leases && leases[r].order == o && leases[r].worker == w && Accepts(mode, leases[r].expiresAt, now);
      if hit {
        leases := leases - {r};
      }
    }

    /** The lease of a work order, if any. */
    method LeaseForWorkOrder(o: nat) returns (r: Option<nat>)
      ensures r.Some? ==> LeaseOf(leases, o, r.value)
      ensures r.None? ==> forall k :: !LeaseOf(leases, o, k)
    {
      var rest := leases.Keys;
      while rest != {}
        invariant rest <= leases.Keys
        invariant forall k :: k in leases && k !in rest ==> leases[k].order != o
        decreases |rest|
      {
        var k :| k in rest;
        if leases[k].order == o {
          return Some(k);
        }
        rest := rest - {k};
      }
      r := None;
    }

    // ----- workers -----

    method UpsertWorker(w: string, registration: Registration, now: int)
      modifies this
      ensures View() == WithWorker(old(View()), w, Registered(old(View()), w, registration, now))
    {
      if w !in workers {
        workers := workers[w := Worker(registration.status, registration.maxConcurrency, 0, now, None,
                                       registration.repositories, registration.capabilities)];
      } else {
        var row := workers[w].(maxConcurrency := registration.maxConcurrency,
                               repositories := registration.repositories,
                               capabilities := registration.capabilities);
        if registration.status in {Busy, Draining, Offline} {
          row := row.(status := registration.status);
        } else if row.active >= row.maxConcurrency {
          row := row.(status := Busy);
        } else {
          row := row.(status := Online);
        }
        workers := workers[w := row.(lastHeartbeat := now)];
      }
    }

    method UpdateWorkerHeartbeat(w: string, status: Option<WorkerStatus>, now: int)
      requires w in workers
      modifies this
      ensures View() == WithWorker(old(View()), w, Beaten(old(workers)[w], status, now))
    {
      var row := workers[w].(lastHeartbeat := now);
      if status.Some? {
        if status.value in {Busy, Draining, Offline} {
          row := row.(status := status.value);
        } else if row.active >= row.maxConcurrency {
          row := row.(status := Busy);
        } else {
          row := row.(status := Online);
        }
      }
      workers := workers[w := row];
    }

    method RecordCheckoutPoll(w: string, now: int) returns (hit: bool)
      modifies this
      ensures hit <==> w in old(workers)
      ensures View() == if hit then WithWorker(old(View()), w, old(workers)[w].(lastPoll := Some(now))) else old(View())
    {
      hit := w in workers;
      if hit {
        workers := workers[w := workers[w].(lastPoll := Some(now))];
      }
    }

    method ReserveWorkerCapacity(w: string) returns (hit: bool)
      modifies this
      ensures hit <==> CanTakeSlot(old(View()), w)
      ensures View() == if hit then WithWorker(old(View()), w, TakenSlot(old(workers)[w])) else old(View())
    {
      hit := w in workers && workers[w].status == Online && workers[w].active < workers[w].maxConcurrency;
      if hit {
        workers := workers[w := TakenSlot(workers[w])];
      }
    }

    method ReleaseWorkerCapacity(w: string) returns (hit: bool)
      modifies this
      ensures hit <==> w in old(workers) && old(workers)[w].active > 0
      ensures View() == if hit then WithWorker(old(View()), w, FreedSlot(old(workers)[w])) else old(View())
    {
      hit := w in workers && workers[w].active > 0;
      if hit {
        workers := workers[w := FreedSlot(workers[w])];
      }
    }

    // ----- routing profiles -----

    method CreateRoutingProfile(w: string, draft: ProfileDraft)
      modifies this
      ensures View() == WithProfile(old(View()), w, Drafted(draft, 1))
    {
      profiles := profiles[w := Drafted(draft, 1)];
      ledger := ledger[w := Ledger(draft.remaining, |runs|)];
    }

    method ReplaceRoutingProfile(w: string, expected: int, draft: ProfileDraft) returns (hit: bool)
      modifies this
      ensures hit <==> ReplaceCas(old(View()), w, expected)
      ensures View() == if hit then WithProfile(old(View()), w, Drafted(draft, expected + 1)) else old(View())
    {
      hit := w in profiles && profiles[w].revision == expected && profiles[w].revision < MAX_ROUTING_INTEGER;
      if hit {
        profiles := profiles[w := Drafted(draft, expected + 1)];
        ledger := ledger[w := Ledger(draft.remaining, |runs|)];
      }
    }

    method ResetRoutingQuota(w: string, expected: int, remaining: int, resetAt: int) returns (hit: bool)
      modifies this
      ensures hit <==> ResetCas(old(View()), w, expected, remaining)
      ensures View() == if !hit then old(View())
                        else WithProfile(old(View()), w, ResetProfile(old(profiles)[w], remaining, resetAt))
    {
      hit := && w in profiles && profiles[w].revision == expected && profiles[w].revision < MAX_ROUTING_INTEGER
             && profiles[w].capacity >= remaining;
      if hit {
        var row := profiles[w].(remaining := remaining, resetAt := Some(resetAt), revision := expected + 1);
        profiles := profiles[w := row];
        ledger := ledger[w := Ledger(remaining, |runs|)];
      }
    }

    method ReserveRoutingQuota(w: string, expected: int, units: nat) returns (revision: Option<int>)
      modifies this
      ensures revision == if CanReserve(old(View()), w, expected, units) then Some(expected + 1) else None
      ensures View() == if revision.None? then old(View())
                        else old(View()).(profiles := old(profiles)[w := Debited(old(profiles)[w], units)])
    {
      var ceiling := MAX_ROUTING_INTEGER - (if units > 0 then 2 else 1);
      if && w in profiles && profiles[w].enabled && profiles[w].revision == expected && expected <= ceiling
         && profiles[w].remaining >= units && profiles[w].remaining <= profiles[w].capacity
      {
        profiles := profiles[w := profiles[w].(remaining := profiles[w].remaining - units, revision := expected + 1)];
        revision := Some(expected + 1);
      } else {
        revision := None;
      }
    }

    // ----- listings -----

    /** Runs with a stale lease, in key order. */
    method ListStaleLeases(now: int) returns (stale: seq<nat>)
      ensures forall r :: r in stale <==> r < |runs| && r in leases && leases[r].expiresAt < now
      ensures forall i, j :: 0 <= i < j < |stale| ==> stale[i] < stale[j]
    {
      stale := [];
      for k := 0 to |runs|
        invariant forall r :: r in stale <==> r < k && r in leases && leases[r].expiresAt < now
        invariant forall i, j :: 0 <= i < j < |stale| ==> stale[i] < stale[j]
      {
        assert forall i :: 0 <= i < |stale| ==> stale[i] in stale;
        if k in leases && leases[k].expiresAt < now {
          stale := stale + [k];
        }
      }
    }

    /** Every registered worker once. The order does not matter: ranking is unique. */
    method ListWorkers() returns (ws: seq<string>)
      ensures forall w :: w in ws <==> w in workers
      ensures forall i, j :: 0 <= i < j < |ws| ==> ws[i] != ws[j]
    {
      var rest := workers.Keys;
      ws := [];
      while rest != {}
        invariant rest <= workers.Keys
        invariant forall w :: w in ws <==> w in workers && w !in rest
        invariant forall i, j :: 0 <= i < j < |ws| ==> ws[i] != ws[j]
        decreases |rest|
      {
        var w :| w in rest;
        ws := ws + [w];
        rest := rest - {w};
      }
    }
  }
}
