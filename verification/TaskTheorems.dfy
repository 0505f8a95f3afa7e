/**
 What whole runs of the task plane guarantee: exclusive leases and an exact fast path.
 */
module TaskTheorems {
  import opened Options
  import opened Tasks

  ghost function Run(b: Book, es: seq<TaskEvent>): Book
    decreases |es|
  {
    if es == [] then b else Run(Step(b, es[0]), es[1..])
  }

  lemma {:induction false} RunKeepsOk(b: Book, es: seq<TaskEvent>)
    requires BookOk(b)
    ensures BookOk(Run(b, es))
    decreases |es|
  {
    if es != [] {
      StepKeepsOk(b, es[0]);
      RunKeepsOk(Step(b, es[0]), es[1..]);
    }
  }

  /** After any run, a lease implies a task in progress and every dependency exists. */
  lemma EveryRunKeepsOk(es: seq<TaskEvent>)
    ensures BookOk(Run(EMPTY_BOOK, es))
  {
    RunKeepsOk(EMPTY_BOOK, es);
  }

  // ----- exclusive leases -----

  /** What ends a lease on purpose: its holder settling the task, or an operator deleting it
      or declaring it pending or completed. */
  predicate Releases(e: TaskEvent, i: nat, holder: string) {
    || ((e.Complete? || e.Abandon?) && e.task == i && e.agent == holder)
    || (e.DeleteTask? && e.task == i)
    || (e.UpdateTask? && e.task == i && e.change.status.Some? && e.change.status.value != InProgress)
  }

  predicate Timed(e: TaskEvent) {
    e.CheckoutAny? || e.CheckoutOne? || e.Heartbeat? || e.Complete? || e.Abandon?
  }

  /** The event happens while the lease is live. */
  predicate During(e: TaskEvent, lease: TaskLease) {
    Timed(e) ==> e.now < lease.expiresAt
  }

  /** As far as the lease is still there, each event finds it live, as last renewed, and is
      none of those that give it up. Whether the lease stays there is not assumed. */
  ghost predicate KeptAlive(b: Book, es: seq<TaskEvent>, i: nat)
    decreases |es|
  {
    es == [] ||
    (i in b.leases ==>
       !Releases(es[0], i, b.leases[i].agent) && During(es[0], b.leases[i]) && KeptAlive(Step(b, es[0]), es[1..], i))
  }

  /** In the first book of the run and after every event, `agent` holds the lease of a task
      in progress. */
  ghost predicate HeldThroughout(b: Book, es: seq<TaskEvent>, i: nat, agent: string)
    decreases |es|
  {
    && i in b.leases && b.leases[i].agent == agent
    && i in b.tasks && b.tasks[i].status == InProgress
    && (es == [] || HeldThroughout(Step(b, es[0]), es[1..], i, agent))
  }

  /** The holder's renewals aside, the lease is not even changed. */
  predicate Renews(e: TaskEvent, i: nat, holder: string) {
    e.Heartbeat? && e.task == i && e.agent == holder
  }

  lemma LeaseSurvivesStep(b: Book, e: TaskEvent, i: nat)
    requires BookOk(b) && i in b.leases
    requires !Releases(e, i, b.leases[i].agent) && During(e, b.leases[i])
    ensures var z := Step(b, e);
            && i in z.leases && z.leases[i].agent == b.leases[i].agent
            && i in z.tasks && z.tasks[i].status == InProgress
            && z.leases[i].expiresAt == if Renews(e, i, b.leases[i].agent) then e.expiresAt else b.leases[i].expiresAt
  {
    assert LeaseOk(b, i);
    if e.CheckoutAny? || e.CheckoutOne? {
      assert !Available(ExpiredBook(b, e.now), i, e.now);
    }
  }

  /** A live lease shuts everybody else out: as long as each event comes while the lease is
      live, its holder's renewals counting, and neither the holder nor an operator gives it
      up, no event of the run makes another agent obtain, complete or abandon the task. */
  lemma {:induction false} LeaseIsExclusive(b: Book, es: seq<TaskEvent>, i: nat)
    requires BookOk(b) && i in b.leases && KeptAlive(b, es, i)
    ensures HeldThroughout(b, es, i, b.leases[i].agent)
    ensures var z := Run(b, es);
            && i in z.leases && z.leases[i].agent == b.leases[i].agent
            && i in z.tasks && z.tasks[i].status == InProgress
    decreases |es|
  {
    assert LeaseOk(b, i);
    if es != [] {
      LeaseSurvivesStep(b, es[0], i);
      StepKeepsOk(b, es[0]);
      LeaseIsExclusive(Step(b, es[0]), es[1..], i);
    }
  }

  /** Without renewals the lease stays as it was issued, so it is enough that every event of
      the run happens before it expires. */
  lemma {:induction false} UntilExpiry(b: Book, es: seq<TaskEvent>, i: nat)
    requires BookOk(b) && i in b.leases
    requires forall k :: 0 <= k < |es| ==>
               && !Releases(es[k], i, b.leases[i].agent)
               && !Renews(es[k], i, b.leases[i].agent)
               && During(es[k], b.leases[i])
    ensures KeptAlive(b, es, i) && i in Run(b, es).leases && Run(b, es).leases[i] == b.leases[i]
    decreases |es|
  {
    if es != [] {
      LeaseSurvivesStep(b, es[0], i);
      StepKeepsOk(b, es[0]);
      UntilExpiry(Step(b, es[0]), es[1..], i);
    }
  }

  /** An event before instant `until` that neither gives the lease up nor shortens it. */
  predicate Spares(e: TaskEvent, i: nat, holder: string, until: int) {
    && !Releases(e, i, holder)
    && (Timed(e) ==> e.now < until)
    && (Renews(e, i, holder) ==> until <= e.expiresAt)
  }

  lemma {:induction false} LeaseRunsUntil(b: Book, es: seq<TaskEvent>, i: nat, until: int)
    requires BookOk(b) && i in b.leases && until <= b.leases[i].expiresAt
    requires forall k :: 0 <= k < |es| ==> Spares(es[k], i, b.leases[i].agent, until)
    ensures var z := Run(b, es);
            && i in z.leases && z.leases[i].agent == b.leases[i].agent && until <= z.leases[i].expiresAt
            && i in z.tasks && z.tasks[i].status == InProgress
    decreases |es|
  {
    assert LeaseOk(b, i);
    if es != [] {
      LeaseSurvivesStep(b, es[0], i);
      StepKeepsOk(b, es[0]);
      LeaseRunsUntil(Step(b, es[0]), es[1..], i, until);
    }
  }

  /** A heartbeat renews: a holder whose lease has not run out by `at` keeps the task until
      the instant its beat set, through every run of events that spares the lease. */
  lemma HeartbeatRenews(b: Book, agent: string, i: nat, at: int, until: int, es: seq<TaskEvent>)
    requires BookOk(b) && i in b.leases && b.leases[i].agent == agent && at < b.leases[i].expiresAt
    requires forall k :: 0 <= k < |es| ==> Spares(es[k], i, agent, until)
    ensures var z := Run(Step(b, Heartbeat(agent, i, at, until)), es);
            && i in z.leases && z.leases[i].agent == agent && until <= z.leases[i].expiresAt
            && i in z.tasks && z.tasks[i].status == InProgress
  {
    StepKeepsOk(b, Heartbeat(agent, i, at, until));
    LeaseRunsUntil(Step(b, Heartbeat(agent, i, at, until)), es, i, until);
  }

  // ----- the status-lookup fast path -----

  /** Dependencies are looked up one by one; the first unfinished one answers no, and an
      unknown one gives up. */
  function FromRecords(b: Book, deps: seq<nat>): Option<bool> {
    if deps == [] then Some(true)
    else if deps[0] !in b.tasks then None
    else if b.tasks[deps[0]].status != Completed then Some(false)
    else FromRecords(b, deps[1..])
  }

  /** Whenever the fast path answers, it answers as the repository test would; with all
      dependencies present it always answers. */
  lemma {:induction false} FastPathAgrees(b: Book, deps: seq<nat>)
    ensures FromRecords(b, deps).Some? ==>
              (FromRecords(b, deps).value <==> forall d :: d in deps && d in b.tasks ==> b.tasks[d].status == Completed)
    ensures Exist(b, deps) ==> FromRecords(b, deps).Some?
  {
    if deps != [] {
      assert deps == [deps[0]] + deps[1..];
      FastPathAgrees(b, deps[1..]);
    }
  }

  /** The first available task is unique, so checkout hands out exactly that one. */
  lemma CheckoutPicksFirst(b: Book, i: nat, agent: string, now: int, expiresAt: int)
    requires FirstAvailable(b, i, now)
    ensures CheckedOutAny(b, agent, now, expiresAt) == ClaimedBook(b, i, agent, expiresAt)
    ensures forall j :: j in b.tasks && j != i && Available(b, j, now) ==>
              b.tasks[j].priority < b.tasks[i].priority || (b.tasks[j].priority == b.tasks[i].priority && i < j)
  {
    assert forall j: nat :: FirstAvailable(b, j, now) ==> j == i;
  }
}
