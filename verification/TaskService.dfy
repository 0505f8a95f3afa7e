/**
 The task service over its task and lease tables, with the analytics loop.
 */
module TaskPlane {
  import opened Options
  import opened Sequences
  import opened Tasks
  import opened TaskTheorems

  ghost predicate InOrder(b: Book, ids: seq<nat>) {
    && (forall i :: i in ids ==> i in b.tasks)
    && (forall i, j :: 0 <= i < j < |ids| ==> Before(b, ids[i], ids[j]))
  }

  /** Insert a task into a list in checkout order. */
  function Placed(b: Book, i: nat, ids: seq<nat>): (r: seq<nat>)
    requires i in b.tasks && i !in ids && InOrder(b, ids)
    ensures InOrder(b, r) && |r| == |ids| + 1
    ensures forall k :: k in r <==> k == i || k in ids
  {
    if ids == [] || Before(b, i, ids[0]) then [i] + ids
    else
      assert ids == [ids[0]] + ids[1..];
      var rest := Placed(b, i, ids[1..]);
      assert forall k :: 0 <= k < |rest| ==> rest[k] in rest;
      [ids[0]] + rest
  }

  datatype CheckoutOutcome = Handed(task: nat, lease: TaskLease) | NoTask(reason: NoTaskReason)
  datatype NoTaskReason = MaintenanceMode | TaskNotAvailable | NoAvailableTasks

  datatype UpdateOutcome = Updated(task: Task) | SelfDependency | TaskNotFound | MissingDependencies

  /** What a checkout of any task, or of one given task, may answer. */
  ghost predicate HandedRight(
    b: Book, which: Option<nat>, agent: string, now: int, expiresAt: int, x: CheckoutOutcome, z: Book)
  {
    match x
    case Handed(i, lease) =>
      && lease == TaskLease(agent, expiresAt)
      && (if which.Some? then i == which.value && Available(b, i, now) else FirstAvailable(b, i, now))
      && i in b.tasks
      && z == ClaimedBook(b, i, agent, expiresAt)
    case NoTask(reason) =>
      && z == b
      && (reason == if which.Some? then TaskNotAvailable else NoAvailableTasks)
      && (if which.Some? then !Available(b, which.value, now) else forall i :: i in b.tasks ==> !Available(b, i, now))
  }

  /** A task was handed over: it was pending with every dependency completed, nothing else
      that could be handed out has a higher priority or the same and a lower id, and now the
      agent holds it until the given instant. Overdue leases aside, nothing else changed. */
  ghost predicate HandedOver(
    b: Book, z: Book, which: Option<nat>, agent: string, now: int, expiresAt: int, i: nat)
  {
    && (which.Some? ==> i == which.value)
    && i in b.tasks && z.tasks.Keys == b.tasks.Keys
    && z.tasks[i] == b.tasks[i].(status := InProgress)
    && (b.tasks[i].status == Pending || (i in b.leases && b.leases[i].expiresAt < now))
    && (forall d :: d in b.tasks[i].deps && d in z.tasks ==> z.tasks[d].status == Completed)
    && (which.None? ==>
          forall j :: j in b.tasks && j != i && Available(ExpiredBook(b, now), j, now) ==>
            b.tasks[j].priority < b.tasks[i].priority || (b.tasks[j].priority == b.tasks[i].priority && i < j))
    && z.leases.Keys == (set k | k in b.leases && b.leases[k].expiresAt >= now) + {i}
    && z.leases[i] == TaskLease(agent, expiresAt)
    && (forall k :: k in z.leases && k != i ==> z.leases[k] == b.leases[k])
    && (forall k :: k in z.tasks && k != i ==>
          z.tasks[k] == if k in b.leases && b.leases[k].expiresAt < now then b.tasks[k].(status := Pending)
                        else b.tasks[k])
  }

  lemma HandedMeans(b: Book, which: Option<nat>, agent: string, now: int, expiresAt: int, x: CheckoutOutcome, z: Book)
    requires x.Handed? && HandedRight(ExpiredBook(b, now), which, agent, now, expiresAt, x, z)
    ensures HandedOver(b, z, which, agent, now, expiresAt, x.task)
  {
    var m := ExpiredBook(b, now);
    assert Available(m, x.task, now) && x.task !in m.tasks[x.task].deps;
  }

  /** The columns of a task after an update: what was given is taken over, the rest stays. */
  ghost predicate UpdatedAs(t: Task, c: Change, u: Task) {
    && (c.status.Some? ==> u.status == c.status.value) && (c.status.None? ==> u.status == t.status)
    && (c.priority.Some? ==> u.priority == c.priority.value) && (c.priority.None? ==> u.priority == t.priority)
    && (c.deps.Some? ==> Ascending(u.deps) && forall d :: d in u.deps <==> d in c.deps.value)
    && (c.deps.None? ==> u.deps == t.deps)
  }

  function CheckoutEvent(which: Option<nat>, agent: string, now: int, expiresAt: int): TaskEvent {
    if which.Some? then CheckoutOne(agent, which.value, now, expiresAt) else CheckoutAny(agent, now, expiresAt)
  }

  lemma HandedIsStep(b: Book, which: Option<nat>, agent: string, now: int, expiresAt: int, x: CheckoutOutcome, z: Book)
    requires HandedRight(ExpiredBook(b, now), which, agent, now, expiresAt, x, z)
    ensures z == Step(b, CheckoutEvent(which, agent, now, expiresAt))
  {
    if which.None? && x.Handed? {
      CheckoutPicksFirst(ExpiredBook(b, now), x.task, agent, now, expiresAt);
    }
  }

  // ----- what analytics counts -----

  datatype Measure = IsPending | IsInProgress | IsCompleted | HasDependencies | IsReady | IsBlocked | MissesDependency

  predicate AllDone(b: Book, deps: seq<nat>) {
    forall d :: d in deps ==> d in b.tasks && b.tasks[d].status == Completed
  }

  predicate Meets(b: Book, m: Measure, i: nat) {
    && i in b.tasks
    && var t := b.tasks[i];
    match m
    case IsPending => t.status == Pending
    case IsInProgress => t.status == InProgress
    case IsCompleted => t.status == Completed
    case HasDependencies => t.deps != []
    case IsReady => t.status == Pending && AllDone(b, t.deps)
    case IsBlocked => t.status == Pending && !AllDone(b, t.deps)
    case MissesDependency => t.status == Pending && !Exist(b, t.deps)
  }

  function Meeting(b: Book, m: Measure): set<nat> {
    set i | i in b.tasks && Meets(b, m, i)
  }

  /** How many of the first `n` ids are in `s`. */
  function Count(s: set<nat>, ids: seq<nat>, n: nat): nat
    requires n <= |ids|
  {
    if n == 0 then 0 else Count(s, ids, n - 1) + (if ids[n - 1] in s then 1 else 0)
  }

  lemma {:induction false} CountIsSize(s: set<nat>, ids: seq<nat>, n: nat)
    requires n <= |ids| && Distinct(ids) && forall i :: i in s ==> i in ids[..n]
    ensures Count(s, ids, n) == |s|
  {
    if n == 0 {
      assert s == {};
    } else {
      var x := ids[n - 1];
      assert ids[..n] == ids[..n - 1] + [x];
      CountIsSize(s - {x}, ids, n - 1);
      CountSkips(s, x, ids, n - 1);
      assert x in s ==> s == (s - {x}) + {x};
      assert x !in s ==> s == s - {x};
    }
  }

  lemma {:induction false} CountSkips(s: set<nat>, x: nat, ids: seq<nat>, n: nat)
    requires n <= |ids| && forall i :: 0 <= i < n ==> ids[i] != x
    ensures Count(s - {x}, ids, n) == Count(s, ids, n)
  {
    if n > 0 {
      CountSkips(s, x, ids, n - 1);
    }
  }

  /** Dependencies that name no task. */
  function Unknown(b: Book, deps: seq<nat>): nat {
    if deps == [] then 0 else Unknown(b, deps[..|deps| - 1]) + (if deps[|deps| - 1] in b.tasks then 0 else 1)
  }

  function Edges(b: Book, ids: seq<nat>, n: nat): nat
    requires n <= |ids|
  {
    if n == 0 then 0 else Edges(b, ids, n - 1) + (if ids[n - 1] in b.tasks then |b.tasks[ids[n - 1]].deps| else 0)
  }

  function UnknownEdges(b: Book, ids: seq<nat>, n: nat): nat
    requires n <= |ids|
  {
    if n == 0 then 0
    else
      var i := ids[n - 1];
      UnknownEdges(b, ids, n - 1) + (if Meets(b, IsPending, i) then Unknown(b, b.tasks[i].deps) else 0)
  }

  datatype Analytics = Analytics(
    total: nat,
    pending: nat,
    inProgress: nat,
    completed: nat,
    ready: nat,
    blocked: nat,
    withDependencies: nat,
    withoutDependencies: nat,
    edges: nat,
    missingTasks: nat,
    missingEdges: nat,
    average: real)

  /** Dependency edges, as a task and a position in its list. */
  function EdgeSet(b: Book): set<(nat, nat)> {
    set i, k | i in b.tasks && 0 <= k < |b.tasks[i].deps| :: (i, k)
  }

  predicate UnknownAt(b: Book, i: nat, k: nat)
    requires i in b.tasks && k < |b.tasks[i].deps|
  {
    b.tasks[i].status == Pending && b.tasks[i].deps[k] !in b.tasks
  }

  /** Edges of pending tasks that name no task. */
  function UnknownEdgeSet(b: Book): set<(nat, nat)> {
    set i, k | i in b.tasks && 0 <= k < |b.tasks[i].deps| && UnknownAt(b, i, k) :: (i, k)
  }

  function EdgesOf(i: nat, n: nat): set<(nat, nat)> {
    set k | 0 <= k < n :: (i, k)
  }

  lemma {:induction false} EdgesOfSize(i: nat, n: nat)
    ensures |EdgesOf(i, n)| == n
  {
    if n == 0 {
      assert EdgesOf(i, n) == {};
    } else {
      EdgesOfSize(i, n - 1);
      assert EdgesOf(i, n) == EdgesOf(i, n - 1) + {(i, n - 1)};
    }
  }

  function EdgesAmong(b: Book, ids: seq<nat>): set<(nat, nat)> {
    set i, k | i in ids && i in b.tasks && 0 <= k < |b.tasks[i].deps| :: (i, k)
  }

  lemma EdgesSplit(b: Book, ids: seq<nat>, x: nat)
    requires x in b.tasks && x !in ids
    ensures |EdgesAmong(b, ids + [x])| == |EdgesAmong(b, ids)| + |b.tasks[x].deps|
  {
    EdgesOfSize(x, |b.tasks[x].deps|);
    assert EdgesAmong(b, ids + [x]) == EdgesAmong(b, ids) + EdgesOf(x, |b.tasks[x].deps|);
    assert EdgesAmong(b, ids) !! EdgesOf(x, |b.tasks[x].deps|);
  }

  lemma {:induction false} EdgesAmongSize(b: Book, ids: seq<nat>, n: nat)
    requires Distinct(ids) && n <= |ids| && forall i :: 0 <= i < |ids| ==> ids[i] in b.tasks
    ensures Edges(b, ids, n) == |EdgesAmong(b, ids[..n])|
  {
    if n == 0 {
      assert EdgesAmong(b, ids[..n]) == {};
    } else {
      assert ids[..n] == ids[..n - 1] + [ids[n - 1]];
      EdgesAmongSize(b, ids, n - 1);
      EdgesSplit(b, ids[..n - 1], ids[n - 1]);
    }
  }

  lemma EdgesAreCounted(b: Book, ids: seq<nat>)
    requires Distinct(ids) && forall i :: i in ids <==> i in b.tasks
    ensures Edges(b, ids, |ids|) == |EdgeSet(b)|
  {
    EdgesAmongSize(b, ids, |ids|);
    assert ids[..|ids|] == ids;
    assert EdgeSet(b) == EdgesAmong(b, ids);
  }

  function UnknownOf(b: Book, i: nat, deps: seq<nat>): set<(nat, nat)> {
    set k | 0 <= k < |deps| && deps[k] !in b.tasks :: (i, k)
  }

  lemma {:induction false} UnknownOfSize(b: Book, i: nat, deps: seq<nat>)
    ensures |UnknownOf(b, i, deps)| == Unknown(b, deps)
  {
    if deps == [] {
      assert UnknownOf(b, i, deps) == {};
    } else {
      var n := |deps| - 1;
      UnknownOfSize(b, i, deps[..n]);
      assert UnknownOf(b, i, deps) == UnknownOf(b, i, deps[..n]) + (if deps[n] in b.tasks then {} else {(i, n)});
    }
  }

  function UnknownAmong(b: Book, ids: seq<nat>): set<(nat, nat)> {
    set i, k | i in ids && i in b.tasks && 0 <= k < |b.tasks[i].deps| && UnknownAt(b, i, k) :: (i, k)
  }

  lemma UnknownSplit(b: Book, ids: seq<nat>, x: nat)
    requires x in b.tasks && x !in ids
    ensures |UnknownAmong(b, ids + [x])|
            == |UnknownAmong(b, ids)| + (if b.tasks[x].status == Pending then Unknown(b, b.tasks[x].deps) else 0)
  {
    UnknownOfSize(b, x, b.tasks[x].deps);
    var own := if b.tasks[x].status == Pending then UnknownOf(b, x, b.tasks[x].deps) else {};
    assert UnknownAmong(b, ids + [x]) == UnknownAmong(b, ids) + own;
    assert UnknownAmong(b, ids) !! own;
  }

  lemma {:induction false} UnknownAmongSize(b: Book, ids: seq<nat>, n: nat)
    requires Distinct(ids) && n <= |ids| && forall i :: 0 <= i < |ids| ==> ids[i] in b.tasks
    ensures UnknownEdges(b, ids, n) == |UnknownAmong(b, ids[..n])|
  {
    if n == 0 {
      assert UnknownAmong(b, ids[..n]) == {};
    } else {
      assert ids[..n] == ids[..n - 1] + [ids[n - 1]];
      UnknownAmongSize(b, ids, n - 1);
      UnknownSplit(b, ids[..n - 1], ids[n - 1]);
    }
  }

  lemma UnknownAreCounted(b: Book, ids: seq<nat>)
    requires Distinct(ids) && forall i :: i in ids <==> i in b.tasks
    ensures UnknownEdges(b, ids, |ids|) == |UnknownEdgeSet(b)|
  {
    UnknownAmongSize(b, ids, |ids|);
    assert ids[..|ids|] == ids;
    assert UnknownEdgeSet(b) == UnknownAmong(b, ids);
  }

  lemma ReadyIsAvailable(b: Book, i: nat, now: int)
    requires BookOk(b) && i in b.tasks
    ensures Meets(b, IsReady, i) <==> Available(b, i, now)
    ensures !Meets(b, MissesDependency, i)
    ensures forall k :: 0 <= k < |b.tasks[i].deps| ==> b.tasks[i].deps[k] in b.tasks
  {
    assert TaskOk(b, i);
    assert i in b.leases ==> LeaseOk(b, i);
  }

  lemma ReadyOrBlocked(b: Book)
    ensures |Meeting(b, IsReady)| + |Meeting(b, IsBlocked)| == |Meeting(b, IsPending)|
  {
    var ready, blocked := Meeting(b, IsReady), Meeting(b, IsBlocked);
    assert forall i :: i in Meeting(b, IsPending) <==> i in ready || i in blocked;
    assert Meeting(b, IsPending) == ready + blocked && ready !! blocked;
  }

  /** In every reachable book nothing is missing, ready and blocked tasks make up the
      pending ones, and the ready ones are exactly those that checkout would hand out. */
  lemma AnalyticsAgree(b: Book, a: Analytics, now: int)
    requires BookOk(b) && Accurate(b, a)
    ensures a.missingTasks == 0 && a.missingEdges == 0
    ensures a.ready + a.blocked == a.pending
    ensures a.ready == |set i | i in b.tasks && Available(b, i, now)|
  {
    ReadyOrBlocked(b);
    var ready, missing := Meeting(b, IsReady), Meeting(b, MissesDependency);
    forall i | i in b.tasks
      ensures i in ready <==> Available(b, i, now)
      ensures i !in missing
      ensures forall k :: 0 <= k < |b.tasks[i].deps| ==> b.tasks[i].deps[k] in b.tasks
    {
      ReadyIsAvailable(b, i, now);
    }
    assert missing == {} && UnknownEdgeSet(b) == {};
    assert ready == set i | i in b.tasks && Available(b, i, now);
  }

  /** The counters name exactly the tasks their names promise. */
  ghost predicate Accurate(b: Book, a: Analytics) {
    && a.total == |b.tasks|
    && a.pending == |Meeting(b, IsPending)|
    && a.inProgress == |Meeting(b, IsInProgress)|
    && a.completed == |Meeting(b, IsCompleted)|
    && a.ready == |Meeting(b, IsReady)|
    && a.blocked == |Meeting(b, IsBlocked)|
    && a.withDependencies == |Meeting(b, HasDependencies)|
    && a.withDependencies + a.withoutDependencies == a.total
    && a.missingTasks == |Meeting(b, MissesDependency)|
    && a.average == Average(a.edges, a.total)
    && a.edges == |EdgeSet(b)|
    && a.missingEdges == |UnknownEdgeSet(b)|
  }

  function Average(edges: nat, total: nat): real {
    if total == 0 then 0.0 else edges as real / total as real
  }

  class TaskService {
    var tasks: map<nat, Task>
    var leases: map<nat, TaskLease>

    ghost function View(): Book
      reads this
    {
      Book(tasks, leases)
    }

    function Rows(): (b: Book)
      reads this
      ensures b == View()
    {
      Book(tasks, leases)
    }

    constructor ()
      ensures View() == EMPTY_BOOK
    {
      tasks, leases := map[], map[];
    }

    // ----- repository queries -----

    /** All tasks, highest priority first and oldest first among equals. */
    method ListCandidates() returns (ids: seq<nat>)
      ensures InOrder(View(), ids)
      ensures forall i :: i in ids <==> i in tasks
    {
      var rest := tasks.Keys;
      ids := [];
      while rest != {}
        invariant rest <= tasks.Keys
        invariant InOrder(View(), ids)
        invariant forall i :: i in ids <==> i in tasks && i !in rest
        decreases |rest|
      {
        var i :| i in rest;
        ids := Placed(Rows(), i, ids);
        rest := rest - {i};
      }
    }

    method DependenciesCompletedInTable(i: nat) returns (done: bool)
      requires i in tasks
      ensures done <==> DependenciesCompleted(View(), i)
    {
      var deps := tasks[i].deps;
      done := true;
      for k := 0 to |deps|
        invariant done <==> forall d :: d in deps[..k] && d in tasks ==> tasks[d].status == Completed
      {
        assert deps[..k + 1] == deps[..k] + [deps[k]];
        if deps[k] in tasks && tasks[deps[k]].status != Completed {
          done := false;
        }
      }
      assert deps[..|deps|] == deps;
    }

    /** Look the dependencies up among the listed statuses; none if one is unknown. */
    method DependenciesCompletedFromRecords(i: nat) returns (done: Option<bool>)
      requires i in tasks
      ensures done == FromRecords(View(), tasks[i].deps)
    {
      var deps := tasks[i].deps;
      for k := 0 to |deps|
        invariant FromRecords(View(), deps[k..]) == FromRecords(View(), deps)
      {
        assert deps[k..][0] == deps[k] && deps[k..][1..] == deps[k + 1..];
        if deps[k] !in tasks {
          return None;
        }
        if tasks[deps[k]].status != Completed {
          return Some(false);
        }
      }
      done := Some(true);
    }

    /** Claim a task only if it remains pending. */
    method ClaimPending(i: nat) returns (hit: bool)
      modifies this`tasks
      ensures hit <==> i in old(tasks) && old(tasks)[i].status == Pending
      ensures View() == if hit then WithStatus(old(View()), i, InProgress) else old(View())
    {
      hit := i in tasks && tasks[i].status == Pending;
      if hit {
        tasks := tasks[i := tasks[i].(status := InProgress)];
      }
    }

    /** Drop overdue leases and put their tasks back in the queue. */
    method ExpireStale(now: int)
      modifies this
      ensures View() == ExpiredBook(old(View()), now)
      ensures leases == map i | i in old(leases) && old(leases)[i].expiresAt >= now :: old(leases)[i]
      ensures tasks.Keys == old(tasks).Keys
      ensures forall i :: i in tasks ==>
              tasks[i] == if i in old(leases) && old(leases)[i].expiresAt < now
                          then old(tasks)[i].(status := Pending) else old(tasks)[i]
    {
      DropOverdue(now);
    }

    method DropOverdue(now: int)
      modifies this
      ensures View() == ExpiredBook(old(View()), now)
    {
      var expired := set i | i in leases && leases[i].expiresAt < now;
      ghost var b := View();
      leases := map i | i in leases && i !in expired :: leases[i];
      var rest := expired;
      while rest != {}
        invariant rest <= expired
        invariant leases == ExpiredBook(b, now).leases
        invariant tasks.Keys == b.tasks.Keys
        invariant forall i :: i in tasks ==>
                  tasks[i] == if i in expired && i !in rest then b.tasks[i].(status := Pending) else b.tasks[i]
        decreases |rest|
      {
        var i :| i in rest;
        if i in tasks && tasks[i].status != Pending {
          tasks := tasks[i := tasks[i].(status := Pending)];
        }
        rest := rest - {i};
      }
    }

    // ----- agents -----

    /** The fast path first, the table only if it gives up. */
    method Ready(i: nat, listed: bool) returns (done: bool)
      requires i in tasks
      ensures done <==> DependenciesCompleted(View(), i)
    {
      FastPathAgrees(View(), tasks[i].deps);
      var fast := None;
      if listed {
        fast := DependenciesCompletedFromRecords(i);
      }
      if fast.None? {
        done := DependenciesCompletedInTable(i);
      } else {
        done := fast.value;
      }
    }

    method Checkout(agent: string, which: Option<nat>, maintenance: bool, now: int, leaseSeconds: int)
      returns (x: CheckoutOutcome)
      modifies this
      ensures maintenance ==> x == NoTask(MaintenanceMode) && View() == old(View())
      ensures !maintenance ==>
              HandedRight(ExpiredBook(old(View()), now), which, agent, now, now + leaseSeconds, x, View())
      ensures !maintenance ==> View() == Step(old(View()), CheckoutEvent(which, agent, now, now + leaseSeconds))
      ensures x.Handed? ==> HandedOver(old(View()), View(), which, agent, now, now + leaseSeconds, x.task)
    {
      if maintenance {
        return NoTask(MaintenanceMode);
      }
      ghost var b := View();
      ExpireStale(now);
      x := HandOut(agent, which, now, now + leaseSeconds);
      HandedIsStep(b, which, agent, now, now + leaseSeconds, x, View());
      if x.Handed? {
        HandedMeans(b, which, agent, now, now + leaseSeconds, x, View());
      }
    }

    /** Claim the first candidate that is available. */
    method HandOut(agent: string, which: Option<nat>, now: int, expiresAt: int) returns (x: CheckoutOutcome)
      modifies this
      ensures HandedRight(old(View()), which, agent, now, expiresAt, x, View())
    {
      ghost var b := View();
      var candidates := [];
      if which.None? {
        candidates := ListCandidates();
      } else if which.value in tasks {
        candidates := [which.value];
      }
      for k := 0 to |candidates|
        invariant View() == b
        invariant forall j :: 0 <= j < k ==> !Available(b, candidates[j], now)
      {
        var i := candidates[k];
        assert i in candidates;
        var done := Ready(i, which.None?);
        if tasks[i].status == Pending && done && !(i in leases && leases[i].expiresAt > now) {
          assert Available(b, i, now);
          var claimed := ClaimPending(i);
          if claimed {
            var lease := TaskLease(agent, expiresAt);
            leases := (leases - {i})[i := lease];
            assert leases == b.leases[i := lease];
            FirstListed(b, candidates, k, which, now);
            return Handed(i, lease);
          }
        }
      }
      NoneListed(b, candidates, which, now);
      x := NoTask(if which.Some? then TaskNotAvailable else NoAvailableTasks);
    }

    method Heartbeat(agent: string, i: nat, now: int, leaseSeconds: int) returns (ok: bool)
      modifies this
      ensures ok <==> i in old(leases) && old(leases)[i].agent == agent && now < old(leases)[i].expiresAt
      ensures leases == if ok then old(leases)[i := TaskLease(agent, now + leaseSeconds)] else old(leases)
      ensures tasks == old(tasks)
      ensures View() == Step(old(View()), Tasks.Heartbeat(agent, i, now, now + leaseSeconds))
    {
      ok := i in leases && leases[i].agent == agent && leases[i].expiresAt > now;
      if ok {
        leases := leases[i := leases[i].(expiresAt := now + leaseSeconds)];
      }
    }

    method Complete(agent: string, i: nat, now: int) returns (ok: bool)
      modifies this
      ensures ok <==> && i in old(tasks)
                      && (i in old(leases) && old(leases)[i].agent != agent ==> old(leases)[i].expiresAt <= now)
      ensures View() == Step(old(View()), Tasks.Complete(agent, i, now))
      ensures tasks == if ok then old(tasks)[i := old(tasks)[i].(status := Completed)] else old(tasks)
      ensures leases == if ok then old(leases) - {i} else old(leases)
    {
      ok := (i !in leases || leases[i].agent == agent || leases[i].expiresAt <= now) && i in tasks;
      if ok {
        tasks := tasks[i := tasks[i].(status := Completed)];
        leases := leases - {i};
      }
    }

    method Abandon(agent: string, i: nat, now: int) returns (ok: bool)
      modifies this
      ensures ok <==> && i in old(tasks)
                      && (i in old(leases) && old(leases)[i].agent != agent ==> old(leases)[i].expiresAt <= now)
      ensures View() == Step(old(View()), Tasks.Abandon(agent, i, now))
      ensures tasks == if ok then old(tasks)[i := old(tasks)[i].(status := Pending)] else old(tasks)
      ensures leases == if ok then old(leases) - {i} else old(leases)
    {
      ok := (i !in leases || leases[i].agent == agent || leases[i].expiresAt <= now) && i in tasks;
      if ok {
        tasks := tasks[i := tasks[i].(status := Pending)];
        leases := leases - {i};
      }
    }

    // ----- operators -----

    method Missing(deps: seq<nat>) returns (missing: bool)
      ensures missing <==> !Exist(View(), deps)
    {
      missing := false;
      for k := 0 to |deps|
        invariant missing <==> exists d :: d in deps[..k] && d !in tasks
      {
        assert deps[..k + 1] == deps[..k] + [deps[k]];
        if deps[k] !in tasks {
          missing := true;
        }
      }
      assert deps[..|deps|] == deps;
    }

    /** `key` is the identifier the database assigns. */
    method CreateTask(key: nat, deps: seq<nat>, priority: int) returns (ok: bool)
      requires FreshKey(View(), key)
      modifies this
      ensures ok <==> forall d :: d in deps ==> d in old(tasks)
      ensures leases == old(leases) && (!ok ==> tasks == old(tasks))
      ensures ok ==> && key in tasks && tasks == old(tasks)[key := Task(Pending, priority, tasks[key].deps)]
                     && Ascending(tasks[key].deps) && forall d :: d in tasks[key].deps <==> d in deps
      ensures View() == Step(old(View()), Tasks.CreateTask(key, deps, priority))
    {
      var missing := Missing(deps);
      ok := !missing;
      if ok {
        tasks := tasks[key := Task(Pending, priority, Normalized(deps))];
      }
    }

    method UpdateTask(i: nat, change: Change) returns (x: UpdateOutcome)
      modifies this
      ensures x.SelfDependency? <==> change.deps.Some? && i in change.deps.value
      ensures x.TaskNotFound? <==> !x.SelfDependency? && i !in old(tasks)
      ensures x.MissingDependencies? <==>
              && !x.SelfDependency? && i in old(tasks) && change.deps.Some?
              && exists d :: d in change.deps.value && d !in old(tasks)
      ensures x.Updated? ==> && i in old(tasks) && tasks == old(tasks)[i := x.task]
                             && UpdatedAs(old(tasks)[i], change, x.task)
      ensures leases == if x.Updated? && change.status in {Some(Pending), Some(Completed)}
                        then old(leases) - {i} else old(leases)
      ensures View() == Step(old(View()), Tasks.UpdateTask(i, change))
    {
      if change.deps.Some? && i in change.deps.value {
        return SelfDependency;
      }
      if i !in tasks {
        return TaskNotFound;
      }
      if change.deps.Some? {
        var missing := Missing(change.deps.value);
        if missing {
          return MissingDependencies;
        }
      }
      tasks := tasks[i := Changed(tasks[i], change)];
      if change.status == Some(Pending) || change.status == Some(Completed) {
        leases := leases - {i};
      }
      x := Updated(tasks[i]);
    }

    method DeleteTask(i: nat) returns (deleted: bool)
      modifies this
      ensures deleted <==> i in old(tasks)
      ensures leases == old(leases) - {i} && tasks.Keys == old(tasks).Keys - {i}
      ensures forall k :: k in tasks ==>
              && tasks[k].status == old(tasks)[k].status && tasks[k].priority == old(tasks)[k].priority
              && forall d :: d in tasks[k].deps <==> d in old(tasks)[k].deps && d != i
      ensures View() == Step(old(View()), Tasks.DeleteTask(i))
    {
      deleted := i in tasks;
      tasks := map k | k in tasks && k != i :: tasks[k].(deps := Without(tasks[k].deps, i));
      leases := leases - {i};
    }

    // ----- analytics -----

    /** One pending task's dependencies: is any unknown, are all completed, how many unknown. */
    method InspectDependencies(deps: seq<nat>) returns (missing: bool, done: bool, unknown: nat)
      ensures missing <==> !Exist(View(), deps)
      ensures done <==> AllDone(View(), deps)
      ensures unknown == Unknown(View(), deps)
    {
      missing, done, unknown := false, true, 0;
      for k := 0 to |deps|
        invariant missing <==> !Exist(View(), deps[..k])
        invariant done <==> AllDone(View(), deps[..k])
        invariant unknown == Unknown(View(), deps[..k])
      {
        assert deps[..k + 1] == deps[..k] + [deps[k]];
        if deps[k] !in tasks {
          missing, done, unknown := true, false, unknown + 1;
        } else if tasks[deps[k]].status != Completed {
          done := false;
        }
      }
      assert deps[..|deps|] == deps;
    }

    method CountStatuses(ids: seq<nat>) returns (pending: nat, running: nat, completed: nat)
      requires forall i :: i in ids ==> i in tasks
      ensures pending == Count(Meeting(View(), IsPending), ids, |ids|)
      ensures running == Count(Meeting(View(), IsInProgress), ids, |ids|)
      ensures completed == Count(Meeting(View(), IsCompleted), ids, |ids|)
    {
      pending, running, completed := 0, 0, 0;
      for n := 0 to |ids|
        invariant pending == Count(Meeting(View(), IsPending), ids, n)
        invariant running == Count(Meeting(View(), IsInProgress), ids, n)
        invariant completed == Count(Meeting(View(), IsCompleted), ids, n)
      {
        assert ids[n] in ids;
        match tasks[ids[n]].status {
          case Pending => pending := pending + 1;
          case InProgress => running := running + 1;
          case Completed => completed := completed + 1;
        }
      }
    }

    method CountReadiness(ids: seq<nat>) returns (ready: nat, blocked: nat, missingTasks: nat, missingEdges: nat)
      requires forall i :: i in ids ==> i in tasks
      ensures ready == Count(Meeting(View(), IsReady), ids, |ids|)
      ensures blocked == Count(Meeting(View(), IsBlocked), ids, |ids|)
      ensures missingTasks == Count(Meeting(View(), MissesDependency), ids, |ids|)
      ensures missingEdges == UnknownEdges(View(), ids, |ids|)
    {
      ready, blocked, missingTasks, missingEdges := 0, 0, 0, 0;
      for n := 0 to |ids|
        invariant ready == Count(Meeting(View(), IsReady), ids, n)
        invariant blocked == Count(Meeting(View(), IsBlocked), ids, n)
        invariant missingTasks == Count(Meeting(View(), MissesDependency), ids, n)
        invariant missingEdges == UnknownEdges(View(), ids, n)
      {
        assert ids[n] in ids;
        var task := tasks[ids[n]];
        if task.status == Pending {
          var missing, done, unknown := InspectDependencies(task.deps);
          missingEdges := missingEdges + unknown;
          if missing {
            missingTasks := missingTasks + 1;
          }
          if done {
            ready := ready + 1;
          } else {
            blocked := blocked + 1;
          }
        }
      }
    }

    method CountWiring(ids: seq<nat>) returns (wired: nat, edges: nat)
      requires forall i :: i in ids ==> i in tasks
      ensures wired == Count(Meeting(View(), HasDependencies), ids, |ids|) && wired <= |ids|
      ensures edges == Edges(View(), ids, |ids|)
    {
      wired, edges := 0, 0;
      for n := 0 to |ids|
        invariant wired == Count(Meeting(View(), HasDependencies), ids, n) && wired <= n
        invariant edges == Edges(View(), ids, n)
      {
        assert ids[n] in ids;
        if tasks[ids[n]].deps != [] {
          wired, edges := wired + 1, edges + |tasks[ids[n]].deps|;
        }
      }
    }

    method Analyse() returns (a: Analytics)
      ensures Accurate(View(), a)
    {
      var ids := ListCandidates();
      OrderedAreDistinct(View(), ids);
      AllMeasured(View(), ids);
      var pending, running, completed := CountStatuses(ids);
      var ready, blocked, missingTasks, missingEdges := CountReadiness(ids);
      var wired, edges := CountWiring(ids);
      EdgesAreCounted(View(), ids);
      UnknownAreCounted(View(), ids);
      a := Analytics(|ids|, pending, running, completed, ready, blocked, wired, |ids| - wired,
                     edges, missingTasks, missingEdges,
                     Average(edges, |ids|));
    }
  }

  lemma FirstListed(b: Book, ids: seq<nat>, k: nat, which: Option<nat>, now: int)
    requires k < |ids| && Available(b, ids[k], now)
    requires forall j :: 0 <= j < k ==> !Available(b, ids[j], now)
    requires which.None? ==> InOrder(b, ids) && forall i :: i in ids <==> i in b.tasks
    ensures which.None? ==> FirstAvailable(b, ids[k], now)
  {
    if which.None? {
      forall j | j in b.tasks && j != ids[k] && Available(b, j, now)
        ensures Before(b, ids[k], j)
      {
        assert j in ids;
      }
    }
  }

  lemma NoneListed(b: Book, ids: seq<nat>, which: Option<nat>, now: int)
    requires forall j :: 0 <= j < |ids| ==> !Available(b, ids[j], now)
    requires which.None? ==> forall i :: i in ids <==> i in b.tasks
    requires which.Some? ==> ids == if which.value in b.tasks then [which.value] else []
    ensures if which.Some? then !Available(b, which.value, now) else forall i :: i in b.tasks ==> !Available(b, i, now)
  {
    if which.Some? && which.value in b.tasks {
      assert ids[0] == which.value;
    }
    assert forall i :: i in ids ==> !Available(b, i, now);
  }

  lemma OrderedAreDistinct(b: Book, ids: seq<nat>)
    requires InOrder(b, ids)
    ensures Distinct(ids)
  {
  }

  lemma AllMeasured(b: Book, ids: seq<nat>)
    requires Distinct(ids) && forall i :: i in ids <==> i in b.tasks
    ensures forall m: Measure :: Count(Meeting(b, m), ids, |ids|) == |Meeting(b, m)|
    ensures |ids| == |b.tasks|
  {
    assert ids[..|ids|] == ids;
    forall m: Measure
      ensures Count(Meeting(b, m), ids, |ids|) == |Meeting(b, m)|
    {
      CountIsSize(Meeting(b, m), ids, |ids|);
    }
    DistinctSize(ids, b.tasks.Keys);
  }
}
