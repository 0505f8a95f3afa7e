/**
 The task plane as values: tasks with priorities and dependencies, leases held by agents,
 and the availability and lease policies.
 */
module Tasks {
  import opened Options

  datatype TaskStatus = Pending | InProgress | Completed

  /** Dependencies are kept in ascending order without repeats. */
  datatype Task = Task(status: TaskStatus, priority: int, deps: seq<nat>)

  datatype TaskLease = TaskLease(agent: string, expiresAt: int)

  datatype Book = Book(tasks: map<nat, Task>, leases: map<nat, TaskLease>)

  const EMPTY_BOOK := Book(map[], map[])

  // ----- dependency lists -----

  predicate Ascending(xs: seq<nat>) {
    forall i, j :: 0 <= i < j < |xs| ==> xs[i] < xs[j]
  }

  function InsertDep(x: nat, xs: seq<nat>): (ys: seq<nat>)
    requires Ascending(xs)
    ensures Ascending(ys)
    ensures forall y :: y in ys <==> y == x || y in xs
  {
    if xs == [] || x < xs[0] then [x] + xs
    else if x == xs[0] then xs
    else
      assert xs == [xs[0]] + xs[1..];
      var rest := InsertDep(x, xs[1..]);
      assert forall k :: 0 <= k < |rest| ==> rest[k] in rest;
      [xs[0]] + rest
  }

  function Normalized(xs: seq<nat>): (ys: seq<nat>)
    ensures Ascending(ys)
    ensures forall y :: y in ys <==> y in xs
  {
    if xs == [] then []
    else
      assert xs == [xs[0]] + xs[1..];
      InsertDep(xs[0], Normalized(xs[1..]))
  }

  function Without(xs: seq<nat>, x: nat): (ys: seq<nat>)
    ensures Ascending(xs) ==> Ascending(ys)
    ensures forall y :: y in ys <==> y in xs && y != x
  {
    if xs == [] then []
    else
      assert xs == [xs[0]] + xs[1..];
      var rest := Without(xs[1..], x);
      assert forall k :: 0 <= k < |rest| ==> rest[k] in rest;
      if xs[0] == x then rest else [xs[0]] + rest
  }

  // ----- policies -----

  /** The repository test: every dependency that exists is completed. */
  predicate DependenciesCompleted(b: Book, i: nat)
    requires i in b.tasks
  {
    forall d :: d in b.tasks[i].deps && d in b.tasks ==> b.tasks[d].status == Completed
  }

  predicate LiveLease(b: Book, i: nat, now: int) {
    i in b.leases && b.leases[i].expiresAt > now
  }

  /** A task that may be checked out. */
  predicate Available(b: Book, i: nat, now: int) {
    && i in b.tasks
    && b.tasks[i].status == Pending
    && DependenciesCompleted(b, i)
    && !LiveLease(b, i, now)
  }

  predicate CanHeartbeat(b: Book, agent: string, i: nat, now: int) {
    LiveLease(b, i, now) && b.leases[i].agent == agent
  }

  /** Completing and abandoning share one rule: no lease, own lease, or an expired one. */
  predicate CanSettle(b: Book, agent: string, i: nat, now: int) {
    i !in b.leases || b.leases[i].agent == agent || b.leases[i].expiresAt <= now
  }

  /** Checkout order: higher priority first, then the lower id. */
  predicate Before(b: Book, i: nat, j: nat)
    requires i in b.tasks && j in b.tasks
  {
    b.tasks[i].priority > b.tasks[j].priority || (b.tasks[i].priority == b.tasks[j].priority && i < j)
  }

  ghost predicate FirstAvailable(b: Book, i: nat, now: int) {
    && Available(b, i, now)
    && (forall j :: j in b.tasks && j != i && Available(b, j, now) ==> Before(b, i, j))
  }

  // ----- effects -----

  function WithStatus(b: Book, i: nat, status: TaskStatus): Book
    requires i in b.tasks
  {
    b.(tasks := b.tasks[i := b.tasks[i].(status := status)])
  }

  predicate Overdue(b: Book, i: nat, now: int) {
    i in b.leases && b.leases[i].expiresAt < now
  }

  /** Overdue leases are dropped and their tasks return to the queue. */
  function ExpiredBook(b: Book, now: int): Book {
    Book(map i | i in b.tasks :: if Overdue(b, i, now) then b.tasks[i].(status := Pending) else b.tasks[i],
         map i | i in b.leases && !Overdue(b, i, now) :: b.leases[i])
  }

  function ClaimedBook(b: Book, i: nat, agent: string, expiresAt: int): Book
    requires i in b.tasks
  {
    WithStatus(b, i, InProgress).(leases := b.leases[i := TaskLease(agent, expiresAt)])
  }

  function SettledBook(b: Book, i: nat, status: TaskStatus): Book
    requires i in b.tasks
  {
    WithStatus(b, i, status).(leases := b.leases - {i})
  }

  predicate Exist(b: Book, deps: seq<nat>) {
    forall d :: d in deps ==> d in b.tasks
  }

  /** Column changes of an update; `None` leaves a column alone. */
  datatype Change = Change(status: Option<TaskStatus>, deps: Option<seq<nat>>, priority: Option<int>)

  function Changed(t: Task, c: Change): Task {
    Task(if c.status.Some? then c.status.value else t.status,
         if c.priority.Some? then c.priority.value else t.priority,
         if c.deps.Some? then Normalized(c.deps.value) else t.deps)
  }

  predicate CanUpdate(b: Book, i: nat, c: Change) {
    i in b.tasks && (c.deps.Some? ==> i !in c.deps.value && Exist(b, c.deps.value))
  }

  function UpdatedBook(b: Book, i: nat, c: Change): Book
    requires i in b.tasks
  {
    Book(b.tasks[i := Changed(b.tasks[i], c)],
         if c.status.Some? && c.status.value != InProgress then b.leases - {i} else b.leases)
  }

  function DeletedBook(b: Book, i: nat): Book {
    Book(map k | k in b.tasks && k != i :: b.tasks[k].(deps := Without(b.tasks[k].deps, i)), b.leases - {i})
  }

  /** The database assigns keys above every existing one. */
  predicate FreshKey(b: Book, i: nat) {
    forall k :: k in b.tasks ==> k < i
  }

  datatype TaskEvent =
    | CheckoutAny(agent: string, now: int, expiresAt: int)
    | CheckoutOne(agent: string, task: nat, now: int, expiresAt: int)
    | Heartbeat(agent: string, task: nat, now: int, expiresAt: int)
    | Complete(agent: string, task: nat, now: int)
    | Abandon(agent: string, task: nat, now: int)
    | CreateTask(task: nat, deps: seq<nat>, priority: int)
    | UpdateTask(task: nat, change: Change)
    | DeleteTask(task: nat)

  ghost function CheckedOutAny(b: Book, agent: string, now: int, expiresAt: int): Book {
    if i: nat :| FirstAvailable(b, i, now) then ClaimedBook(b, i, agent, expiresAt) else b
  }

  function CheckedOutOne(b: Book, agent: string, i: nat, now: int, expiresAt: int): Book {
    if Available(b, i, now) then ClaimedBook(b, i, agent, expiresAt) else b
  }

  ghost function Step(b: Book, e: TaskEvent): Book {
    match e
    case CheckoutAny(agent, now, expiresAt) => CheckedOutAny(ExpiredBook(b, now), agent, now, expiresAt)
    case CheckoutOne(agent, i, now, expiresAt) => CheckedOutOne(ExpiredBook(b, now), agent, i, now, expiresAt)
    case Heartbeat(agent, i, now, expiresAt) =>
      if CanHeartbeat(b, agent, i, now) then b.(leases := b.leases[i := TaskLease(agent, expiresAt)]) else b
    case Complete(agent, i, now) =>
      if CanSettle(b, agent, i, now) && i in b.tasks then SettledBook(b, i, Completed) else b
    case Abandon(agent, i, now) =>
      if CanSettle(b, agent, i, now) && i in b.tasks then SettledBook(b, i, Pending) else b
    case CreateTask(i, deps, priority) =>
      if FreshKey(b, i) && Exist(b, deps)
      then b.(tasks := b.tasks[i := Task(Pending, priority, Normalized(deps))]) else b
    case UpdateTask(i, change) => if CanUpdate(b, i, change) then UpdatedBook(b, i, change) else b
    case DeleteTask(i) => DeletedBook(b, i)
  }

  // ----- the invariant -----

  /** One task: dependencies are tidy, exist, and do not include the task itself. */
  predicate TaskOk(b: Book, i: nat)
    requires i in b.tasks
  {
    Ascending(b.tasks[i].deps) && Exist(b, b.tasks[i].deps) && i !in b.tasks[i].deps
  }

  /** A lease always belongs to a task in progress. */
  predicate LeaseOk(b: Book, i: nat) {
    i in b.tasks && b.tasks[i].status == InProgress
  }

  ghost predicate BookOk(b: Book) {
    && (forall i :: i in b.tasks ==> TaskOk(b, i))
    && (forall i :: i in b.leases ==> LeaseOk(b, i))
  }

  lemma SameTasksOk(b: Book, z: Book)
    requires BookOk(b) && z.tasks.Keys == b.tasks.Keys
    requires forall i :: i in b.tasks ==> z.tasks[i].deps == b.tasks[i].deps
    requires forall i :: i in z.leases ==> LeaseOk(z, i)
    ensures BookOk(z)
  {
    forall i | i in z.tasks
      ensures TaskOk(z, i)
    {
      assert TaskOk(b, i);
    }
  }

  lemma ExpiryKeepsOk(b: Book, now: int)
    requires BookOk(b)
    ensures BookOk(ExpiredBook(b, now))
  {
    var z := ExpiredBook(b, now);
    forall i | i in z.leases
      ensures LeaseOk(z, i)
    {
      assert LeaseOk(b, i);
    }
    SameTasksOk(b, z);
  }

  lemma ClaimKeepsOk(b: Book, i: nat, agent: string, expiresAt: int)
    requires BookOk(b) && i in b.tasks
    ensures BookOk(ClaimedBook(b, i, agent, expiresAt))
  {
    var z := ClaimedBook(b, i, agent, expiresAt);
    forall k | k in z.leases
      ensures LeaseOk(z, k)
    {
      assert k != i ==> LeaseOk(b, k);
    }
    SameTasksOk(b, z);
  }

  lemma SettleKeepsOk(b: Book, i: nat, status: TaskStatus)
    requires BookOk(b) && i in b.tasks
    ensures BookOk(SettledBook(b, i, status))
  {
    var z := SettledBook(b, i, status);
    forall k | k in z.leases
      ensures LeaseOk(z, k)
    {
      assert LeaseOk(b, k);
    }
    SameTasksOk(b, z);
  }

  lemma CreateKeepsOk(b: Book, i: nat, deps: seq<nat>, priority: int)
    requires BookOk(b) && FreshKey(b, i) && Exist(b, deps)
    ensures BookOk(b.(tasks := b.tasks[i := Task(Pending, priority, Normalized(deps))]))
  {
    var z := b.(tasks := b.tasks[i := Task(Pending, priority, Normalized(deps))]);
    forall k | k in z.tasks
      ensures TaskOk(z, k)
    {
      assert k in b.tasks ==> TaskOk(b, k);
    }
    forall k | k in z.leases
      ensures LeaseOk(z, k)
    {
      assert LeaseOk(b, k);
    }
  }

  lemma UpdateKeepsOk(b: Book, i: nat, c: Change)
    requires BookOk(b) && CanUpdate(b, i, c)
    ensures BookOk(UpdatedBook(b, i, c))
  {
    var z := UpdatedBook(b, i, c);
    forall k | k in z.tasks
      ensures TaskOk(z, k)
    {
      assert TaskOk(b, k);
    }
    forall k | k in z.leases
      ensures LeaseOk(z, k)
    {
      assert LeaseOk(b, k);
    }
  }

  lemma DeleteKeepsOk(b: Book, i: nat)
    requires BookOk(b)
    ensures BookOk(DeletedBook(b, i))
  {
    var z := DeletedBook(b, i);
    forall k | k in z.tasks
      ensures TaskOk(z, k)
    {
      assert TaskOk(b, k);
    }
    forall k | k in z.leases
      ensures LeaseOk(z, k)
    {
      assert LeaseOk(b, k);
    }
  }

  lemma HeartbeatKeepsOk(b: Book, agent: string, i: nat, now: int, expiresAt: int)
    requires BookOk(b) && CanHeartbeat(b, agent, i, now)
    ensures BookOk(b.(leases := b.leases[i := TaskLease(agent, expiresAt)]))
  {
    var z := b.(leases := b.leases[i := TaskLease(agent, expiresAt)]);
    forall k | k in z.leases
      ensures LeaseOk(z, k)
    {
      assert k in b.leases && LeaseOk(b, k);
    }
    SameTasksOk(b, z);
  }

  /** Every operation keeps the invariant. */
  lemma StepKeepsOk(b: Book, e: TaskEvent)
    requires BookOk(b)
    ensures BookOk(Step(b, e))
  {
    match e {
      case CheckoutAny(agent, now, expiresAt) =>
        ExpiryKeepsOk(b, now);
        forall i: nat | FirstAvailable(ExpiredBook(b, now), i, now)
          ensures BookOk(ClaimedBook(ExpiredBook(b, now), i, agent, expiresAt))
        {
          ClaimKeepsOk(ExpiredBook(b, now), i, agent, expiresAt);
        }
      case CheckoutOne(agent, i, now, expiresAt) =>
        ExpiryKeepsOk(b, now);
        if Available(ExpiredBook(b, now), i, now) {
          ClaimKeepsOk(ExpiredBook(b, now), i, agent, expiresAt);
        }
      case Heartbeat(agent, i, now, expiresAt) =>
        if CanHeartbeat(b, agent, i, now) {
          HeartbeatKeepsOk(b, agent, i, now, expiresAt);
        }
      case Complete(agent, i, now) =>
        if i in b.tasks {
          SettleKeepsOk(b, i, Completed);
        }
      case Abandon(agent, i, now) =>
        if i in b.tasks {
          SettleKeepsOk(b, i, Pending);
        }
      case CreateTask(i, deps, priority) =>
        if FreshKey(b, i) && Exist(b, deps) {
          CreateKeepsOk(b, i, deps, priority);
        }
      case UpdateTask(i, change) =>
        if CanUpdate(b, i, change) {
          UpdateKeepsOk(b, i, change);
        }
      case DeleteTask(i) => DeleteKeepsOk(b, i);
    }
  }
}
