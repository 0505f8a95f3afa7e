/**
 Draining the task queue: rounds of checking a task out and completing it finish everything
 exactly if the pending tasks are not tied into a knot.
 */
module Draining {
  import opened Options
  import opened Tasks
  import opened TaskTheorems

  function PendingTasks(b: Book): set<nat> {
    set i | i in b.tasks && b.tasks[i].status == Pending
  }

  /** Dependencies point to older tasks only. */
  predicate Layered(b: Book) {
    forall i, d :: i in b.tasks && d in b.tasks[i].deps ==> d < i
  }

  /** An update that gives a task other dependencies. */
  predicate Rewires(e: TaskEvent) {
    e.UpdateTask? && e.change.deps.Some?
  }

  /** Creating tasks, without re-wiring existing ones, keeps the layering. */
  lemma CreateKeepsLayered(b: Book, e: TaskEvent)
    requires Layered(b) && !Rewires(e)
    ensures Layered(Step(b, e))
  {
  }

  /** Pending tasks wait only for pending tasks of lower rank: there is no cycle among them. */
  ghost predicate Ranked(b: Book, rank: nat -> nat) {
    forall i, d :: i in PendingTasks(b) && d in b.tasks[i].deps && d in PendingTasks(b) ==> rank(d) < rank(i)
  }

  lemma LayeredIsRanked(b: Book)
    requires Layered(b)
    ensures Ranked(b, i => i)
  {
  }

  /** Nobody is working on anything. */
  predicate Quiet(b: Book) {
    b.leases == map[] && forall i :: i in b.tasks ==> b.tasks[i].status != InProgress
  }

  lemma {:induction false} Lowest(s: set<nat>, rank: nat -> nat) returns (m: nat)
    requires s != {}
    ensures m in s && forall x :: x in s ==> rank(m) <= rank(x)
    decreases |s|
  {
    var x :| x in s;
    if s == {x} {
      m := x;
    } else {
      assert s == {x} + (s - {x}) && s - {x} != {};
      var k := Lowest(s - {x}, rank);
      m := if rank(k) < rank(x) then k else x;
    }
  }

  lemma {:induction false} FirstAmong(b: Book, s: set<nat>) returns (m: nat)
    requires s != {} && forall x :: x in s ==> x in b.tasks
    ensures m in s && forall x :: x in s && x != m ==> Before(b, m, x)
    decreases |s|
  {
    var x :| x in s;
    if s == {x} {
      m := x;
    } else {
      assert s == {x} + (s - {x}) && s - {x} != {};
      var k := FirstAmong(b, s - {x});
      m := if Before(b, x, k) then x else k;
      forall y | y in s && y != m
        ensures Before(b, m, y)
      {
        assert y == x || y == k || Before(b, k, y);
      }
    }
  }

  /** With pending work free of cycles and nothing in progress, some task is available. */
  lemma SomeTaskIsAvailable(b: Book, rank: nat -> nat, now: int) returns (i: nat)
    requires BookOk(b) && Ranked(b, rank) && Quiet(b) && PendingTasks(b) != {}
    ensures FirstAvailable(b, i, now)
  {
    var m := Lowest(PendingTasks(b), rank);
    assert Available(b, m, now) by {
      forall d | d in b.tasks[m].deps && d in b.tasks
        ensures b.tasks[d].status == Completed
      {
        assert d !in PendingTasks(b);
      }
    }
    var open := set j | j in b.tasks && Available(b, j, now);
    assert m in open;
    i := FirstAmong(b, open);
  }

  /** Who works in each round, and when. */
  datatype Shift = Shift(agent: string, now: int, expiresAt: int, later: int)

  /** The checkout of this shift hands out task `i`: after overdue leases are dropped, it is
      the first available one. */
  ghost predicate HandsOut(b: Book, i: nat, s: Shift) {
    FirstAvailable(ExpiredBook(b, s.now), i, s.now)
  }

  /** The book once task `i` has been handed out in this shift and completed. */
  function AfterRound(b: Book, i: nat, s: Shift): Book {
    var e := ExpiredBook(b, s.now);
    if i in e.tasks then SettledBook(ClaimedBook(e, i, s.agent, s.expiresAt), i, Completed) else e
  }

  /** What a round really is: the checkout leaves the lease of the task with the shift's
      agent, and the completion by that agent is accepted. */
  lemma RoundIsReal(b: Book, i: nat, s: Shift)
    requires HandsOut(b, i, s)
    ensures var c := Step(b, CheckoutAny(s.agent, s.now, s.expiresAt));
            && i in c.leases && c.leases[i] == TaskLease(s.agent, s.expiresAt)
            && i in c.tasks && c.tasks[i].status == InProgress
            && Step(c, Complete(s.agent, i, s.later)) == AfterRound(b, i, s)
  {
    CheckoutPicksFirst(ExpiredBook(b, s.now), i, s.agent, s.now, s.expiresAt);
  }

  /** What one round does to a quiet book. */
  lemma RoundCompletes(b: Book, i: nat, s: Shift)
    requires Quiet(b) && (FirstAvailable(b, i, s.now) || HandsOut(b, i, s))
    ensures HandsOut(b, i, s) && i in b.tasks && DependenciesCompleted(b, i) && i in PendingTasks(b)
    ensures AfterRound(b, i, s) == WithStatus(b, i, Completed) && Quiet(WithStatus(b, i, Completed))
  {
    assert ExpiredBook(b, s.now) == b;
    var z := AfterRound(b, i, s);
    assert z.tasks == WithStatus(b, i, Completed).tasks && z.leases == map[];
  }

  /** One checkout and the completion of what it handed out. */
  lemma DrainRound(b: Book, rank: nat -> nat, s: Shift) returns (i: nat)
    requires BookOk(b) && Ranked(b, rank) && Quiet(b) && PendingTasks(b) != {}
    ensures HandsOut(b, i, s) && i in PendingTasks(b) && DependenciesCompleted(b, i)
    ensures var z := WithStatus(b, i, Completed);
            && AfterRound(b, i, s) == z
            && BookOk(z) && Ranked(z, rank) && Quiet(z) && PendingTasks(z) == PendingTasks(b) - {i}
  {
    i := SomeTaskIsAvailable(b, rank, s.now);
    RoundCompletes(b, i, s);
    CompletionKeepsRanked(b, rank, i);
  }

  lemma CompletionKeepsRanked(b: Book, rank: nat -> nat, i: nat)
    requires BookOk(b) && Ranked(b, rank) && Quiet(b) && i in PendingTasks(b)
    ensures var z := WithStatus(b, i, Completed);
            BookOk(z) && Ranked(z, rank) && PendingTasks(z) == PendingTasks(b) - {i}
  {
    SameTasksOk(b, WithStatus(b, i, Completed));
  }

  /** The events of checking out and completing the given tasks one after the other. */
  function Rounds(order: seq<nat>, shifts: nat -> Shift, k: nat): seq<TaskEvent> {
    if order == [] then []
    else [CheckoutAny(shifts(k).agent, shifts(k).now, shifts(k).expiresAt),
          Complete(shifts(k).agent, order[0], shifts(k).later)]
         + Rounds(order[1..], shifts, k + 1)
  }

  /** Every dependency was completed before, or comes earlier in the order. */
  ghost predicate Topological(b: Book, order: seq<nat>) {
    forall k :: 0 <= k < |order| ==>
      order[k] in b.tasks
      && forall d :: d in b.tasks[order[k]].deps && d in b.tasks ==> b.tasks[d].status == Completed || d in order[..k]
  }

  lemma TopologicalExtends(b: Book, i: nat, rest: seq<nat>)
    requires i in b.tasks && DependenciesCompleted(b, i) && Topological(WithStatus(b, i, Completed), rest)
    ensures Topological(b, [i] + rest)
  {
    var order := [i] + rest;
    var z := WithStatus(b, i, Completed);
    forall k | 0 <= k < |order|
      ensures order[k] in b.tasks
      ensures forall d :: d in b.tasks[order[k]].deps && d in b.tasks ==>
                b.tasks[d].status == Completed || d in order[..k]
    {
      if k > 0 {
        assert order[k] == rest[k - 1] && order[..k] == [i] + rest[..k - 1];
        assert z.tasks[rest[k - 1]].deps == b.tasks[rest[k - 1]].deps;
      }
    }
  }

  lemma HeadTail(xs: seq<nat>)
    requires xs != []
    ensures xs == [xs[0]] + xs[1..]
  {
  }

  lemma RunTwo(b: Book, e: TaskEvent, f: TaskEvent, es: seq<TaskEvent>)
    ensures Run(b, [e, f] + es) == Run(Step(Step(b, e), f), es)
  {
    var all := [e, f] + es;
    assert all[1..] == [f] + es && ([f] + es)[1..] == es;
  }

  /** In every round checkout hands out the next task of the order, to the agent of that
      round, who then completes it. */
  ghost predicate HandedOut(b: Book, order: seq<nat>, shifts: nat -> Shift, k: nat)
    decreases |order|
  {
    order == [] ||
    (HandsOut(b, order[0], shifts(k)) && HandedOut(AfterRound(b, order[0], shifts(k)), order[1..], shifts, k + 1))
  }

  ghost predicate AllCompleted(b: Book) {
    forall i :: i in b.tasks ==> b.tasks[i].status == Completed
  }

  /** The rounds complete only what they were handed, and leave nothing unfinished. */
  ghost predicate Drains(b: Book, order: seq<nat>, shifts: nat -> Shift, k: nat) {
    HandedOut(b, order, shifts, k) && AllCompleted(Run(b, Rounds(order, shifts, k)))
  }

  /** The book after `n` rounds. */
  ghost function AfterRounds(b: Book, order: seq<nat>, shifts: nat -> Shift, k: nat, n: nat): Book
    requires n <= |order|
  {
    Run(b, Rounds(order[..n], shifts, k))
  }

  lemma RunRounds(b: Book, i: nat, rest: seq<nat>, shifts: nat -> Shift, k: nat)
    requires HandsOut(b, i, shifts(k))
    ensures Run(b, Rounds([i] + rest, shifts, k)) == Run(AfterRound(b, i, shifts(k)), Rounds(rest, shifts, k + 1))
  {
    var s := shifts(k);
    assert ([i] + rest)[1..] == rest;
    RoundIsReal(b, i, s);
    RunTwo(b, CheckoutAny(s.agent, s.now, s.expiresAt), Complete(s.agent, i, s.later), Rounds(rest, shifts, k + 1));
  }

  lemma RoundsUnroll(b: Book, order: seq<nat>, shifts: nat -> Shift, k: nat, n: nat)
    requires 0 < n <= |order| && HandsOut(b, order[0], shifts(k))
    ensures AfterRounds(b, order, shifts, k, n)
            == AfterRounds(AfterRound(b, order[0], shifts(k)), order[1..], shifts, k + 1, n - 1)
  {
    assert order[..n] == [order[0]] + order[1..][..n - 1];
    RunRounds(b, order[0], order[1..][..n - 1], shifts, k);
  }

  /** Round by round: in the book `z` after the first `n` rounds, the checkout of the next
      shift hands out the next task of the order. */
  lemma {:induction false} EachRoundHandsOut(b: Book, order: seq<nat>, shifts: nat -> Shift, k: nat, n: nat)
    returns (z: Book, s: Shift, i: nat)
    requires HandedOut(b, order, shifts, k) && n < |order|
    ensures z == AfterRounds(b, order, shifts, k, n) && s == shifts(k + n) && i == order[n]
    ensures HandsOut(z, i, s)
    decreases n
  {
    if n == 0 {
      z, s, i := b, shifts(k), order[0];
      assert Rounds(order[..n], shifts, k) == [];
    } else {
      RoundsUnroll(b, order, shifts, k, n);
      z, s, i := EachRoundHandsOut(AfterRound(b, order[0], shifts(k)), order[1..], shifts, k + 1, n - 1);
    }
  }

  lemma {:induction false} DrainFrom(b: Book, rank: nat -> nat, shifts: nat -> Shift, k: nat) returns (order: seq<nat>)
    requires BookOk(b) && Ranked(b, rank) && Quiet(b)
    ensures Drains(b, order, shifts, k)
    ensures |order| == |PendingTasks(b)| && Topological(b, order)
    ensures forall i :: i in order ==> i in PendingTasks(b)
    ensures var z := Run(b, Rounds(order, shifts, k)); z.tasks.Keys == b.tasks.Keys && Quiet(z)
    decreases |PendingTasks(b)|
  {
    if PendingTasks(b) == {} {
      order := [];
      assert forall i :: i in b.tasks ==> i !in PendingTasks(b);
    } else {
      var s := shifts(k);
      var i := DrainRound(b, rank, s);
      var z := WithStatus(b, i, Completed);
      var rest := DrainFrom(z, rank, shifts, k + 1);
      order := [i] + rest;
      TopologicalExtends(b, i, rest);
      assert order[1..] == rest;
      RunRounds(b, i, rest, shifts, k);
    }
  }

  /** Round `n`: in the book after the rounds before it, checkout hands out the next task of
      the order, and the lease goes to the agent of the shift. */
  ghost predicate RoundAt(b: Book, order: seq<nat>, shifts: nat -> Shift, n: nat)
    requires n < |order|
  {
    var a, s := AfterRounds(b, order, shifts, 0, n), shifts(n);
    var c := Step(a, CheckoutAny(s.agent, s.now, s.expiresAt));
    && FirstAvailable(ExpiredBook(a, s.now), order[n], s.now)
    && order[n] in c.leases && c.leases[order[n]] == TaskLease(s.agent, s.expiresAt)
  }

  lemma RoundByRound(b: Book, order: seq<nat>, shifts: nat -> Shift, n: nat)
    requires HandedOut(b, order, shifts, 0) && n < |order|
    ensures RoundAt(b, order, shifts, n)
  {
    var z, s, i := EachRoundHandsOut(b, order, shifts, 0, n);
    RoundIsReal(z, i, s);
  }

  /** If pending tasks do not wait for each other in a cycle, as many rounds as there are
      pending tasks drain the queue, in an order that respects every dependency, whoever
      works and whenever: each checkout hands out the next task, and completing what was
      handed out leaves nothing unfinished. */
  lemma QueueDrains(b: Book, rank: nat -> nat, shifts: nat -> Shift) returns (order: seq<nat>)
    requires BookOk(b) && Ranked(b, rank) && Quiet(b)
    ensures forall n: nat :: n < |order| ==> RoundAt(b, order, shifts, n)
    ensures Drains(b, order, shifts, 0)
    ensures |order| == |PendingTasks(b)| && Topological(b, order)
    ensures forall i :: i in order ==> i in PendingTasks(b)
    ensures var z := Run(b, Rounds(order, shifts, 0)); z.tasks.Keys == b.tasks.Keys && Quiet(z) && AllCompleted(z)
  {
    order := DrainFrom(b, rank, shifts, 0);
    forall n: nat | n < |order|
      ensures RoundAt(b, order, shifts, n)
    {
      RoundByRound(b, order, shifts, n);
    }
  }

  // ----- the condition is exact -----

  ghost predicate Covering(b: Book, order: seq<nat>) {
    forall i :: i in PendingTasks(b) ==> i in order
  }

  function Position(order: seq<nat>, i: nat): nat {
    if order == [] || order[0] == i then 0 else 1 + Position(order[1..], i)
  }

  function Positions(order: seq<nat>): nat -> nat {
    i => Position(order, i)
  }

  lemma {:induction false} PositionIsFirst(order: seq<nat>, i: nat, k: nat)
    requires k < |order| && order[k] == i
    ensures Position(order, i) <= k && order[Position(order, i)] == i
  {
    if order[0] != i {
      PositionIsFirst(order[1..], i, k - 1);
    }
  }

  /** The positions in a complete order that respects dependencies are ranks. */
  lemma OrderIsRanking(b: Book, order: seq<nat>)
    requires Topological(b, order) && Covering(b, order)
    ensures Ranked(b, Positions(order))
  {
    forall i, d | i in PendingTasks(b) && d in b.tasks[i].deps && d in PendingTasks(b)
      ensures Position(order, d) < Position(order, i)
    {
      var k :| 0 <= k < |order| && order[k] == i;
      PositionIsFirst(order, i, k);
      var at := Position(order, i);
      assert d in order[..at];
      var j :| 0 <= j < at && order[..at][j] == d;
      PositionIsFirst(order, d, j);
    }
  }

  /** Tasks are handed out in dependency order. */
  lemma {:induction false} HandedInOrder(b: Book, order: seq<nat>, shifts: nat -> Shift, k: nat)
    requires Quiet(b) && HandedOut(b, order, shifts, k)
    ensures Topological(b, order)
    decreases |order|
  {
    if order != [] {
      var i, rest := order[0], order[1..];
      RoundCompletes(b, i, shifts(k));
      HandedInOrder(WithStatus(b, i, Completed), rest, shifts, k + 1);
      TopologicalExtends(b, i, rest);
      HeadTail(order);
    }
  }

  ghost predicate Spared(b: Book, z: Book, order: seq<nat>) {
    forall i :: i in b.tasks && i !in order ==> i in z.tasks && z.tasks[i] == b.tasks[i]
  }

  lemma SparedToo(b: Book, z: Book, i: nat, rest: seq<nat>)
    requires i in b.tasks && Spared(WithStatus(b, i, Completed), z, rest)
    ensures Spared(b, z, [i] + rest)
  {
    forall j | j in b.tasks && j !in [i] + rest
      ensures j in z.tasks && z.tasks[j] == b.tasks[j]
    {
      assert j != i && j !in rest;
    }
  }

  /** Rounds change only the tasks they were handed. */
  lemma {:induction false} OthersAreSpared(b: Book, order: seq<nat>, shifts: nat -> Shift, k: nat)
    requires Quiet(b) && HandedOut(b, order, shifts, k)
    ensures Spared(b, Run(b, Rounds(order, shifts, k)), order)
    decreases |order|
  {
    if order != [] {
      var i, rest := order[0], order[1..];
      RoundCompletes(b, i, shifts(k));
      var z := Run(WithStatus(b, i, Completed), Rounds(rest, shifts, k + 1));
      OthersAreSpared(WithStatus(b, i, Completed), rest, shifts, k + 1);
      SparedToo(b, z, i, rest);
      HeadTail(order);
      RunRounds(b, i, rest, shifts, k);
    }
  }

  /** Rounds that complete only what they were handed finish everything only if no pending
      tasks wait for each other in a cycle. */
  lemma DrainedMeansRanked(b: Book, order: seq<nat>, shifts: nat -> Shift, k: nat)
    requires Quiet(b) && Drains(b, order, shifts, k)
    ensures Ranked(b, Positions(order))
  {
    HandedInOrder(b, order, shifts, k);
    OthersAreSpared(b, order, shifts, k);
    var z := Run(b, Rounds(order, shifts, k));
    forall i | i in b.tasks && i !in order
      ensures b.tasks[i].status == Completed
    {
      assert i in z.tasks;
    }
    OrderIsRanking(b, order);
  }

  // ----- knots -----

  /** Task `i` is pending and waits for another task of the knot. */
  predicate Waiting(b: Book, waits: map<nat, nat>, i: nat)
    requires i in waits
  {
    i in b.tasks && b.tasks[i].status == Pending && waits[i] in waits && waits[i] in b.tasks[i].deps
  }

  /** A set of pending tasks, each of which waits for one of the set. */
  ghost predicate Knot(b: Book, waits: map<nat, nat>) {
    waits != map[] && forall i :: i in waits ==> Waiting(b, waits, i)
  }

  /** What can untie a knot: completing or deleting a member, or giving one another status
      or other dependencies. */
  predicate Unties(e: TaskEvent, waits: map<nat, nat>) {
    || ((e.Complete? || e.DeleteTask?) && e.task in waits)
    || (e.UpdateTask? && e.task in waits
        && (e.change.deps.Some? || (e.change.status.Some? && e.change.status.value != Pending)))
  }

  lemma KnotIsUnavailable(b: Book, waits: map<nat, nat>, i: nat, now: int)
    requires Knot(b, waits) && i in waits
    ensures !Available(b, i, now) && !Available(ExpiredBook(b, now), i, now)
  {
    assert Waiting(b, waits, i) && Waiting(b, waits, waits[i]);
    var z := ExpiredBook(b, now);
    assert z.tasks[waits[i]].status == Pending && waits[i] in z.tasks[i].deps;
  }

  /** What an event does to a member of the knot: nothing that matters. */
  lemma MemberStays(b: Book, e: TaskEvent, waits: map<nat, nat>, i: nat)
    requires i in waits && Waiting(b, waits, i) && !Unties(e, waits)
    requires e.CheckoutAny? || e.CheckoutOne? ==> !Available(ExpiredBook(b, e.now), i, e.now)
    ensures Waiting(Step(b, e), waits, i)
  {
  }

  lemma KnotStaysStep(b: Book, e: TaskEvent, waits: map<nat, nat>)
    requires Knot(b, waits) && !Unties(e, waits)
    ensures Knot(Step(b, e), waits)
  {
    forall i | i in waits
      ensures Waiting(Step(b, e), waits, i)
    {
      if e.CheckoutAny? || e.CheckoutOne? {
        KnotIsUnavailable(b, waits, i, e.now);
      }
      MemberStays(b, e, waits, i);
    }
  }

  /** A knot is never handed out: through any run that does not untie it by hand, its tasks
      stay pending and unavailable, at any time. */
  lemma {:induction false} KnotStays(b: Book, es: seq<TaskEvent>, waits: map<nat, nat>)
    requires Knot(b, waits) && forall k :: 0 <= k < |es| ==> !Unties(es[k], waits)
    ensures Knot(Run(b, es), waits)
    ensures forall i, now :: i in waits ==> !Available(ExpiredBook(Run(b, es), now), i, now)
    decreases |es|
  {
    if es != [] {
      KnotStaysStep(b, es[0], waits);
      KnotStays(Step(b, es[0]), es[1..], waits);
    } else {
      forall i, now | i in waits
        ensures !Available(ExpiredBook(b, now), i, now)
      {
        KnotIsUnavailable(b, waits, i, now);
      }
    }
  }

  lemma NotBoth(b: Book, rank: nat -> nat, waits: map<nat, nat>)
    requires Knot(b, waits)
    ensures !Ranked(b, rank)
  {
    var m := Lowest(waits.Keys, rank);
    assert Waiting(b, waits, m) && Waiting(b, waits, waits[m]);
    assert m in PendingTasks(b) && waits[m] in PendingTasks(b);
  }

  /** Some pending task waits for no pending task. */
  ghost predicate Loose(b: Book, i: nat) {
    i in PendingTasks(b) && forall d :: d in b.tasks[i].deps ==> d !in PendingTasks(b)
  }

  /** A pending task that task `i` waits for. */
  ghost function WaitsFor(b: Book, i: nat): (d: nat)
    requires i in PendingTasks(b) && !Loose(b, i)
    ensures d in PendingTasks(b) && d in b.tasks[i].deps
  {
    var d :| d in b.tasks[i].deps && d in PendingTasks(b);
    d
  }

  lemma AllTied(b: Book) returns (waits: map<nat, nat>)
    requires PendingTasks(b) != {} && forall i: nat :: !Loose(b, i)
    ensures Knot(b, waits)
  {
    var s := PendingTasks(b);
    waits := map i | i in s :: WaitsFor(b, i);
    assert waits.Keys == s;
    assert forall i :: i in waits ==> waits[i] == WaitsFor(b, i);
  }

  /** Task `i` below all others. */
  function Raised(rank: nat -> nat, i: nat): nat -> nat {
    x => if x == i then 0 else rank(x) + 1
  }

  lemma RankBelow(b: Book, i: nat, rank: nat -> nat)
    requires Loose(b, i) && Ranked(WithStatus(b, i, Completed), rank)
    ensures Ranked(b, Raised(rank, i))
  {
    var z := WithStatus(b, i, Completed);
    assert PendingTasks(z) == PendingTasks(b) - {i};
  }

  lemma KnotWasThere(b: Book, i: nat, waits: map<nat, nat>)
    requires i in b.tasks && Knot(WithStatus(b, i, Completed), waits)
    ensures Knot(b, waits)
  {
    var z := WithStatus(b, i, Completed);
    forall j | j in waits
      ensures Waiting(b, waits, j)
    {
      assert Waiting(z, waits, j);
    }
  }

  /** Without a knot the pending tasks can be ranked. */
  lemma {:induction false} RankedOrKnotted(b: Book) returns (rank: nat -> nat, waits: map<nat, nat>)
    ensures Ranked(b, rank) || Knot(b, waits)
    decreases |PendingTasks(b)|
  {
    rank, waits := x => x, map[];
    if i: nat :| Loose(b, i) {
      var z := WithStatus(b, i, Completed);
      assert PendingTasks(z) == PendingTasks(b) - {i};
      var below;
      below, waits := RankedOrKnotted(z);
      rank := Raised(below, i);
      if Ranked(z, below) {
        RankBelow(b, i, below);
      } else {
        KnotWasThere(b, i, waits);
      }
    } else if PendingTasks(b) != {} {
      waits := AllTied(b);
    }
  }

  /** The queue of a quiet book drains exactly if it contains no knot. */
  lemma DrainsIffNoKnot(b: Book, shifts: nat -> Shift)
    requires BookOk(b) && Quiet(b)
    ensures (exists order :: Drains(b, order, shifts, 0)) <==> !(exists waits :: Knot(b, waits))
  {
    if order :| Drains(b, order, shifts, 0) {
      DrainedMeansRanked(b, order, shifts, 0);
      forall waits | Knot(b, waits)
        ensures false
      {
        NotBoth(b, Positions(order), waits);
      }
    }
    if forall waits :: !Knot(b, waits) {
      var rank, waits := RankedOrKnotted(b);
      var order := QueueDrains(b, rank, shifts);
    }
  }

  // ----- where knots come from -----

  lemma {:induction false} RunKeepsLayered(b: Book, es: seq<TaskEvent>)
    requires Layered(b) && forall k :: 0 <= k < |es| ==> !Rewires(es[k])
    ensures Layered(Run(b, es))
    decreases |es|
  {
    if es != [] {
      CreateKeepsLayered(b, es[0]);
      RunKeepsLayered(Step(b, es[0]), es[1..]);
    }
  }

  /** Tasks are created with dependencies on older tasks, so as long as no update re-wires
      them, whatever else happened, the queue drains once nobody is at work. */
  lemma UnwiredBooksDrain(es: seq<TaskEvent>, shifts: nat -> Shift) returns (order: seq<nat>)
    requires (forall k :: 0 <= k < |es| ==> !Rewires(es[k])) && Quiet(Run(EMPTY_BOOK, es))
    ensures Drains(Run(EMPTY_BOOK, es), order, shifts, 0)
  {
    var b := Run(EMPTY_BOOK, es);
    EveryRunKeepsOk(es);
    RunKeepsLayered(EMPTY_BOOK, es);
    LayeredIsRanked(b);
    order := QueueDrains(b, i => i, shifts);
  }

  const PAIR := Book(map[1 := Task(Pending, 0, []), 2 := Task(Pending, 0, [1])], map[])
  const KNOT := Book(map[1 := Task(Pending, 0, [2]), 2 := Task(Pending, 0, [1])], map[])

  lemma TwoCreated()
    ensures Step(Step(EMPTY_BOOK, CreateTask(1, [], 0)), CreateTask(2, [1], 0)) == PAIR
  {
    assert Normalized([1]) == [1];
  }

  lemma TiedUp()
    ensures Step(PAIR, UpdateTask(1, Change(None, Some([2]), None))) == KNOT
  {
    assert Normalized([2]) == [2];
  }

  const TYING := [CreateTask(1, [], 0), CreateTask(2, [1], 0), UpdateTask(1, Change(None, Some([2]), None))]

  lemma KnotIsReached()
    ensures Run(EMPTY_BOOK, TYING) == KNOT
  {
    TwoCreated();
    TiedUp();
    RunTwo(EMPTY_BOOK, TYING[0], TYING[1], [TYING[2]]);
    assert TYING == [TYING[0], TYING[1]] + [TYING[2]];
    assert Run(PAIR, [TYING[2]]) == KNOT;
  }

  const TIES: map<nat, nat> := map[1 := 2, 2 := 1]

  lemma KnotIsTied()
    ensures Knot(KNOT, TIES)
  {
    assert Waiting(KNOT, TIES, 1) && Waiting(KNOT, TIES, 2);
  }

  /** Updates can tie a knot; from then on, through every run that does not untie it by hand,
      both tasks stay pending and unavailable. */
  lemma UpdatesCanDeadlock(es: seq<TaskEvent>, i: nat, now: int)
    requires (forall k :: 0 <= k < |es| ==> !Unties(es[k], TIES)) && (i == 1 || i == 2)
    ensures var z := Run(Run(EMPTY_BOOK, TYING), es);
            i in PendingTasks(z) && !Available(ExpiredBook(z, now), i, now)
  {
    KnotIsReached();
    KnotIsTied();
    KnotStays(KNOT, es, TIES);
    assert Waiting(Run(KNOT, es), TIES, i);
  }
}
