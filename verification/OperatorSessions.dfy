/**
 Operator writes at statement granularity. A write reads the profile, counts reserved runs
 and only then issues its compare-and-set; any event of the plane and any other operator's
 statement may fall in between.
 */
module OperatorSessions {
  import opened Tables
  import opened Events
  import opened PlaneInvariant
  import opened PlaneTheorems
  import opened Revisions

  datatype Write = Replacement(draft: ProfileDraft) | QuotaReset(remaining: int, resetAt: int)

  /** Where an operator's write stands, with the profile row it read first. */
  datatype Session =
    | Idle
    | HasRead(worker: string, expected: int, write: Write, seen: Profile)
    | HasCounted(worker: string, expected: int, write: Write, seen: Profile)

  datatype World = World(plane: Plane, sessions: map<nat, Session>)

  datatype Action =
    | Background(event: Event)
    | ReadProfile(session: nat, worker: string, expected: int, write: Write)
    | CountReserved(session: nat)
    | CompareAndSet(session: nat)

  function SessionOf(world: World, id: nat): Session {
    if id in world.sessions then world.sessions[id] else Idle
  }

  /** Checks an operator write makes on the row it read, without looking again. */
  predicate LocalChecks(s: Session)
    requires s.HasCounted?
  {
    && ValidRevision(s.expected)
    && s.seen.revision == s.expected
    && match s.write
       case Replacement(d) => ValidDraft(d)
       case QuotaReset(remaining, resetAt) =>
         0 <= remaining <= MAX_ROUTING_INTEGER && ResetIsNewer(s.seen, resetAt) && remaining <= s.seen.capacity
  }

  /** The row filter of the update statement; reserved runs are not part of it. */
  predicate RowMatches(p: Plane, s: Session)
    requires s.HasCounted?
  {
    match s.write
    case Replacement(_) => ReplaceCas(p, s.worker, s.expected)
    case QuotaReset(remaining, _) => ResetCas(p, s.worker, s.expected, remaining)
  }

  function Written(p: Plane, s: Session): Plane
    requires s.HasCounted? && RowMatches(p, s)
  {
    match s.write
    case Replacement(d) => WithProfile(p, s.worker, Drafted(d, s.expected + 1))
    case QuotaReset(remaining, resetAt) =>
      WithProfile(p, s.worker, ResetProfile(p.profiles[s.worker], remaining, resetAt))
  }

  predicate Commits(world: World, id: nat) {
    var s := SessionOf(world, id);
    s.HasCounted? && LocalChecks(s) && RowMatches(world.plane, s)
  }

  ghost function Step(hash: Identity -> string, world: World, a: Action): World {
    match a
    case Background(e) => world.(plane := Apply(hash, world.plane, e))
    case ReadProfile(id, w, expected, write) =>
      world.(sessions := world.sessions[id :=
        if w in world.plane.profiles then HasRead(w, expected, write, world.plane.profiles[w]) else Idle])
    case CountReserved(id) =>
      var s := SessionOf(world, id);
      world.(sessions := world.sessions[id :=
        if s.HasRead? && NoneReserved(world.plane.runs, s.worker)
        then HasCounted(s.worker, s.expected, s.write, s.seen) else Idle])
    case CompareAndSet(id) =>
      World(if Commits(world, id) then Written(world.plane, SessionOf(world, id)) else world.plane,
            world.sessions[id := Idle])
  }

  /** The atomic event a committing write stands for. */
  function AtomicWrite(s: Session): Event
    requires s.HasCounted?
  {
    match s.write
    case Replacement(d) => ReplaceProfile(s.worker, s.expected, d)
    case QuotaReset(remaining, resetAt) => ResetQuota(s.worker, s.expected, remaining, resetAt)
  }

  // ----- what a session may still rely on -----

  /** The row read is the current one unless the revision has moved past it; in that case
      nothing was reserved since the count either. */
  ghost predicate SessionOk(p: Plane, s: Session) {
    s.Idle? ||
    ( && s.worker in p.profiles
      && s.seen.revision <= p.profiles[s.worker].revision
      && (s.seen.revision == p.profiles[s.worker].revision ==>
            && s.seen == p.profiles[s.worker]
            && (s.HasCounted? ==> NoneReserved(p.runs, s.worker))))
  }

  ghost predicate WorldOk(world: World) {
    && Inv(world.plane)
    && (forall id :: id in world.sessions ==> SessionOk(world.plane, world.sessions[id]))
  }

  lemma SessionSurvives(p: Plane, q: Plane, s: Session)
    requires SessionOk(p, s) && (!s.Idle? ==> RevisionMoves(p, q, s.worker))
    ensures SessionOk(q, s)
  {
  }

  lemma WriteIsAtomic(hash: Identity -> string, p: Plane, s: Session)
    requires s.HasCounted? && LocalChecks(s) && RowMatches(p, s)
    requires s.seen == p.profiles[s.worker] && NoneReserved(p.runs, s.worker)
    ensures Written(p, s) == Apply(hash, p, AtomicWrite(s)) && Written(p, s) != p
  {
    assert Written(p, s).profiles[s.worker].revision == s.expected + 1;
  }

  /** Whenever a compare-and-set commits, no run of that worker is reserved, although the
      count was taken earlier; so the write is exactly the atomic event. */
  lemma CommitFindsNoReservation(hash: Identity -> string, world: World, id: nat)
    requires WorldOk(world) && Commits(world, id)
    ensures var s := SessionOf(world, id);
            && NoneReserved(world.plane.runs, s.worker)
            && Written(world.plane, s) == Apply(hash, world.plane, AtomicWrite(s))
            && Written(world.plane, s) != world.plane
  {
    var s := SessionOf(world, id);
    assert SessionOk(world.plane, s);
    WriteIsAtomic(hash, world.plane, s);
  }

  /** The guard of the atomic write at the moment of the compare-and-set. */
  predicate Permitted(p: Plane, s: Session)
    requires s.HasCounted?
  {
    match s.write
    case Replacement(d) => CanReplaceProfile(p, s.worker, s.expected, d)
    case QuotaReset(remaining, resetAt) => CanResetQuota(p, s.worker, s.expected, remaining, resetAt)
  }

  /** A compare-and-set commits exactly if the atomic write would be permitted at that moment,
      provided the operator had read the revision it expected. */
  lemma CommitsIff(world: World, id: nat)
    requires WorldOk(world) && SessionOf(world, id).HasCounted?
    ensures var s := SessionOf(world, id);
            Commits(world, id) <==> s.seen.revision == s.expected && Permitted(world.plane, s)
  {
    assert SessionOk(world.plane, SessionOf(world, id));
  }

  /** The atomic events an interleaving of statements amounts to. */
  ghost function EventsOf(hash: Identity -> string, world: World, acts: seq<Action>): seq<Event>
    decreases |acts|
  {
    if acts == [] then []
    else StepEvents(world, acts[0]) + EventsOf(hash, Step(hash, world, acts[0]), acts[1..])
  }

  function StepEvents(world: World, a: Action): seq<Event> {
    if a.Background? then [a.event]
    else if a.CompareAndSet? && Commits(world, a.session) then [AtomicWrite(SessionOf(world, a.session))]
    else []
  }

  lemma StepIsAtomic(hash: Identity -> string, world: World, a: Action)
    requires WorldOk(world)
    ensures Step(hash, world, a).plane == Trace(hash, world.plane, StepEvents(world, a))
  {
    if a.Background? {
      assert Trace(hash, Apply(hash, world.plane, a.event), []) == Apply(hash, world.plane, a.event);
    } else if a.CompareAndSet? && Commits(world, a.session) {
      CommitFindsNoReservation(hash, world, a.session);
      var e := AtomicWrite(SessionOf(world, a.session));
      assert Trace(hash, Apply(hash, world.plane, e), []) == Apply(hash, world.plane, e);
    }
  }

  lemma StepKeepsWorldOk(hash: Identity -> string, world: World, a: Action)
    requires WorldOk(world)
    ensures WorldOk(Step(hash, world, a))
  {
    var after := Step(hash, world, a);
    StepIsAtomic(hash, world, a);
    TraceKeepsInv(hash, world.plane, StepEvents(world, a));
    forall id | id in after.sessions
      ensures SessionOk(after.plane, after.sessions[id])
    {
      var s := after.sessions[id];
      if id in world.sessions && s == world.sessions[id] && !s.Idle? {
        RevisionsNeverRepeat(hash, world.plane, StepEvents(world, a), s.worker);
        SessionSurvives(world.plane, after.plane, s);
      }
    }
  }

  ghost function Interleave(hash: Identity -> string, world: World, acts: seq<Action>): World
    decreases |acts|
  {
    if acts == [] then world else Interleave(hash, Step(hash, world, acts[0]), acts[1..])
  }

  lemma {:induction false} InterleavingKeepsWorldOk(hash: Identity -> string, world: World, acts: seq<Action>)
    requires WorldOk(world)
    ensures WorldOk(Interleave(hash, world, acts))
    decreases |acts|
  {
    if acts != [] {
      StepKeepsWorldOk(hash, world, acts[0]);
      InterleavingKeepsWorldOk(hash, Step(hash, world, acts[0]), acts[1..]);
    }
  }

  /** Statement-level interleavings of any number of operators refine the atomic plane: the
      same tables result from a run of atomic events. */
  lemma {:induction false} InterleavingRefinesAtomic(hash: Identity -> string, world: World, acts: seq<Action>)
    requires WorldOk(world)
    ensures Interleave(hash, world, acts).plane == Trace(hash, world.plane, EventsOf(hash, world, acts))
    decreases |acts|
  {
    if acts != [] {
      var next := Step(hash, world, acts[0]);
      StepKeepsWorldOk(hash, world, acts[0]);
      StepIsAtomic(hash, world, acts[0]);
      InterleavingRefinesAtomic(hash, next, acts[1..]);
      TraceAppends(hash, world.plane, StepEvents(world, acts[0]), EventsOf(hash, next, acts[1..]));
    }
  }

  /** From an empty plane, whatever has been interleaved so far, a write that commits now
      finds no reserved run of its worker. */
  lemma OptimisticWritesAreSound(hash: Identity -> string, acts: seq<Action>, id: nat)
    requires Commits(Interleave(hash, World(EMPTY_PLANE, map[]), acts), id)
    ensures var world := Interleave(hash, World(EMPTY_PLANE, map[]), acts);
            && Inv(world.plane)
            && NoneReserved(world.plane.runs, SessionOf(world, id).worker)
            && Step(hash, world, CompareAndSet(id)).plane == Apply(hash, world.plane, AtomicWrite(SessionOf(world, id)))
  {
    EmptyPlaneOk();
    InterleavingKeepsWorldOk(hash, World(EMPTY_PLANE, map[]), acts);
    CommitFindsNoReservation(hash, Interleave(hash, World(EMPTY_PLANE, map[]), acts), id);
  }

  // ----- an undisturbed write is not lost -----

  /** Everything but the statements of session `id`. */
  predicate Others(acts: seq<Action>, id: nat) {
    forall k :: 0 <= k < |acts| ==> acts[k].Background? || acts[k].session != id
  }

  lemma OtherStep(hash: Identity -> string, world: World, a: Action, id: nat)
    requires a.Background? || a.session != id
    ensures SessionOf(Step(hash, world, a), id) == SessionOf(world, id)
  {
  }

  lemma {:induction false} SessionWaits(hash: Identity -> string, world: World, acts: seq<Action>, id: nat)
    requires WorldOk(world) && Others(acts, id)
    ensures WorldOk(Interleave(hash, world, acts))
    ensures SessionOf(Interleave(hash, world, acts), id) == SessionOf(world, id)
    decreases |acts|
  {
    if acts != [] {
      var next := Step(hash, world, acts[0]);
      StepKeepsWorldOk(hash, world, acts[0]);
      OtherStep(hash, world, acts[0], id);
      assert Others(acts[1..], id);
      SessionWaits(hash, next, acts[1..], id);
    }
  }

  lemma ReadSets(hash: Identity -> string, world: World, id: nat, w: string, expected: int, write: Write)
    requires WorldOk(world) && w in world.plane.profiles
    ensures var next := Step(hash, world, ReadProfile(id, w, expected, write));
            WorldOk(next) && SessionOf(next, id) == HasRead(w, expected, write, world.plane.profiles[w])
  {
    StepKeepsWorldOk(hash, world, ReadProfile(id, w, expected, write));
  }

  lemma CountSets(hash: Identity -> string, world: World, id: nat, s: Session)
    requires WorldOk(world) && s.HasRead? && SessionOf(world, id) == s && NoneReserved(world.plane.runs, s.worker)
    ensures var next := Step(hash, world, CountReserved(id));
            WorldOk(next) && SessionOf(next, id) == HasCounted(s.worker, s.expected, s.write, s.seen)
  {
    StepKeepsWorldOk(hash, world, CountReserved(id));
  }

  lemma CommitWrites(hash: Identity -> string, world: World, id: nat, s: Session)
    requires WorldOk(world) && s.HasCounted? && SessionOf(world, id) == s
    requires s.seen.revision == s.expected && Permitted(world.plane, s)
    ensures var after := Step(hash, world, CompareAndSet(id)).plane;
            after == Apply(hash, world.plane, AtomicWrite(s)) && after != world.plane
  {
    CommitsIff(world, id);
    CommitFindsNoReservation(hash, world, id);
  }

  /** Read, count and compare-and-set, with anything by others in between: if the revision
      read is the expected one, nothing is reserved at the count and the atomic write is
      permitted at the end, then it takes place. */
  lemma PermittedWriteCommits(
    hash: Identity -> string, world: World, id: nat, w: string, expected: int, write: Write,
    early: seq<Action>, late: seq<Action>)
    requires WorldOk(world) && w in world.plane.profiles && world.plane.profiles[w].revision == expected
    requires Others(early, id) && Others(late, id)
    requires var counting := Interleave(hash, Step(hash, world, ReadProfile(id, w, expected, write)), early);
             var writing := Interleave(hash, Step(hash, counting, CountReserved(id)), late);
             && NoneReserved(counting.plane.runs, w)
             && Permitted(writing.plane, HasCounted(w, expected, write, world.plane.profiles[w]))
    ensures var counting := Interleave(hash, Step(hash, world, ReadProfile(id, w, expected, write)), early);
            var writing := Interleave(hash, Step(hash, counting, CountReserved(id)), late);
            var event := if write.Replacement? then ReplaceProfile(w, expected, write.draft)
                         else ResetQuota(w, expected, write.remaining, write.resetAt);
            var after := Step(hash, writing, CompareAndSet(id)).plane;
            after == Apply(hash, writing.plane, event) && after != writing.plane
  {
    var read := Step(hash, world, ReadProfile(id, w, expected, write));
    ReadSets(hash, world, id, w, expected, write);
    SessionWaits(hash, read, early, id);
    var counting := Interleave(hash, read, early);
    CountSets(hash, counting, id, HasRead(w, expected, write, world.plane.profiles[w]));
    var counted := Step(hash, counting, CountReserved(id));
    SessionWaits(hash, counted, late, id);
    CommitWrites(hash, Interleave(hash, counted, late), id, HasCounted(w, expected, write, world.plane.profiles[w]));
  }
}
