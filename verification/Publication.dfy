/**
 Publication of one managed comment: the claim row with its compare-and-set updates, and
 any number of concurrent publishers interleaved over that row and the remote comments.
 */
module Claims {
  import opened Options

  /** Seconds a publication claim stays valid. */
  const PUBLICATION_CLAIM_TTL: int := 300

  datatype Claim = Free | Held(token: nat, expiresAt: int)

  datatype PublicationState = NotPublished | PublishedCurrent | PublishedStale | RetryableFailure | PublicationFailed

  /** What a publication attempt leaves behind. */
  datatype Record = Record(state: PublicationState, managedComment: Option<nat>)

  datatype Row = Row(claim: Claim, record: Record, lastAttempt: Option<int>)

  predicate CanAcquire(row: Row, at: int) {
    row.claim.Free? || row.claim.expiresAt <= at
  }

  function Acquired(row: Row, token: nat, at: int, expiresAt: int): Row {
    row.(claim := Held(token, expiresAt), lastAttempt := Some(at))
  }

  predicate Holds(row: Row, token: nat) {
    row.claim.Held? && row.claim.token == token
  }

  predicate CanRenew(row: Row, token: nat, at: int) {
    Holds(row, token) && row.claim.expiresAt > at
  }

  function Renewed(row: Row, token: nat, expiresAt: int): Row {
    row.(claim := Held(token, expiresAt))
  }

  function Finalized(row: Row, record: Record): Row {
    row.(claim := Free, record := record)
  }

  class GitHubAdapterRepository {
    var claimToken: Option<nat>
    var claimExpiresAt: int
    var record: Record
    var lastAttempt: Option<int>

    ghost function View(): Row
      reads this
    {
      Row(if claimToken.None? then Free else Held(claimToken.value, claimExpiresAt), record, lastAttempt)
    }

    constructor ()
      ensures View() == Row(Free, Record(NotPublished, None), None)
    {
      claimToken, claimExpiresAt, record, lastAttempt := None, 0, Record(NotPublished, None), None;
    }

    method AcquirePublicationClaim(token: nat, claimedAt: int, expiresAt: int) returns (acquired: bool)
      modifies this
      ensures acquired <==> CanAcquire(old(View()), claimedAt)
      ensures View() == if acquired then Acquired(old(View()), token, claimedAt, expiresAt) else old(View())
    {
      acquired := claimToken.None? || claimExpiresAt <= claimedAt;
      if acquired {
        claimToken, claimExpiresAt, lastAttempt := Some(token), expiresAt, Some(claimedAt);
      }
    }

    method RenewPublicationClaim(token: nat, renewedAt: int, expiresAt: int) returns (renewed: bool)
      modifies this
      ensures renewed <==> CanRenew(old(View()), token, renewedAt)
      ensures View() == if renewed then Renewed(old(View()), token, expiresAt) else old(View())
    {
      renewed := claimToken == Some(token) && claimExpiresAt > renewedAt;
      if renewed {
        claimExpiresAt := expiresAt;
      }
    }

    method FinalizePublicationClaim(token: nat, values: Record) returns (finalized: bool)
      modifies this
      ensures finalized <==> Holds(old(View()), token)
      ensures View() == if finalized then Finalized(old(View()), values) else old(View())
    {
      finalized := claimToken == Some(token);
      if finalized {
        claimToken, record := None, values;
      }
    }
  }
}

module Publication {
  import opened Options
  import opened Claims

  /** Where one publish call stands. A target is the comment to overwrite, or none when a
      new one is to be created. */
  datatype Phase =
    | Claimed
    | Found(comment: nat)
    | Ready(target: Option<nat>)
    | Writing(target: Option<nat>, deadline: int)
    | Wrote(comment: nat, created: bool)
    | Recovering
    | Finishing(published: Option<nat>)
    | Over

  /** `stamp` is the latest clock reading of the call; `turn` counts successful acquires
      before its own. */
  datatype Session = Session(phase: Phase, stamp: int, turn: nat)

  /** How the call of a remote write ends for its caller. */
  datatype Reply = Confirmed | Failed | Ambiguous

  /** One remote write that took effect: by whom, in which turn, and on which comment. */
  datatype Write = Write(token: nat, turn: nat, comment: nat)

  /** `owned` are the remote comments of the actor that carry the request's marker; `next`
      is above every comment id ever used. The last four fields are history. */
  datatype World = World(
    clock: int,
    row: Row,
    sessions: map<nat, Session>,
    comments: set<nat>,
    owned: set<nat>,
    next: nat,
    acquires: nat,
    results: seq<nat>,
    created: nat,
    writes: seq<Write>)

  datatype Action =
    | Tick(to: int)
    | Acquire(token: nat, stamp: int)
    | GetPersisted(token: nat, comment: nat)
    | List(token: nat, complete: bool)
    | Verify(token: nat)
    | Renew(token: nat, stamp: int)
    | TakeEffect(token: nat)
    | Return(token: nat, reply: Reply)
    | Fail(token: nat)
    | Finalize(token: nat, current: bool, retryable: bool)
    | Disturb(deleted: set<nat>, edited: set<nat>)

  const START := World(0, Row(Free, Record(NotPublished, None), None), map[], {}, {}, 0, 0, [], 0, [])

  // ----- steps -----

  function At(w: World, i: nat, phase: Phase): World
    requires i in w.sessions
  {
    w.(sessions := w.sessions[i := w.sessions[i].(phase := phase)])
  }

  predicate In(w: World, i: nat, phase: Phase) {
    i in w.sessions && w.sessions[i].phase == phase
  }

  /** A reading of the clock: not in the future and not before the call's last reading. */
  predicate Reading(w: World, i: nat, stamp: int) {
    stamp <= w.clock && (i in w.sessions ==> w.sessions[i].stamp <= stamp)
  }

  /** Tokens are fresh: a token is used for one publish call. */
  function AfterAcquire(w: World, i: nat, stamp: int): World {
    if i in w.sessions || !Reading(w, i, stamp) then w
    else if CanAcquire(w.row, stamp) then
      w.(row := Acquired(w.row, i, stamp, stamp + PUBLICATION_CLAIM_TTL),
         sessions := w.sessions[i := Session(Claimed, stamp, w.acquires)],
         acquires := w.acquires + 1)
    else w.(sessions := w.sessions[i := Session(Over, stamp, w.acquires)])
  }

  /** Where a listing of the owned comments leads; after an ambiguous create nothing is
      created again. */
  ghost function ListingPhase(owned: set<nat>, complete: bool, recovering: bool): Phase {
    if !complete then Finishing(None)
    else if owned == {} then (if recovering then Finishing(None) else Ready(None))
    else if c: nat :| owned == {c} then Found(c)
    else Finishing(None)
  }

  ghost function AfterList(w: World, i: nat, complete: bool): World {
    if In(w, i, Claimed) || In(w, i, Recovering)
    then At(w, i, ListingPhase(w.owned, complete, In(w, i, Recovering)))
    else w
  }

  function AfterRenew(w: World, i: nat, stamp: int): World {
    if i in w.sessions && w.sessions[i].phase.Ready? && Reading(w, i, stamp) then
      if CanRenew(w.row, i, stamp) then
        w.(row := Renewed(w.row, i, stamp + PUBLICATION_CLAIM_TTL),
           sessions := w.sessions[i := w.sessions[i].(
                                         phase := Writing(w.sessions[i].phase.target, stamp + PUBLICATION_CLAIM_TTL),
                                                      stamp := stamp)])
      else At(w, i, Finishing(None))
    else w
  }

  /** The remote write happens, once, and before the claim that covers it runs out; a
      comment that was deleted cannot be written. */
  function AfterEffect(w: World, i: nat): World {
    if i in w.sessions && w.sessions[i].phase.Writing? && w.clock < w.sessions[i].phase.deadline then
      match w.sessions[i].phase.target
      case None =>
        At(w, i, Wrote(w.next, true)).(comments := w.comments + {w.next}, owned := w.owned + {w.next},
                                       next := w.next + 1, created := w.created + 1,
                                       writes := w.writes + [Write(i, w.sessions[i].turn, w.next)])
      case Some(c) =>
        if c !in w.comments then w
        else At(w, i, Wrote(c, false)).(owned := w.owned + {c},
                                        writes := w.writes + [Write(i, w.sessions[i].turn, c)])
    else w
  }

  /** The call of the remote write returns or raises; from then on it has no effect. Only a
      write that took effect is confirmed, and only an ambiguous create is looked into. */
  function AfterReturn(w: World, i: nat, reply: Reply): World {
    if i !in w.sessions then w
    else
      match w.sessions[i].phase
      case Writing(target, _) =>
        if reply == Confirmed then w
        else At(w, i, if reply == Ambiguous && target.None? then Recovering else Finishing(None))
      case Wrote(c, created) =>
        At(w, i, if reply == Confirmed then Finishing(Some(c))
                 else if reply == Ambiguous && created then Recovering else Finishing(None))
      case _ => w
  }

  /** What a publication leaves on the row; a failure keeps the comment that is on record. */
  function Result(record: Record, published: Option<nat>, current: bool, retryable: bool): Record {
    match published
    case Some(c) => Record(if current then PublishedCurrent else PublishedStale, Some(c))
    case None => record.(state := if retryable then RetryableFailure else PublicationFailed)
  }

  function AfterFinalize(w: World, i: nat, current: bool, retryable: bool): World {
    if i !in w.sessions || !w.sessions[i].phase.Finishing? then w
    else if Holds(w.row, i) then
      var record := Result(w.row.record, w.sessions[i].phase.published, current, retryable);
      At(w, i, Over).(row := Finalized(w.row, record), results := w.results + [w.sessions[i].turn])
    else At(w, i, Over)
  }

  /** A call that is not in the middle of a remote write may fail at any point. */
  predicate MayFail(phase: Phase) {
    phase.Claimed? || phase.Found? || phase.Ready? || phase.Recovering?
  }

  ghost function Step(w: World, a: Action): World {
    match a
    case Tick(to) => if w.clock <= to then w.(clock := to) else w
    case Acquire(i, stamp) => AfterAcquire(w, i, stamp)
    case GetPersisted(i, c) => if In(w, i, Claimed) && c in w.owned then At(w, i, Found(c)) else w
    case List(i, complete) => AfterList(w, i, complete)
    case Verify(i) =>
      if i in w.sessions && w.sessions[i].phase.Found? then
        var c := w.sessions[i].phase.comment;
        At(w, i, if c in w.owned then Ready(Some(c)) else Finishing(None))
      else w
    case Renew(i, stamp) => AfterRenew(w, i, stamp)
    case TakeEffect(i) => AfterEffect(w, i)
    case Return(i, reply) => AfterReturn(w, i, reply)
    case Fail(i) =>
      if i in w.sessions && MayFail(w.sessions[i].phase)
      then At(w, i, Finishing(None)) else w
    case Finalize(i, current, retryable) => AfterFinalize(w, i, current, retryable)
    case Disturb(deleted, edited) => w.(comments := w.comments - deleted, owned := w.owned - deleted - edited)
  }

  ghost function Run(w: World, acts: seq<Action>): World
    decreases |acts|
  {
    if acts == [] then w else Run(Step(w, acts[0]), acts[1..])
  }

  // ----- what every interleaving keeps -----

  /** The only comment a session in this phase may leave behind. */
  predicate Covers(phase: Phase, owned: set<nat>) {
    match phase
    case Found(c) => owned <= {c}
    case Ready(target) => owned <= (if target.Some? then {target.value} else {})
    case Writing(target, _) => owned <= (if target.Some? then {target.value} else {})
    case _ => true
  }

  /** What holds of one publish call: while it holds the claim, what it saw is still true;
      while its write may still happen, it holds the claim. */
  predicate SessionOk(w: World, i: nat)
    requires i in w.sessions
  {
    var s := w.sessions[i];
    && s.turn <= w.acquires
    && (Holds(w.row, i) ==>
          && s.turn + 1 == w.acquires
          && s.phase != Over
          && s.stamp + PUBLICATION_CLAIM_TTL == w.row.claim.expiresAt
          && Covers(s.phase, w.owned))
    && (s.phase.Wrote? ==> Write(i, s.turn, s.phase.comment) in w.writes)
    && (s.phase.Finishing? && s.phase.published.Some? ==> Write(i, s.turn, s.phase.published.value) in w.writes)
    && (s.phase.Writing? ==> s.phase.deadline == s.stamp + PUBLICATION_CLAIM_TTL)
    && (s.phase.Writing? && w.clock < s.phase.deadline ==> Holds(w.row, i))
  }

  predicate AtMostOne(owned: set<nat>) {
    forall x, y :: x in owned && y in owned ==> x == y
  }

  ghost predicate RemoteOk(w: World) {
    AtMostOne(w.owned) && w.owned <= w.comments && (forall c :: c in w.comments ==> c < w.next)
  }

  /** Results were stored in the order of the acquires, and none by the current holder. */
  ghost predicate ResultsOk(w: World) {
    && (w.row.claim.Held? ==> w.row.claim.token in w.sessions)
    && (forall j :: 0 <= j < |w.results| ==> w.results[j] < w.acquires - (if w.row.claim.Held? then 1 else 0))
    && (forall j, k :: 0 <= j < k < |w.results| ==> w.results[j] < w.results[k])
  }

  /** Writes took effect in the order of the acquires. */
  predicate WritesOk(w: World) {
    && (forall k :: 0 <= k < |w.writes| ==> w.writes[k].turn < w.acquires)
    && (forall j, k :: 0 <= j < k < |w.writes| ==> w.writes[j].turn <= w.writes[k].turn)
  }

  predicate Published(state: PublicationState) {
    state == PublishedCurrent || state == PublishedStale
  }

  /** Whoever stored a result in turn `turn` wrote comment `c`. */
  ghost predicate WroteIn(w: World, turn: nat, c: nat) {
    exists k :: 0 <= k < |w.writes| && w.writes[k].turn == turn && w.writes[k].comment == c
  }

  /** The stored record: a comment on record was written by one of those who stored a
      result, and a publication on record by the last of them. */
  ghost predicate RecordOk(w: World) {
    var record := w.row.record;
    && (record.managedComment.Some? ==>
          exists j :: 0 <= j < |w.results| && WroteIn(w, w.results[j], record.managedComment.value))
    && (Published(record.state) ==>
          && record.managedComment.Some? && w.results != []
          && WroteIn(w, w.results[|w.results| - 1], record.managedComment.value))
  }

  ghost predicate SessionsOk(w: World) {
    forall i :: i in w.sessions ==> SessionOk(w, i)
  }

  ghost predicate Ok(w: World) {
    RemoteOk(w) && SessionsOk(w) && ResultsOk(w) && WritesOk(w) && RecordOk(w)
  }

  /** A session that was not touched stays good while the claim is the same, the clock does
      not run backwards and no comment appears. */
  lemma Untouched(w: World, z: World, except: int)
    requires SessionsOk(w)
    requires z.row == w.row && z.clock >= w.clock && z.owned <= w.owned && z.acquires == w.acquires
    requires z.writes == w.writes
    requires z.sessions.Keys == w.sessions.Keys
    requires forall j :: j in w.sessions && j != except ==> z.sessions[j] == w.sessions[j]
    requires except >= 0 && except in z.sessions ==> SessionOk(z, except)
    ensures SessionsOk(z)
  {
    forall j | j in z.sessions && j != except
      ensures SessionOk(z, j)
    {
      assert SessionOk(w, j);
    }
  }

  /** Moving one session to another phase. */
  lemma MoveKeepsOk(w: World, i: nat, phase: Phase)
    requires Ok(w) && i in w.sessions && !phase.Writing?
    requires Holds(w.row, i) ==> phase != Over && Covers(phase, w.owned)
    requires phase.Wrote? ==> Write(i, w.sessions[i].turn, phase.comment) in w.writes
    requires phase.Finishing? && phase.published.Some? ==>
               Write(i, w.sessions[i].turn, phase.published.value) in w.writes
    ensures Ok(At(w, i, phase))
  {
    assert SessionOk(w, i);
    Untouched(w, At(w, i, phase), i);
  }

  lemma AcquireKeepsOk(w: World, i: nat, stamp: int)
    requires Ok(w)
    ensures Ok(AfterAcquire(w, i, stamp))
  {
    var z := AfterAcquire(w, i, stamp);
    forall j | j in z.sessions && j != i
      ensures SessionOk(z, j)
    {
      assert SessionOk(w, j);
    }
  }

  lemma ListKeepsOk(w: World, i: nat, complete: bool)
    requires Ok(w)
    ensures Ok(AfterList(w, i, complete))
  {
    if In(w, i, Claimed) || In(w, i, Recovering) {
      MoveKeepsOk(w, i, ListingPhase(w.owned, complete, In(w, i, Recovering)));
    }
  }

  lemma RenewKeepsOk(w: World, i: nat, stamp: int)
    requires Ok(w)
    ensures Ok(AfterRenew(w, i, stamp))
  {
    var z := AfterRenew(w, i, stamp);
    forall j | j in z.sessions
      ensures SessionOk(z, j)
    {
      assert SessionOk(w, j);
    }
  }

  /** What was written stays on record as more is written. */
  lemma RecordKept(w: World, z: World)
    requires RecordOk(w) && z.row.record == w.row.record && z.results == w.results
    requires |w.writes| <= |z.writes| && forall k :: 0 <= k < |w.writes| ==> z.writes[k] == w.writes[k]
    ensures RecordOk(z)
  {
    forall turn, c | WroteIn(w, turn, c)
      ensures WroteIn(z, turn, c)
    {
      var k :| 0 <= k < |w.writes| && w.writes[k].turn == turn && w.writes[k].comment == c;
      assert z.writes[k] == w.writes[k];
    }
  }

  /** A write that is still in time is covered by the claim, so nothing else was written
      since its publisher looked. */
  lemma EffectKeepsSessions(w: World, i: nat)
    requires Ok(w)
    ensures SessionsOk(AfterEffect(w, i)) && RemoteOk(AfterEffect(w, i))
  {
    var z := AfterEffect(w, i);
    if i in w.sessions {
      assert SessionOk(w, i);
    }
    assert forall x :: x in w.writes ==> x in z.writes;
    forall j | j in z.sessions
      ensures SessionOk(z, j)
    {
      assert SessionOk(w, j);
    }
  }

  lemma EffectKeepsOk(w: World, i: nat)
    requires Ok(w)
    ensures Ok(AfterEffect(w, i))
  {
    EffectKeepsSessions(w, i);
    if i in w.sessions {
      assert SessionOk(w, i);
    }
    RecordKept(w, AfterEffect(w, i));
  }

  lemma FinalizeKeepsSessions(w: World, i: nat, current: bool, retryable: bool)
    requires Ok(w)
    ensures SessionsOk(AfterFinalize(w, i, current, retryable)) && ResultsOk(AfterFinalize(w, i, current, retryable))
  {
    var z := AfterFinalize(w, i, current, retryable);
    if i in w.sessions {
      assert SessionOk(w, i);
    }
    forall j | j in z.sessions
      ensures SessionOk(z, j)
    {
      assert SessionOk(w, j);
    }
  }

  lemma FinalizeKeepsRecord(w: World, i: nat, current: bool, retryable: bool)
    requires Ok(w)
    ensures RecordOk(AfterFinalize(w, i, current, retryable))
  {
    var z := AfterFinalize(w, i, current, retryable);
    if i in w.sessions && w.sessions[i].phase.Finishing? && Holds(w.row, i) {
      assert SessionOk(w, i) && z.writes == w.writes;
      assert forall turn, c :: WroteIn(w, turn, c) ==> WroteIn(z, turn, c);
      var n := |w.results|;
      assert z.results[n] == w.sessions[i].turn && forall j :: 0 <= j < n ==> z.results[j] == w.results[j];
      var published := w.sessions[i].phase.published;
      if published.Some? {
        var k :| 0 <= k < |w.writes| && w.writes[k] == Write(i, w.sessions[i].turn, published.value);
        assert WroteIn(z, z.results[n], published.value);
      }
    }
  }

  lemma FinalizeKeepsOk(w: World, i: nat, current: bool, retryable: bool)
    requires Ok(w)
    ensures Ok(AfterFinalize(w, i, current, retryable))
  {
    FinalizeKeepsSessions(w, i, current, retryable);
    FinalizeKeepsRecord(w, i, current, retryable);
  }

  lemma MoveStepKeepsOk(w: World, a: Action)
    requires Ok(w) && (a.GetPersisted? || a.Verify? || a.Return? || a.Fail?)
    ensures Ok(Step(w, a))
  {
    var i := a.token;
    if i in w.sessions {
      assert SessionOk(w, i);
      var s := w.sessions[i].phase;
      match a {
        case GetPersisted(_, c) =>
          if s == Claimed && c in w.owned {
            MoveKeepsOk(w, i, Found(c));
          }
        case Verify(_) =>
          if s.Found? {
            MoveKeepsOk(w, i, if s.comment in w.owned then Ready(Some(s.comment)) else Finishing(None));
          }
        case Return(_, reply) =>
          if s.Wrote? || (s.Writing? && reply != Confirmed) {
            MoveKeepsOk(w, i, AfterReturn(w, i, reply).sessions[i].phase);
          }
        case Fail(_) =>
          MoveKeepsOk(w, i, Finishing(None));
      }
    }
  }

  lemma StepKeepsOk(w: World, a: Action)
    requires Ok(w)
    ensures Ok(Step(w, a))
  {
    match a {
      case Acquire(i, stamp) => AcquireKeepsOk(w, i, stamp);
      case List(i, complete) => ListKeepsOk(w, i, complete);
      case Renew(i, stamp) => RenewKeepsOk(w, i, stamp);
      case TakeEffect(i) => EffectKeepsOk(w, i);
      case Finalize(i, current, retryable) => FinalizeKeepsOk(w, i, current, retryable);
      case Tick(to) =>
        if w.clock <= to {
          Untouched(w, w.(clock := to), -1);
        }
      case Disturb(deleted, edited) => Untouched(w, Step(w, a), -1);
      case _ => MoveStepKeepsOk(w, a);
    }
  }

  lemma {:induction false} RunKeepsOk(w: World, acts: seq<Action>)
    requires Ok(w)
    ensures Ok(Run(w, acts))
    decreases |acts|
  {
    if acts != [] {
      StepKeepsOk(w, acts[0]);
      RunKeepsOk(Step(w, acts[0]), acts[1..]);
    }
  }

  // ----- at most one managed comment -----

  lemma OneMeansSmall(owned: set<nat>)
    requires AtMostOne(owned)
    ensures |owned| <= 1
  {
    if x :| x in owned {
      assert owned == {x};
    }
  }

  /** However publishers interleave, and whatever others delete or edit, at most one comment
      of the actor carries the request's marker. */
  lemma AtMostOneManagedComment(acts: seq<Action>)
    ensures |Run(START, acts).owned| <= 1
  {
    RunKeepsOk(START, acts);
    OneMeansSmall(Run(START, acts).owned);
  }

  lemma StepCounts(w: World, a: Action)
    requires Ok(w) && !a.Disturb? && w.created == |w.owned|
    requires forall i :: i in w.sessions ==> Aims(w, i)
    requires w.owned == w.comments
    ensures var z := Step(w, a);
            z.created == |z.owned| && z.owned == z.comments && forall i :: i in z.sessions ==> Aims(z, i)
  {
    var z := Step(w, a);
    if a.TakeEffect? && a.token in w.sessions {
      assert Aims(w, a.token) && SessionOk(w, a.token);
    }
    forall i | i in z.sessions
      ensures Aims(z, i)
    {
      assert i in w.sessions ==> Aims(w, i);
    }
  }

  /** Updates are aimed at comments that exist. */
  predicate Aims(w: World, i: nat)
    requires i in w.sessions
  {
    var s := w.sessions[i].phase;
    && (s.Found? ==> s.comment in w.owned)
    && (s.Ready? && s.target.Some? ==> s.target.value in w.owned)
    && (s.Writing? && s.target.Some? ==> s.target.value in w.owned)
  }

  lemma {:induction false} RunCounts(w: World, acts: seq<Action>)
    requires Ok(w) && w.created == |w.owned| && w.owned == w.comments
    requires forall i :: i in w.sessions ==> Aims(w, i)
    requires forall k :: 0 <= k < |acts| ==> !acts[k].Disturb?
    ensures Run(w, acts).created == |Run(w, acts).owned|
    decreases |acts|
  {
    if acts != [] {
      StepKeepsOk(w, acts[0]);
      StepCounts(w, acts[0]);
      RunCounts(Step(w, acts[0]), acts[1..]);
    }
  }

  /** If nobody else touches the comments, at most one create ever takes effect. */
  lemma AtMostOneCreate(acts: seq<Action>)
    requires forall k :: 0 <= k < |acts| ==> !acts[k].Disturb?
    ensures Run(START, acts).created <= 1
  {
    RunCounts(START, acts);
    AtMostOneManagedComment(acts);
  }

  // ----- fencing -----

  /** A result is stored only by the publisher that acquired last, and after every result
      already stored was acquired: a stale publisher changes nothing. */
  lemma FinalizeIsFenced(acts: seq<Action>, i: nat, current: bool, retryable: bool)
    ensures var w := Run(START, acts);
            var z := Step(w, Finalize(i, current, retryable));
            if i in w.sessions && w.sessions[i].phase.Finishing? && Holds(w.row, i) then
              && w.sessions[i].turn + 1 == w.acquires
              && (forall j :: 0 <= j < |w.results| ==> w.results[j] < w.sessions[i].turn)
              && z.row.claim == Free && z.row.lastAttempt == w.row.lastAttempt
              && z.results == w.results + [w.sessions[i].turn]
            else z.row == w.row && z.results == w.results
  {
    var w := Run(START, acts);
    RunKeepsOk(START, acts);
    if i in w.sessions {
      assert SessionOk(w, i);
    }
  }

  /** A newer text is never overwritten by an older publisher: writes take effect in the
      order of the acquires, whatever the interleaving. */
  lemma WritesAreFenced(acts: seq<Action>, j: nat, k: nat)
    requires j < k < |Run(START, acts).writes|
    ensures Run(START, acts).writes[j].turn <= Run(START, acts).writes[k].turn
  {
    RunKeepsOk(START, acts);
  }

  /** What the row says is true: a publication on record was written by the publisher that
      stored it, and every comment on record by somebody that stored a result. */
  lemma RecordIsTrue(acts: seq<Action>)
    ensures var w := Run(START, acts);
            && (Published(w.row.record.state) ==>
                  && w.row.record.managedComment.Some? && w.results != []
                  && exists k :: 0 <= k < |w.writes| && w.writes[k].turn == w.results[|w.results| - 1]
                                 && w.writes[k].comment == w.row.record.managedComment.value)
            && (w.row.record.managedComment.Some? ==>
                  exists k :: 0 <= k < |w.writes| && w.writes[k].comment == w.row.record.managedComment.value)
  {
    RunKeepsOk(START, acts);
  }

  /** Writes that may still happen belong to one publisher. */
  lemma OneWriter(acts: seq<Action>, i: nat, j: nat)
    ensures var w := Run(START, acts);
            && i in w.sessions && w.sessions[i].phase.Writing? && w.clock < w.sessions[i].phase.deadline
            && j in w.sessions && w.sessions[j].phase.Writing? && w.clock < w.sessions[j].phase.deadline
            ==> i == j
  {
    var w := Run(START, acts);
    RunKeepsOk(START, acts);
    if i in w.sessions && j in w.sessions {
      assert SessionOk(w, i) && SessionOk(w, j);
    }
  }

  lemma HolderKeepsClaimStep(w: World, a: Action, i: nat)
    requires Ok(w) && Holds(w.row, i)
    requires !(a.Finalize? && a.token == i) && Step(w, a).clock < w.row.claim.expiresAt
    ensures var z := Step(w, a);
            Holds(z.row, i) && z.row.claim.expiresAt >= w.row.claim.expiresAt && z.acquires == w.acquires
  {
    assert SessionOk(w, i);
  }

  lemma {:induction false} ClockNeverRunsBack(w: World, acts: seq<Action>)
    ensures Run(w, acts).clock >= w.clock
    decreases |acts|
  {
    if acts != [] {
      ClockNeverRunsBack(Step(w, acts[0]), acts[1..]);
    }
  }

  /** From a renewal (or acquire) on, until the claim's time is up or its holder finalizes,
      the holder stays the holder through any actions of others: nobody else acquires, and
      so nobody else can renew or finalize. */
  lemma {:induction false} HolderKeepsClaim(w: World, acts: seq<Action>, i: nat)
    requires Ok(w) && Holds(w.row, i)
    requires forall k :: 0 <= k < |acts| ==> !(acts[k].Finalize? && acts[k].token == i)
    requires Run(w, acts).clock < w.row.claim.expiresAt
    ensures Holds(Run(w, acts).row, i) && Run(w, acts).acquires == w.acquires
    decreases |acts|
  {
    if acts != [] {
      var z := Step(w, acts[0]);
      ClockNeverRunsBack(z, acts[1..]);
      HolderKeepsClaimStep(w, acts[0], i);
      StepKeepsOk(w, acts[0]);
      HolderKeepsClaim(z, acts[1..], i);
    }
  }

  // ----- a publisher that holds the claim gets its comment written -----

  lemma {:induction false} RunAppends(w: World, xs: seq<Action>, ys: seq<Action>)
    ensures Run(w, xs + ys) == Run(Run(w, xs), ys)
    decreases |xs|
  {
    if xs == [] {
      assert xs + ys == ys;
    } else {
      assert (xs + ys)[0] == xs[0] && (xs + ys)[1..] == xs[1..] + ys;
      RunAppends(Step(w, xs[0]), xs[1..], ys);
    }
  }

  /** A run up to an action, the action, and the rest. */
  lemma RunThrough(w: World, xs: seq<Action>, a: Action, ys: seq<Action>)
    ensures Run(w, xs + [a]) == Step(Run(w, xs), a)
    ensures Run(w, xs + [a] + ys) == Run(Step(Run(w, xs), a), ys)
  {
    RunAppends(w, xs, [a]);
    assert [a][1..] == [];
    RunAppends(w, xs + [a], ys);
  }

  /** Steps of other publishers and of the clock. */
  predicate Foreign(a: Action, i: nat) {
    !a.Disturb? && (a.Tick? || a.token != i)
  }

  predicate Others(acts: seq<Action>, i: nat) {
    forall k :: 0 <= k < |acts| ==> Foreign(acts[k], i)
  }

  /** Everything that matters to publisher `i` is as it was. */
  predicate SameFor(w: World, z: World, i: nat) {
    && z.row == w.row && i in w.sessions && i in z.sessions && z.sessions[i] == w.sessions[i]
    && z.comments == w.comments && z.owned == w.owned && z.next == w.next
    && z.created == w.created && z.writes == w.writes
  }

  lemma OtherWaits(w: World, a: Action, i: nat)
    requires Ok(w) && Holds(w.row, i) && Foreign(a, i) && Step(w, a).clock < w.row.claim.expiresAt
    ensures SameFor(w, Step(w, a), i)
  {
    assert SessionOk(w, i);
    if !a.Tick? && a.token in w.sessions {
      assert SessionOk(w, a.token);
    }
  }

  /** Until the claim of `i` runs out, nothing others do changes anything that matters to it. */
  lemma {:induction false} OthersWait(w: World, acts: seq<Action>, i: nat)
    requires Ok(w) && Holds(w.row, i) && Others(acts, i) && Run(w, acts).clock < w.row.claim.expiresAt
    ensures Ok(Run(w, acts)) && SameFor(w, Run(w, acts), i)
    decreases |acts|
  {
    if acts == [] {
      assert i in w.sessions;
    } else {
      var z := Step(w, acts[0]);
      ClockNeverRunsBack(z, acts[1..]);
      OtherWaits(w, acts[0], i);
      StepKeepsOk(w, acts[0]);
      OthersWait(z, acts[1..], i);
    }
  }

  /** A claim is open to others exactly when its holder can no longer renew it. */
  lemma RenewOrAcquire(row: Row, i: nat, at: int)
    requires Holds(row, i)
    ensures CanRenew(row, i, at) <==> !CanAcquire(row, at)
  {
  }

  /** A new publish call gets the claim exactly if it is free or has run out by the clock
      reading of the call, and then holds it for five minutes from that reading. */
  lemma AcquireGrants(w: World, i: nat, stamp: int)
    requires Ok(w) && i !in w.sessions && stamp <= w.clock
    ensures var z := Step(w, Acquire(i, stamp));
            && (Holds(z.row, i) <==> w.row.claim.Free? || w.row.claim.expiresAt <= stamp)
            && (Holds(z.row, i) ==>
                  && In(z, i, Claimed) && z.sessions[i].stamp == stamp
                  && z.row == Row(Held(i, stamp + 300), w.row.record, Some(stamp)))
            && (!Holds(z.row, i) ==> In(z, i, Over) && z.row == w.row)
            && z == w.(row := z.row, sessions := z.sessions, acquires := z.acquires)
  {
  }

  /** Publisher `i` renews in time at reading `stamp`, others acting before and after it, and
      its write takes effect before the renewed claim runs out. */
  function WritePath(i: nat, before: seq<Action>, stamp: int, after: seq<Action>): seq<Action> {
    before + [Renew(i, stamp)] + after + [TakeEffect(i)]
  }

  predicate InTime(w: World, i: nat, before: seq<Action>, stamp: int, after: seq<Action>, middle: World, late: World) {
    && Others(before, i) && Others(after, i)
    && i in w.sessions && Holds(w.row, i)
    && middle.clock < w.row.claim.expiresAt
    && w.sessions[i].stamp <= stamp <= middle.clock
    && late.clock < stamp + PUBLICATION_CLAIM_TTL
  }

  /** The timing of a write path from world `w` on. */
  ghost predicate Timely(w: World, i: nat, before: seq<Action>, stamp: int, after: seq<Action>) {
    InTime(w, i, before, stamp, after, Run(w, before), Run(w, before + [Renew(i, stamp)] + after))
  }

  /** What publisher `i` is about to write gets written, whatever others do in between. */
  lemma ReadyWrites(w: World, i: nat, target: Option<nat>, before: seq<Action>, stamp: int, after: seq<Action>)
    requires Ok(w) && In(w, i, Ready(target)) && Timely(w, i, before, stamp, after)
    requires target.Some? ==> target.value in w.owned
    ensures var z := Run(w, WritePath(i, before, stamp, after));
            var c := if target.Some? then target.value else w.next;
            && Ok(z) && Holds(z.row, i) && In(z, i, Wrote(c, target.None?))
            && z.writes == w.writes + [Write(i, w.sessions[i].turn, c)]
            && z.owned == w.owned + {c} && z.comments == w.comments + {c}
            && z.created == w.created + (if target.None? then 1 else 0)
  {
    var m := Run(w, before);
    OthersWait(w, before, i);
    RunThrough(w, before, Renew(i, stamp), after);
    RenewStarts(m, i, target, stamp);
    var n := Step(m, Renew(i, stamp));
    OthersWait(n, after, i);
    RunThrough(w, before + [Renew(i, stamp)] + after, TakeEffect(i), []);
    WriteTakesEffect(Run(n, after), i, target);
  }

  lemma RenewStarts(w: World, i: nat, target: Option<nat>, stamp: int)
    requires Ok(w) && In(w, i, Ready(target)) && Reading(w, i, stamp) && CanRenew(w.row, i, stamp)
    ensures var z := Step(w, Renew(i, stamp));
            && Ok(z) && z.clock == w.clock
            && z == w.(row := z.row, sessions := z.sessions)
            && In(z, i, Writing(target, stamp + PUBLICATION_CLAIM_TTL))
            && z.sessions[i].turn == w.sessions[i].turn
            && Holds(z.row, i) && z.row.claim.expiresAt == stamp + PUBLICATION_CLAIM_TTL
  {
    StepKeepsOk(w, Renew(i, stamp));
  }

  lemma WriteTakesEffect(w: World, i: nat, target: Option<nat>)
    requires Ok(w) && Holds(w.row, i) && i in w.sessions && w.sessions[i].phase.Writing?
    requires w.sessions[i].phase.target == target && w.clock < w.sessions[i].phase.deadline
    requires target.Some? ==> target.value in w.owned
    ensures var z := Step(w, TakeEffect(i));
            var c := if target.Some? then target.value else w.next;
            && Ok(z) && Holds(z.row, i) && In(z, i, Wrote(c, target.None?))
            && z.writes == w.writes + [Write(i, w.sessions[i].turn, c)]
            && z.owned == w.owned + {c} && z.comments == w.comments + {c}
            && z.created == w.created + (if target.None? then 1 else 0)
  {
    StepKeepsOk(w, TakeEffect(i));
  }

  /** With no managed comment around, a publisher that lists them all and keeps its claim
      creates exactly one. */
  lemma PublishCreates(w: World, i: nat, first: seq<Action>, before: seq<Action>, stamp: int, after: seq<Action>)
    requires Ok(w) && In(w, i, Claimed) && Holds(w.row, i) && w.owned == {}
    requires Others(first, i) && Run(w, first).clock < w.row.claim.expiresAt
    requires Timely(Run(w, first + [List(i, true)]), i, before, stamp, after)
    ensures var z := Run(w, first + [List(i, true)] + WritePath(i, before, stamp, after));
            && z.owned == {w.next} && z.comments == w.comments + {w.next} && w.next !in w.comments
            && z.created == w.created + 1
            && z.writes == w.writes + [Write(i, w.sessions[i].turn, w.next)]
            && In(z, i, Wrote(w.next, true)) && Holds(z.row, i)
  {
    var m := Run(w, first);
    OthersWait(w, first, i);
    RunThrough(w, first, List(i, true), WritePath(i, before, stamp, after));
    StepKeepsOk(m, List(i, true));
    ReadyWrites(Step(m, List(i, true)), i, None, before, stamp, after);
  }

  /** A comment that was found is verified and written. */
  lemma FoundWrites(
    w: World, i: nat, c: nat, between: seq<Action>, before: seq<Action>, stamp: int, after: seq<Action>)
    requires Ok(w) && Holds(w.row, i) && In(w, i, Found(c)) && w.owned == {c}
    requires Others(between, i) && Run(w, between).clock < w.row.claim.expiresAt
    requires Timely(Run(w, between + [Verify(i)]), i, before, stamp, after)
    ensures var z := Run(w, between + [Verify(i)] + WritePath(i, before, stamp, after));
            && z.owned == {c} && z.comments == w.comments && z.created == w.created
            && z.writes == w.writes + [Write(i, w.sessions[i].turn, c)]
            && In(z, i, Wrote(c, false)) && Holds(z.row, i)
  {
    var l := Run(w, between);
    OthersWait(w, between, i);
    RunThrough(w, between, Verify(i), WritePath(i, before, stamp, after));
    VerifyReadies(l, i, c);
    ReadyWrites(Step(l, Verify(i)), i, Some(c), before, stamp, after);
  }

  /** With one managed comment around, a publisher that finds it, by its record or by a
      complete listing, verifies it and keeps its claim writes that comment and creates
      nothing; a publisher whose create had an unclear outcome does the same. */
  lemma PublishUpdates(
    w: World, i: nat, c: nat, look: Action, first: seq<Action>, between: seq<Action>, before: seq<Action>, stamp: int,
    after: seq<Action>)
    requires Ok(w) && Holds(w.row, i) && w.owned == {c}
    requires || (In(w, i, Claimed) && (look == List(i, true) || look == GetPersisted(i, c)))
             || (In(w, i, Recovering) && look == List(i, true))
    requires Others(first, i) && Run(w, first).clock < w.row.claim.expiresAt
    requires var found := Run(w, first + [look]);
             && Others(between, i) && Run(found, between).clock < w.row.claim.expiresAt
             && Timely(Run(found, between + [Verify(i)]), i, before, stamp, after)
    ensures var z := Run(w, first + [look] + (between + [Verify(i)] + WritePath(i, before, stamp, after)));
            && z.owned == {c} && z.comments == w.comments && z.created == w.created
            && z.writes == w.writes + [Write(i, w.sessions[i].turn, c)]
            && In(z, i, Wrote(c, false)) && Holds(z.row, i)
  {
    var m := Run(w, first);
    OthersWait(w, first, i);
    RunThrough(w, first, look, between + [Verify(i)] + WritePath(i, before, stamp, after));
    LookFinds(m, i, c, look);
    FoundWrites(Step(m, look), i, c, between, before, stamp, after);
  }

  lemma LookFinds(w: World, i: nat, c: nat, look: Action)
    requires Ok(w) && Holds(w.row, i) && w.owned == {c}
    requires || (In(w, i, Claimed) && (look == List(i, true) || look == GetPersisted(i, c)))
             || (In(w, i, Recovering) && look == List(i, true))
    ensures var z := Step(w, look);
            && Ok(z) && In(z, i, Found(c)) && z == w.(sessions := z.sessions)
            && z.sessions[i].turn == w.sessions[i].turn
  {
    StepKeepsOk(w, look);
    OneComment(w.owned, c);
  }

  lemma VerifyReadies(w: World, i: nat, c: nat)
    requires Ok(w) && In(w, i, Found(c)) && c in w.owned
    ensures var z := Step(w, Verify(i));
            && Ok(z) && In(z, i, Ready(Some(c))) && z == w.(sessions := z.sessions)
            && z.sessions[i].turn == w.sessions[i].turn
  {
    StepKeepsOk(w, Verify(i));
  }

  lemma OneComment(owned: set<nat>, c: nat)
    requires owned == {c}
    ensures forall recovering :: ListingPhase(owned, true, recovering) == Found(c)
  {
    assert forall d: nat :: owned == {d} ==> d in owned && d == c;
  }

  /** An unclear create is looked into: if its comment is there it is updated, else the
      attempt ends; nothing is created again. */
  lemma UnclearCreateIsLookedInto(w: World, i: nat)
    requires i in w.sessions
    requires (w.sessions[i].phase.Writing? && w.sessions[i].phase.target.None?)
             || (w.sessions[i].phase.Wrote? && w.sessions[i].phase.created)
    ensures var z := Step(w, Return(i, Ambiguous));
            && In(z, i, Recovering) && z.(sessions := w.sessions) == w
            && (z.owned == {} ==> In(Step(z, List(i, true)), i, Finishing(None)))
            && (forall c: nat :: z.owned == {c} ==> In(Step(z, List(i, true)), i, Found(c)))
  {
    var z := Step(w, Return(i, Ambiguous));
    forall c: nat | z.owned == {c}
      ensures In(Step(z, List(i, true)), i, Found(c))
    {
      OneComment(z.owned, c);
    }
  }

  /** A confirmed write is put on record, with the comment that was written. */
  lemma ConfirmedIsRecorded(w: World, i: nat, c: nat, created: bool, current: bool, retryable: bool)
    requires In(w, i, Wrote(c, created)) && Holds(w.row, i)
    ensures Run(w, [Return(i, Confirmed), Finalize(i, current, retryable)]).row
            == Row(Free, Record(if current then PublishedCurrent else PublishedStale, Some(c)), w.row.lastAttempt)
  {
    assert [Return(i, Confirmed), Finalize(i, current, retryable)]
        == [] + [Return(i, Confirmed)] + [Finalize(i, current, retryable)];
    RunThrough(w, [], Return(i, Confirmed), [Finalize(i, current, retryable)]);
    RunThrough(Step(w, Return(i, Confirmed)), [], Finalize(i, current, retryable), []);
    assert [] + [Finalize(i, current, retryable)] == [Finalize(i, current, retryable)];
  }

  // ----- a publisher that gave up writes nothing more -----

  predicate Ended(w: World, i: nat) {
    i in w.sessions && (w.sessions[i].phase == Finishing(None) || w.sessions[i].phase == Over)
  }

  /** The writes of `z` are those of `w` and later ones by others. */
  predicate NoNewWrite(w: World, z: World, i: nat) {
    && |w.writes| <= |z.writes| && z.writes[..|w.writes|] == w.writes
    && forall k :: |w.writes| <= k < |z.writes| ==> z.writes[k].token != i
  }

  lemma EndedStep(w: World, a: Action, i: nat)
    requires Ended(w, i)
    ensures Ended(Step(w, a), i) && NoNewWrite(w, Step(w, a), i)
    ensures Step(w, a).row.record != w.row.record ==> a.Finalize?
  {
  }

  /** A failed attempt changes the state on record and nothing else of it. */
  lemma FailureKeepsComment(w: World, i: nat, current: bool, retryable: bool)
    requires Ended(w, i)
    ensures var z := Step(w, Finalize(i, current, retryable));
            && z.row.record.managedComment == w.row.record.managedComment
            && (z.row.record != w.row.record ==>
                  z.row.record.state == if retryable then RetryableFailure else PublicationFailed)
  {
  }

  lemma {:induction false} EndedWritesNothing(w: World, acts: seq<Action>, i: nat)
    requires Ended(w, i)
    ensures Ended(Run(w, acts), i) && NoNewWrite(w, Run(w, acts), i)
    decreases |acts|
  {
    if acts != [] {
      var z := Step(w, acts[0]);
      EndedStep(w, acts[0], i);
      EndedWritesNothing(z, acts[1..], i);
      var v := Run(z, acts[1..]);
      assert v.writes[..|w.writes|] == v.writes[..|z.writes|][..|w.writes|];
      assert forall k :: |w.writes| <= k < |z.writes| ==> v.writes[k] == v.writes[..|z.writes|][k];
    }
  }

  /** After an incomplete listing, a lost claim, a failed verification or any other failure
      before the write, the publisher writes nothing, ever. */
  lemma GivingUpWritesNothing(w: World, i: nat, a: Action, acts: seq<Action>)
    requires i in w.sessions
    requires || (a == List(i, false) && (In(w, i, Claimed) || In(w, i, Recovering)))
             || (a == Fail(i) && MayFail(w.sessions[i].phase))
             || (exists stamp :: a == Renew(i, stamp) && w.sessions[i].phase.Ready? && Reading(w, i, stamp)
                                 && !CanRenew(w.row, i, stamp))
             || (a == Verify(i) && w.sessions[i].phase.Found? && w.sessions[i].phase.comment !in w.owned)
    ensures NoNewWrite(w, Run(w, [a] + acts), i)
  {
    assert ([a] + acts)[0] == a && ([a] + acts)[1..] == acts;
    EndedWritesNothing(Step(w, a), acts, i);
  }

  lemma FirstWrite(i: nat)
    ensures var w := Step(Step(Step(Step(START, Acquire(i, 0)), List(i, true)), Renew(i, 0)), TakeEffect(i));
            && w.owned == {0} && w.comments == {0} && w.created == 1 && w.writes == [Write(i, 0, 0)]
            && In(w, i, Wrote(0, true)) && Holds(w.row, i) && w.row.lastAttempt == Some(0)
  {
    var claimed := Step(START, Acquire(i, 0));
    assert In(claimed, i, Claimed) && claimed.row.claim == Held(i, 300) && claimed.owned == {};
    var ready := Step(claimed, List(i, true));
    assert In(ready, i, Ready(None)) && ready.row == claimed.row;
    var writing := Step(ready, Renew(i, 0));
    assert In(writing, i, Writing(None, 300)) && Holds(writing.row, i);
  }

  /** The first publication of a request, alone: one comment, on record. */
  lemma FirstPublication(i: nat, current: bool)
    ensures var written := Step(Step(Step(Step(START, Acquire(i, 0)), List(i, true)), Renew(i, 0)), TakeEffect(i));
            var z := Step(Step(written, Return(i, Confirmed)), Finalize(i, current, false));
            && z.owned == {0} && z.comments == {0} && z.created == 1 && z.writes == [Write(i, 0, 0)]
            && z.row == Row(Free, Record(if current then PublishedCurrent else PublishedStale, Some(0)), Some(0))
  {
    FirstWrite(i);
  }
}
