/**
 Provenance of reused evidence over all histories.
 */
module ReuseTheorems {
  import opened Options
  import opened Lifecycle
  import opened Tables
  import opened Reuse
  import opened Events
  import opened PlaneInvariant
  import opened Changes
  import opened PlaneSteps
  import opened PlaneTheorems

  /** Run `s` may stand in for run `r`: another run, by the same worker, that succeeded with
      fresh evidence of exactly this identity and reuses nothing itself. */
  ghost predicate SourceOk(p: Plane, r: nat, s: nat, identity: Identity, fingerprint: string) {
    && r < |p.runs| && s < |p.runs| && s != r
    && p.runs[s].status == RunSucceeded
    && p.runs[s].reuse.decision == Fresh
    && p.runs[s].reuse.source.None?
    && p.runs[s].reuse.identity == Some(identity)
    && p.runs[s].worker == p.runs[r].worker
    && p.runs[s].evidence.Some? && p.runs[s].evidence.value.fingerprint == fingerprint
  }

  ghost predicate ReuseOk(p: Plane, hash: Identity -> string, r: nat) {
    && r < |p.runs|
    && p.runs[r].order < |p.orders|
    && var record := p.runs[r].reuse;
    && var terms := p.orders[p.runs[r].order].terms;
    && (record.identity.Some? ==>
          IdentityFits(terms, record.identity.value) && record.identityHash == Some(hash(record.identity.value)))
    && (record.candidate.Some? ==>
          && terms.reuse != Never
          && SourceOk(p, r, record.candidate.value.source, record.candidate.value.identity,
                      record.candidate.value.fingerprint))
    && (record.decision == Reused ==>
          && TerminalRun(p.runs[r].status)
          && terms.reuse != Never
          && record.source.Some? && record.identity.Some? && record.sourceFingerprint.Some?
          && SourceOk(p, r, record.source.value, record.identity.value, record.sourceFingerprint.value))
    && (record.decision != Reused ==> record.source.None? && record.sourceFingerprint.None?)
    && (p.runs[r].status == RunSucceeded && terms.reuse == RequireExact ==> record.decision == Reused)
  }

  ghost predicate ReuseInv(p: Plane, hash: Identity -> string) {
    forall r: nat :: r < |p.runs| ==> ReuseOk(p, hash, r)
  }

  /** Sources are finished rows, so they stay good. */
  lemma SourceSurvives(p: Plane, q: Plane, r: nat, s: nat, identity: Identity, fingerprint: string)
    requires FollowsTables(p, q) && SourceOk(p, r, s, identity, fingerprint)
    ensures SourceOk(q, r, s, identity, fingerprint)
  {
    assert RunFollows(p.runs[s], q.runs[s]) && RunFollows(p.runs[r], q.runs[r]);
  }

  /** A run whose reuse columns did not change and that did not just succeed stays good. */
  lemma UntouchedReuse(p: Plane, q: Plane, hash: Identity -> string, r: nat)
    requires ReuseOk(p, hash, r) && FollowsTables(p, q)
    requires q.runs[r].reuse == p.runs[r].reuse
    requires q.runs[r].status == RunSucceeded ==> p.runs[r].status == RunSucceeded
    ensures ReuseOk(q, hash, r)
  {
    assert RunFollows(p.runs[r], q.runs[r]);
    assert OrderFollows(p.orders[p.runs[r].order], q.orders[p.runs[r].order]);
    var record := p.runs[r].reuse;
    if record.candidate.Some? {
      SourceSurvives(p, q, r, record.candidate.value.source, record.candidate.value.identity,
                     record.candidate.value.fingerprint);
    }
    if record.decision == Reused {
      SourceSurvives(p, q, r, record.source.value, record.identity.value, record.sourceFingerprint.value);
    }
  }

  lemma UntouchedReuses(p: Plane, q: Plane, hash: Identity -> string, except: int)
    requires ReuseInv(p, hash) && FollowsTables(p, q)
    requires forall k :: 0 <= k < |p.runs| && k != except ==> q.runs[k] == p.runs[k]
    ensures forall k: nat :: k < |p.runs| && k != except ==> ReuseOk(q, hash, k)
  {
    forall k: nat | k < |p.runs| && k != except
      ensures ReuseOk(q, hash, k)
    {
      assert ReuseOk(p, hash, k);
      UntouchedReuse(p, q, hash, k);
    }
  }

  /** A run that just ended with an accepted record is good. */
  lemma AcceptedReuseOk(p: Plane, q: Plane, hash: Identity -> string, r: nat, completion: Completion)
    requires ReuseOk(p, hash, r) && FollowsTables(p, q)
    requires var v := CompletionVerdict(p.orders[p.runs[r].order].terms, p.runs[r], hash, completion);
             v.Accepted? && q.runs[r].reuse == v.record && q.runs[r].status == completion.status
    requires TerminalRun(completion.status)
    ensures ReuseOk(q, hash, r)
  {
    assert RunFollows(p.runs[r], q.runs[r]);
    assert OrderFollows(p.orders[p.runs[r].order], q.orders[p.runs[r].order]);
    AcceptedPromises(p.orders[p.runs[r].order].terms, p.runs[r], hash, completion);
    if q.runs[r].reuse.decision == Reused {
      var c := p.runs[r].reuse.candidate.value;
      SourceSurvives(p, q, r, c.source, c.identity, c.fingerprint);
    }
  }

  lemma FinishKeepsReuse(hash: Identity -> string, p: Plane, r: nat, completion: Completion, now: int)
    requires Inv(p) && ReuseInv(p, hash) && CanClose(p, r) && Admissible(p, hash, r, completion)
    ensures ReuseInv(Finished(p, hash, r, completion, now), hash)
  {
    var q := Finished(p, hash, r, completion, now);
    FinishedFollows(hash, p, r, completion, now);
    UntouchedReuses(p, q, hash, r);
    assert ReuseOk(p, hash, r);
    AcceptedReuseOk(p, q, hash, r, completion);
  }

  lemma LapseKeepsReuse(hash: Identity -> string, p: Plane, r: nat, now: int)
    requires Inv(p) && ReuseInv(p, hash) && CanLapse(p, r, now)
    ensures ReuseInv(Lapsed(p, r, now), hash)
  {
    var q := Lapsed(p, r, now);
    ClosedFollows(p, r, LapseClosing(p.runs[r]), now);
    UntouchedReuses(p, q, hash, r);
    assert ReuseOk(p, hash, r);
    UntouchedReuse(p, q, hash, r);
  }

  lemma BeatKeepsReuse(hash: Identity -> string, p: Plane, r: nat, now: int, expiresAt: int)
    requires Inv(p) && ReuseInv(p, hash) && Leased(p, r)
    ensures ReuseInv(RunBeaten(p, r, now, expiresAt), hash)
  {
    var q := RunBeaten(p, r, now, expiresAt);
    BeatenFollows(p, r, now, expiresAt);
    UntouchedReuses(p, q, hash, r);
    assert ReuseOk(p, hash, r);
    UntouchedReuse(p, q, hash, r);
  }

  lemma ClaimKeepsReuse(
    hash: Identity -> string, p: Plane, w: string, o: nat, seen: Option<Profile>, eligible: nat, now: int,
    expiresAt: int)
    requires ReuseInv(p, hash) && CanClaim(p, w, o, seen)
    ensures ReuseInv(Claimed(p, w, o, seen, eligible, now, expiresAt), hash)
  {
    var q := Claimed(p, w, o, seen, eligible, now, expiresAt);
    ClaimedFollows(p, w, o, seen, eligible, now, expiresAt);
    UntouchedReuses(p, q, hash, -1);
    assert ReuseOk(q, hash, |p.runs|);
  }

  lemma ResolveKeepsReuse(
    hash: Identity -> string, p: Plane, r: nat, w: string, identity: Identity, identityHash: string, now: int)
    requires Inv(p) && ReuseInv(p, hash) && CanResolve(p, hash, r, w, identity, identityHash, now)
    ensures ReuseInv(WithReuse(p, r, Resolved(p, hash, r, w, identity, identityHash, now)), hash)
  {
    var c := LookedUp(p, hash, r, w, identity, identityHash, now);
    var record := ResolvedRecord(p.runs[r].reuse, identity, identityHash, c);
    var q := WithReuse(p, r, record);
    ReusedFollows(p, r, record);
    UntouchedReuses(p, q, hash, r);
    ActiveRows(p, r);
    assert ReuseOk(p, hash, r);
    if c.Some? {
      assert SourceOk(p, r, c.value.source, identity, c.value.fingerprint);
      SourceSurvives(p, q, r, c.value.source, identity, c.value.fingerprint);
    }
    assert ReuseOk(q, hash, r);
  }

  lemma ChangeKeepsReuse(hash: Identity -> string, p: Plane, c: Change)
    requires Inv(p) && ReuseInv(p, hash) && Legal(hash, p, c)
    ensures ReuseInv(Perform(hash, p, c), hash)
  {
    match c {
      case Claiming(w, o, seen, eligible, now, expiresAt) =>
        ClaimKeepsReuse(hash, p, w, o, seen, eligible, now, expiresAt);
      case Beating(r, w, now, expiresAt) => BeatKeepsReuse(hash, p, r, now, expiresAt);
      case Resolving(r, w, identity, identityHash, now) =>
        ResolveKeepsReuse(hash, p, r, w, identity, identityHash, now);
      case Finishing(r, completion, now) => FinishKeepsReuse(hash, p, r, completion, now);
      case Lapsing(r, now) => LapseKeepsReuse(hash, p, r, now);
      case _ =>
        ChangeFollows(hash, p, c);
        UntouchedReuses(p, Perform(hash, p, c), hash, -1);
    }
  }

  lemma EventKeepsReuse(hash: Identity -> string, p: Plane, e: Event)
    requires Inv(p) && ReuseInv(p, hash)
    ensures ReuseInv(Apply(hash, p, e), hash)
  {
    var c := EventDoes(hash, p, e);
    ChangeKeepsReuse(hash, p, c);
  }

  lemma {:induction false} TraceKeepsReuse(hash: Identity -> string, p: Plane, es: seq<Event>)
    requires Inv(p) && ReuseInv(p, hash)
    ensures Inv(Trace(hash, p, es)) && ReuseInv(Trace(hash, p, es), hash)
    decreases |es|
  {
    if es != [] {
      EventKeepsInv(hash, p, es[0]);
      EventKeepsReuse(hash, p, es[0]);
      TraceKeepsReuse(hash, Apply(hash, p, es[0]), es[1..]);
    }
  }

  /** After any run of events, a reused run names a different run of the same worker that
      succeeded with fresh evidence of an equal identity and reuses nothing itself, only
      opted-in orders reuse, and every success of an exact-only order is reused; after any
      further run of events the source row is still the very same row. */
  lemma ReuseProvenance(hash: Identity -> string, p: Plane, es: seq<Event>, r: nat)
    requires Inv(p) && ReuseInv(p, hash) && r < |p.runs|
    ensures p.runs[r].order < |p.orders|
    ensures p.runs[r].status == RunSucceeded && p.orders[p.runs[r].order].terms.reuse == RequireExact ==>
              p.runs[r].reuse.decision == Reused
    ensures p.runs[r].reuse.decision == Reused ==>
              && p.runs[r].reuse.source.Some?
              && p.runs[r].reuse.identity.Some? && p.runs[r].reuse.sourceFingerprint.Some?
              && var s := p.runs[r].reuse.source.value;
              && SourceOk(p, r, s, p.runs[r].reuse.identity.value, p.runs[r].reuse.sourceFingerprint.value)
              && p.orders[p.runs[r].order].terms.reuse != Never
              && s < |Trace(hash, p, es).runs| && r < |Trace(hash, p, es).runs|
              && Trace(hash, p, es).runs[s] == p.runs[s]
              && Trace(hash, p, es).runs[r] == p.runs[r]
  {
    assert ReuseOk(p, hash, r);
    HistoryIsKept(hash, p, es);
    assert RunLater(p.runs[r], Trace(hash, p, es).runs[r]);
    if p.runs[r].reuse.decision == Reused {
      var s := p.runs[r].reuse.source.value;
      assert RunLater(p.runs[s], Trace(hash, p, es).runs[s]);
    }
  }

  lemma EveryRunKeepsReuse(hash: Identity -> string, es: seq<Event>)
    ensures ReuseInv(Trace(hash, EMPTY_PLANE, es), hash)
  {
    EmptyPlaneOk();
    TraceKeepsReuse(hash, EMPTY_PLANE, es);
  }
}
