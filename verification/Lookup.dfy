/**
 The lookup of a reusable run, in terms of the rows it reads, and what it finds of earlier
 completions.
 */
module Lookup {
  import opened Options
  import opened Lifecycle
  import opened Tables
  import opened Reuse
  import opened Events
  import opened PlaneInvariant
  import opened PlaneSteps
  import opened PlaneTheorems
  import opened ReuseTheorems
  import opened EvidenceTheorems

  /** Row `s` answers the query of worker `w`: a fresh success of its own under the same
      identity hash, subject and execution policy. */
  predicate Answers(p: Plane, s: nat, w: string, terms: Terms, identityHash: string) {
    && s < |p.runs| && p.runs[s].order < |p.orders|
    && p.runs[s].worker == w && p.runs[s].status == RunSucceeded
    && p.runs[s].reuse.decision == Fresh && p.runs[s].reuse.identityHash == Some(identityHash)
    && p.orders[p.runs[s].order].terms.subject == terms.subject
    && p.orders[p.runs[s].order].terms.policyHash == terms.policyHash
  }

  predicate Competes(p: Plane, run: nat, w: string, terms: Terms, identityHash: string, t: nat) {
    t != run && Answers(p, t, w, terms, identityHash)
  }

  /** Answers newer than row `s`, up to row `top`, other than the asking run. */
  function Newer(p: Plane, s: nat, top: nat, run: nat, w: string, terms: Terms, identityHash: string): set<nat> {
    set t | s < t < top && Competes(p, run, w, terms, identityHash, t)
  }

  /** Evidence good enough to stand in for another run: it describes the identity, and its
      artifacts are distinct and were to be kept beyond its start. */
  predicate Sturdy(e: Evidence, identity: Identity, artifacts: seq<Artifact>, retention: int) {
    && e.fingerprint != ""
    && e.environment == identity.environment && e.locks == identity.locks
    && e.startedAt < retention
    && (forall i, j :: 0 <= i < j < |artifacts| ==> artifacts[i].path != artifacts[j].path)
  }

  /** Row `s` may be offered at time `now` for `identity`. */
  predicate Offerable(p: Plane, hash: Identity -> string, s: nat, identity: Identity, now: int) {
    && s < |p.runs| && p.runs[s].order < |p.orders|
    && var row := p.runs[s];
    && var order := p.orders[row.order];
    // the order and the run succeeded, and the worker still serves the repository
    && order.status == Succeeded && order.finishedAt.Some?
    && row.status == RunSucceeded && row.finishedAt.Some?
    && row.worker in p.workers
    && order.terms.subject.repository in ServedRepositories(p.workers[row.worker])
    // fresh, under exactly this identity
    && row.reuse == ReuseRecord(Fresh, Some(identity), Some(hash(identity)), None, None, None)
    // evidence of this very run, with matching provenance
    && row.evidence.Some?
    && var e := row.evidence.value;
    && e.run == s && e.order == row.order && e.worker == row.worker && e.status == RunSucceeded
    && e.subject == identity.subject && e.artifacts == row.artifacts
    && e.provenance == Some(Provenance(Fresh, hash(identity), None, None))
    // still kept, all artifacts as long as the run says
    && row.retention.Some? && now < row.retention.value
    && (forall i :: 0 <= i < |row.artifacts| ==> row.artifacts[i].retention == row.retention.value)
    && Sturdy(e, identity, row.artifacts, row.retention.value)
  }

  /** What is handed out about row `s`. */
  predicate Describes(p: Plane, hash: Identity -> string, s: nat, identity: Identity, c: ReuseCandidate) {
    && s < |p.runs| && p.runs[s].evidence.Some? && p.runs[s].retention.Some?
    && c == ReuseCandidate(s, p.runs[s].worker, p.runs[s].evidence.value.fingerprint, identity, hash(identity),
                           p.runs[s].evidence.value.startedAt, p.runs[s].retention.value, p.runs[s].artifacts)
  }

  /** One row: validation passes exactly what may be offered, and describes it. */
  lemma ValidatedIff(p: Plane, hash: Identity -> string, s: nat, identity: Identity, now: int)
    requires s < |p.runs| && p.runs[s].order < |p.orders|
    ensures var c := ValidatedCandidate(p, hash, s, identity, now);
            && (c.Some? <==> Offerable(p, hash, s, identity, now))
            && (c.Some? ==> Describes(p, hash, s, identity, c.value))
  {
  }

  lemma MatchesIff(p: Plane, run: nat, w: string, terms: Terms, identityHash: string, s: nat)
    requires s < |p.runs| && p.runs[s].order < |p.orders|
    ensures MatchesQuery(p, run, w, terms, identityHash, s) <==> Competes(p, run, w, terms, identityHash, s)
  {
  }

  /** Row `s` is one the lookup of run `run` may return. */
  predicate Usable(
    p: Plane, hash: Identity -> string, run: nat, w: string, terms: Terms, identity: Identity, identityHash: string,
    now: int, s: nat)
  {
    Competes(p, run, w, terms, identityHash, s) && Offerable(p, hash, s, identity, now)
  }

  /** The lookup over the rows below `top`, among the newest `budget` answers. */
  ghost predicate LookedUpRight(
    p: Plane, hash: Identity -> string, run: nat, w: string, terms: Terms, identity: Identity, identityHash: string,
    now: int, top: nat, budget: nat, c: Option<ReuseCandidate>)
  {
    match c
    case Some(found) =>
      && found.source < top
      && Usable(p, hash, run, w, terms, identity, identityHash, now, found.source)
      && Describes(p, hash, found.source, identity, found)
      && (forall t: nat :: found.source < t < top ==> !Usable(p, hash, run, w, terms, identity, identityHash, now, t))
      && |Newer(p, found.source, top, run, w, terms, identityHash)| < budget
    case None =>
      forall s: nat :: s < top && Usable(p, hash, run, w, terms, identity, identityHash, now, s) ==>
        |Newer(p, s, top, run, w, terms, identityHash)| >= budget
  }

  lemma NewerGrows(p: Plane, s: nat, top: nat, run: nat, w: string, terms: Terms, identityHash: string)
    requires s < top - 1
    ensures |Newer(p, s, top, run, w, terms, identityHash)|
            == |Newer(p, s, top - 1, run, w, terms, identityHash)|
               + (if Competes(p, run, w, terms, identityHash, top - 1) then 1 else 0)
  {
    var below, all := Newer(p, s, top - 1, run, w, terms, identityHash), Newer(p, s, top, run, w, terms, identityHash);
    var last := if Competes(p, run, w, terms, identityHash, top - 1) then {top - 1} else {};
    forall t: nat
      ensures t in all <==> t in below + last
    {
    }
    assert all == below + last;
  }

  /** Going down one row that is not returned. */
  lemma LookupStep(
    p: Plane, hash: Identity -> string, run: nat, w: string, terms: Terms, identity: Identity, identityHash: string,
    now: int, top: nat, budget: nat, c: Option<ReuseCandidate>)
    requires top > 0 && budget > 0
    requires !Usable(p, hash, run, w, terms, identity, identityHash, now, top - 1)
    requires var more := if Competes(p, run, w, terms, identityHash, top - 1) then budget - 1 else budget;
             LookedUpRight(p, hash, run, w, terms, identity, identityHash, now, top - 1, more, c)
    ensures LookedUpRight(p, hash, run, w, terms, identity, identityHash, now, top, budget, c)
  {
    forall s: nat | s < top - 1
      ensures |Newer(p, s, top, run, w, terms, identityHash)|
              == |Newer(p, s, top - 1, run, w, terms, identityHash)|
                 + (if Competes(p, run, w, terms, identityHash, top - 1) then 1 else 0)
    {
      NewerGrows(p, s, top, run, w, terms, identityHash);
    }
  }

  lemma LookupHit(
    p: Plane, hash: Identity -> string, run: nat, w: string, terms: Terms, identity: Identity, identityHash: string,
    now: int, top: nat, budget: nat)
    requires 0 < top <= |p.runs| && budget > 0
    requires Usable(p, hash, run, w, terms, identity, identityHash, now, top - 1)
    ensures LookedUpRight(p, hash, run, w, terms, identity, identityHash, now, top, budget,
                          ValidatedCandidate(p, hash, top - 1, identity, now))
  {
    ValidatedIff(p, hash, top - 1, identity, now);
    assert Newer(p, top - 1, top, run, w, terms, identityHash) == {};
  }

  /** The lookup returns the newest usable row among the newest `budget` answers, described
      by its columns, and nothing only if there is none. */
  lemma {:induction false} LookupIsExact(
    p: Plane, hash: Identity -> string, run: nat, w: string, terms: Terms, identity: Identity, identityHash: string,
    now: int, top: nat, budget: nat)
    requires top <= |p.runs| && SourcesKnown(p)
    ensures LookedUpRight(p, hash, run, w, terms, identity, identityHash, now, top, budget,
                          NewestCandidate(p, hash, run, w, terms, identity, identityHash, now, top, budget))
    decreases top
  {
    if top > 0 && budget > 0 {
      MatchesIff(p, run, w, terms, identityHash, top - 1);
      ValidatedIff(p, hash, top - 1, identity, now);
      if Usable(p, hash, run, w, terms, identity, identityHash, now, top - 1) {
        LookupHit(p, hash, run, w, terms, identity, identityHash, now, top, budget);
      } else {
        var more := if MatchesQuery(p, run, w, terms, identityHash, top - 1) then budget - 1 else budget;
        LookupIsExact(p, hash, run, w, terms, identity, identityHash, now, top - 1, more);
        var c := NewestCandidate(p, hash, run, w, terms, identity, identityHash, now, top - 1, more);
        LookupStep(p, hash, run, w, terms, identity, identityHash, now, top, budget, c);
      }
    }
  }

  /** What the lookup of a live lease returns. */
  lemma ResolveIsExact(
    p: Plane, hash: Identity -> string, r: nat, w: string, identity: Identity, identityHash: string, now: int)
    requires CanResolve(p, hash, r, w, identity, identityHash, now)
    ensures LookedUpRight(p, hash, r, w, p.orders[p.leases[r].order].terms, identity, identityHash, now,
                          |p.runs|, 32, LookedUp(p, hash, r, w, identity, identityHash, now))
  {
    LookupIsExact(p, hash, r, w, p.orders[p.leases[r].order].terms, identity, identityHash, now, |p.runs|, 32);
  }

  // ----- from a completion to a later lookup -----

  /** A fresh success that was reported as such stays as it was stored, whatever happens. */
  lemma FreshSuccessStays(
    p: Plane, hash: Identity -> string, s: nat, w: string, completion: Completion, e: Evidence, identity: Identity,
    retention: int, at: int, es: seq<Event>)
    requires Inv(p) && OwnsLive(p, s, w, at) && !AtCeiling(p, s)
    requires FreshReport(p, hash, s, completion, e, identity, retention) && completion.status == RunSucceeded
    ensures var z := Trace(hash, Apply(hash, p, Complete(s, w, completion, at)), es);
            && s < |z.runs| && z.runs[s].order < |z.orders| && s !in z.leases
            && z.runs[s].order == p.leases[s].order && z.runs[s].worker == w
            && z.runs[s].status == RunSucceeded && z.runs[s].finishedAt == Some(at)
            && z.runs[s].evidence == Some(e) && z.runs[s].artifacts == e.artifacts
            && z.runs[s].retention == Some(retention)
            && z.runs[s].reuse == ReuseRecord(Fresh, Some(identity), Some(hash(identity)), None, None, None)
            && z.orders[z.runs[s].order].status == Succeeded && z.orders[z.runs[s].order].finishedAt == Some(at)
            && z.orders[z.runs[s].order].terms == p.orders[p.leases[s].order].terms
  {
    var q := Apply(hash, p, Complete(s, w, completion, at));
    ActiveRows(p, s);
    FreshReportIsStored(p, hash, s, w, completion, e, identity, retention, at);
    CompleteApplies(hash, p, s, w, completion, at);
    EventKeepsInv(hash, p, Complete(s, w, completion, at));
    HistoryIsKept(hash, q, es);
    var z := Trace(hash, q, es);
    assert RunLater(q.runs[s], z.runs[s]) && OrderLater(q.orders[q.runs[s].order], z.orders[q.runs[s].order]);
    TraceKeepsInv(hash, q, es);
    assert RunOk(z, s);
  }

  /** End to end: a worker's fresh success, reported and accepted at time `at`, can be used by
      the same worker's later lookup of the same identity, for another run and after any
      operations in between, exactly as long as its retention has not ended, the worker still
      serves the repository and the evidence is sturdy. Unless 32 newer answers hide it, that
      lookup then returns it or a newer usable run. */
  lemma FreshSuccessIsFound(
    p: Plane, hash: Identity -> string, s: nat, w: string, completion: Completion, e: Evidence, identity: Identity,
    retention: int, at: int, es: seq<Event>, r: nat, now: int)
    requires Inv(p) && OwnsLive(p, s, w, at) && !AtCeiling(p, s)
    requires FreshReport(p, hash, s, completion, e, identity, retention) && completion.status == RunSucceeded
    requires CanResolve(Trace(hash, Apply(hash, p, Complete(s, w, completion, at)), es),
                        hash, r, w, identity, hash(identity), now)
    ensures var z := Trace(hash, Apply(hash, p, Complete(s, w, completion, at)), es);
            var terms := z.orders[z.leases[r].order].terms;
            var c := LookedUp(z, hash, r, w, identity, hash(identity), now);
            && s < |z.runs| && w in z.workers
            && (Usable(z, hash, r, w, terms, identity, hash(identity), now, s) <==>
                && now < retention
                && identity.subject.repository in ServedRepositories(z.workers[w])
                && Sturdy(e, identity, e.artifacts, retention))
            && (Usable(z, hash, r, w, terms, identity, hash(identity), now, s)
                && |Newer(z, s, |z.runs|, r, w, terms, hash(identity))| < 32 ==>
                  c.Some? && c.value.source >= s)
            && (c.Some? && c.value.source == s ==>
                  c.value == ReuseCandidate(s, w, e.fingerprint, identity, hash(identity), e.startedAt, retention,
                                            e.artifacts))
  {
    var z := Trace(hash, Apply(hash, p, Complete(s, w, completion, at)), es);
    FreshSuccessStays(p, hash, s, w, completion, e, identity, retention, at, es);
    ResolveIsExact(z, hash, r, w, identity, hash(identity), now);
    ActiveRows(p, s);
    FoundIff(z, hash, s, w, e, identity, retention, r, now);
  }

  lemma FoundIff(
    z: Plane, hash: Identity -> string, s: nat, w: string, e: Evidence, identity: Identity, retention: int, r: nat,
    now: int)
    requires CanResolve(z, hash, r, w, identity, hash(identity), now)
    requires s < |z.runs| && s != r && z.runs[s].order < |z.orders| && z.runs[s].worker == w
    requires z.runs[s].status == RunSucceeded && z.runs[s].finishedAt.Some?
    requires z.runs[s].evidence == Some(e) && z.runs[s].artifacts == e.artifacts
    requires z.runs[s].retention == Some(retention)
    requires z.runs[s].reuse == ReuseRecord(Fresh, Some(identity), Some(hash(identity)), None, None, None)
    requires z.orders[z.runs[s].order].status == Succeeded && z.orders[z.runs[s].order].finishedAt.Some?
    requires z.orders[z.runs[s].order].terms.subject == identity.subject
    requires z.orders[z.runs[s].order].terms.policyHash == identity.policyHash
    requires e.run == s && e.order == z.runs[s].order && e.worker == w && e.status == RunSucceeded
    requires e.subject == identity.subject && e.provenance == Some(Provenance(Fresh, hash(identity), None, None))
    requires UniformRetention(e.artifacts, retention)
    ensures w in z.workers
    ensures Usable(z, hash, r, w, z.orders[z.leases[r].order].terms, identity, hash(identity), now, s) <==>
            && now < retention
            && identity.subject.repository in ServedRepositories(z.workers[w])
            && Sturdy(e, identity, e.artifacts, retention)
  {
  }
}
