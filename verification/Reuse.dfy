/**
 Exact evidence reuse: which finished run may stand in for a live one, and which reuse
 columns a completion may leave behind. Identity hashing is a parameter.
 */
module Reuse {
  import opened Options
  import opened Lifecycle
  import opened Tables

  /** Only the newest rows matching the source query are examined. */
  const MAX_EXACT_REUSE_CANDIDATES: nat := 32

  function LockPaths(locks: seq<(string, string)>): (paths: seq<string>)
    ensures |paths| == |locks|
    ensures forall i :: 0 <= i < |locks| ==> paths[i] == locks[i].0
  {
    seq(|locks|, i requires 0 <= i < |locks| => locks[i].0)
  }

  predicate IdentityFits(terms: Terms, identity: Identity) {
    && identity.subject == terms.subject
    && identity.policyHash == terms.policyHash
    && identity.contractHash == terms.contractHash
    && LockPaths(identity.locks) == terms.lockPaths
  }

  /** The row filter of the source query. */
  predicate MatchesQuery(p: Plane, run: nat, worker: string, terms: Terms, identityHash: string, s: nat)
    requires s < |p.runs| && p.runs[s].order < |p.orders|
  {
    var row := p.runs[s];
    var order := p.orders[row.order];
    && s != run
    && row.worker == worker
    && row.status == RunSucceeded
    && row.reuse.decision == Fresh
    && row.reuse.identityHash == Some(identityHash)
    && order.terms.subject == terms.subject
    && order.terms.policyHash == terms.policyHash
  }

  predicate DistinctPaths(artifacts: seq<Artifact>) {
    forall i, j :: 0 <= i < j < |artifacts| ==> artifacts[i].path != artifacts[j].path
  }

  predicate UniformRetention(artifacts: seq<Artifact>, retention: int) {
    forall i :: 0 <= i < |artifacts| ==> artifacts[i].retention == retention
  }

  function ServedRepositories(worker: Worker): seq<string> {
    if worker.repositories == [] then [DEFAULT_REPOSITORY] else worker.repositories
  }

  /** The strict eligibility test of one source row; `None` fails the candidate closed. */
  function ValidatedCandidate(
    p: Plane, hash: Identity -> string, s: nat, identity: Identity, now: int): (c: Option<ReuseCandidate>)
    requires s < |p.runs| && p.runs[s].order < |p.orders|
    ensures c.Some? ==> c.value.source == s && c.value.worker == p.runs[s].worker
    ensures c.Some? ==> c.value.identity == identity && c.value.identityHash == hash(identity)
    ensures c.Some? ==> p.runs[s].evidence.Some? && c.value.fingerprint == p.runs[s].evidence.value.fingerprint
    ensures c.Some? ==> p.runs[s].status == RunSucceeded && p.runs[s].reuse.decision == Fresh
    ensures c.Some? ==> p.runs[s].reuse.source.None? && p.runs[s].reuse.identity == Some(identity)
  {
    var row := p.runs[s];
    var order := p.orders[row.order];
    if row.evidence.None? || row.reuse.identity.None? || row.retention.None? || row.finishedAt.None? then None
    else
      var evidence := row.evidence.value;
      var stored := row.reuse.identity.value;
      var retention := row.retention.value;
      if  && row.worker in p.workers
          && order.terms.subject.repository in ServedRepositories(p.workers[row.worker])
          && order.status == Succeeded
          && order.finishedAt.Some?
          && row.status == RunSucceeded
          && row.reuse.decision == Fresh
          && row.reuse.source.None?
          && row.reuse.sourceFingerprint.None?
          && row.reuse.candidate.None?
          && retention > now
          && stored == identity
          && row.reuse.identityHash == Some(hash(stored))
          && evidence.fingerprint != ""
          && evidence.run == s
          && evidence.order == row.order
          && evidence.worker == row.worker
          && evidence.status == RunSucceeded
          && evidence.artifacts == row.artifacts
          && UniformRetention(row.artifacts, retention)
          && evidence.provenance.Some?
          && evidence.provenance.value.decision == Fresh
          && evidence.provenance.value.source.None?
          && evidence.provenance.value.sourceFingerprint.None?
          && Some(evidence.provenance.value.identityHash) == row.reuse.identityHash
          && stored.subject == evidence.subject
          && stored.environment == evidence.environment
          && stored.locks == evidence.locks
          && retention > evidence.startedAt
          && DistinctPaths(row.artifacts)
      then Some(ReuseCandidate(s, row.worker, evidence.fingerprint, stored, hash(stored),
                               evidence.startedAt, retention, row.artifacts))
      else None
  }

  /** The newest acceptable source below row `top`, looking at no more than `budget`
      rows that match the query. */
  function NewestCandidate(
    p: Plane, hash: Identity -> string, run: nat, worker: string, terms: Terms,
    identity: Identity, identityHash: string, now: int, top: nat, budget: nat): (c: Option<ReuseCandidate>)
    requires top <= |p.runs|
    requires forall s :: 0 <= s < |p.runs| ==> p.runs[s].order < |p.orders|
    ensures c.Some? ==>
              && c.value.source < top
              && MatchesQuery(p, run, worker, terms, identityHash, c.value.source)
              && ValidatedCandidate(p, hash, c.value.source, identity, now) == c
  {
    if top == 0 || budget == 0 then None
    else if !MatchesQuery(p, run, worker, terms, identityHash, top - 1) then
      NewestCandidate(p, hash, run, worker, terms, identity, identityHash, now, top - 1, budget)
    else if ValidatedCandidate(p, hash, top - 1, identity, now).Some? then
      ValidatedCandidate(p, hash, top - 1, identity, now)
    else
      NewestCandidate(p, hash, run, worker, terms, identity, identityHash, now, top - 1, budget - 1)
  }

  /** Keys returned by the source query over the rows below `top`: newest first, at most
      `budget` of them. */
  function MatchingSources(
    p: Plane, run: nat, worker: string, terms: Terms, identityHash: string, top: nat, budget: nat): (keys: seq<nat>)
    requires top <= |p.runs|
    requires forall s :: 0 <= s < |p.runs| ==> p.runs[s].order < |p.orders|
    ensures |keys| <= budget && forall i :: 0 <= i < |keys| ==> keys[i] < top
  {
    if top == 0 || budget == 0 then []
    else if !MatchesQuery(p, run, worker, terms, identityHash, top - 1) then
      MatchingSources(p, run, worker, terms, identityHash, top - 1, budget)
    else [top - 1] + MatchingSources(p, run, worker, terms, identityHash, top - 1, budget - 1)
  }

  /** One row of the listing, after the keys found above it. */
  lemma NextSource(
    p: Plane, run: nat, worker: string, terms: Terms, identityHash: string, keys: seq<nat>, top: nat, budget: nat)
    requires top < |p.runs|
    requires forall s :: 0 <= s < |p.runs| ==> p.runs[s].order < |p.orders|
    ensures keys + MatchingSources(p, run, worker, terms, identityHash, top + 1, budget)
            == if budget > 0 && MatchesQuery(p, run, worker, terms, identityHash, top)
               then keys + [top] + MatchingSources(p, run, worker, terms, identityHash, top, budget - 1)
               else keys + MatchingSources(p, run, worker, terms, identityHash, top, budget)
  {
    if budget > 0 && MatchesQuery(p, run, worker, terms, identityHash, top) {
      var rest := MatchingSources(p, run, worker, terms, identityHash, top, budget - 1);
      assert keys + ([top] + rest) == keys + [top] + rest;
    }
  }

  /** The first of the listed rows that passes validation. */
  function FirstValidated(
    p: Plane, hash: Identity -> string, keys: seq<nat>, identity: Identity, now: int): Option<ReuseCandidate>
    requires forall i :: 0 <= i < |keys| ==> keys[i] < |p.runs| && p.runs[keys[i]].order < |p.orders|
  {
    if keys == [] then None
    else if ValidatedCandidate(p, hash, keys[0], identity, now).Some?
      then ValidatedCandidate(p, hash, keys[0], identity, now)
    else FirstValidated(p, hash, keys[1..], identity, now)
  }

  /** Listing and then validating finds the newest acceptable source. */
  lemma {:induction false} ListThenValidate(
    p: Plane, hash: Identity -> string, run: nat, worker: string, terms: Terms,
    identity: Identity, identityHash: string, now: int, top: nat, budget: nat)
    requires top <= |p.runs|
    requires forall s :: 0 <= s < |p.runs| ==> p.runs[s].order < |p.orders|
    ensures FirstValidated(p, hash, MatchingSources(p, run, worker, terms, identityHash, top, budget), identity, now)
            == NewestCandidate(p, hash, run, worker, terms, identity, identityHash, now, top, budget)
  {
    if top > 0 && budget > 0 {
      var more := if MatchesQuery(p, run, worker, terms, identityHash, top - 1) then budget - 1 else budget;
      ListThenValidate(p, hash, run, worker, terms, identity, identityHash, now, top - 1, more);
    }
  }

  /** Row `s` answers the query but may not be reused. */
  predicate PassedOver(
    p: Plane, hash: Identity -> string, run: nat, worker: string, terms: Terms,
    identity: Identity, identityHash: string, now: int, s: nat)
    requires s < |p.runs| && p.runs[s].order < |p.orders|
  {
    MatchesQuery(p, run, worker, terms, identityHash, s) ==> ValidatedCandidate(p, hash, s, identity, now).None?
  }

  /** No newer row than the one found could have been used, and if nothing was found with
      room left in the listing, no row at all could. */
  lemma {:induction false} NewestIsNewest(
    p: Plane, hash: Identity -> string, run: nat, worker: string, terms: Terms,
    identity: Identity, identityHash: string, now: int, top: nat, budget: nat)
    requires top <= |p.runs|
    requires forall s :: 0 <= s < |p.runs| ==> p.runs[s].order < |p.orders|
    ensures var c := NewestCandidate(p, hash, run, worker, terms, identity, identityHash, now, top, budget);
            && (c.Some? ==> forall s: nat :: c.value.source < s < top ==>
                  PassedOver(p, hash, run, worker, terms, identity, identityHash, now, s))
            && (c.None? && |MatchingSources(p, run, worker, terms, identityHash, top, budget)| < budget ==>
                  forall s: nat :: s < top ==> PassedOver(p, hash, run, worker, terms, identity, identityHash, now, s))
  {
    if top > 0 && budget > 0 {
      var matches := MatchesQuery(p, run, worker, terms, identityHash, top - 1);
      if !matches || ValidatedCandidate(p, hash, top - 1, identity, now).None? {
        var more := if matches then budget - 1 else budget;
        assert PassedOver(p, hash, run, worker, terms, identity, identityHash, now, top - 1);
        NewestIsNewest(p, hash, run, worker, terms, identity, identityHash, now, top - 1, more);
      }
    }
  }

  /** Lookups do not depend on the history variable. */
  lemma {:induction false} LookupIgnoresLedger(
    p: Plane, q: Plane, hash: Identity -> string, run: nat, worker: string, terms: Terms,
    identity: Identity, identityHash: string, now: int, top: nat, budget: nat)
    requires q == p.(ledger := map[]) && top <= |p.runs|
    requires forall s :: 0 <= s < |p.runs| ==> p.runs[s].order < |p.orders|
    ensures NewestCandidate(p, hash, run, worker, terms, identity, identityHash, now, top, budget)
            == NewestCandidate(q, hash, run, worker, terms, identity, identityHash, now, top, budget)
  {
    if top > 0 && budget > 0 {
      var more := if MatchesQuery(p, run, worker, terms, identityHash, top - 1) then budget - 1 else budget;
      LookupIgnoresLedger(p, q, hash, run, worker, terms, identity, identityHash, now, top - 1, more);
    }
  }

  /** The reuse columns after a lookup by the lease owner. */
  function ResolvedRecord(
    previous: ReuseRecord, identity: Identity, identityHash: string, c: Option<ReuseCandidate>): ReuseRecord
  {
    ReuseRecord(if c.Some? then CandidateAvailable else Unavailable,
                Some(identity), Some(identityHash), previous.source, previous.sourceFingerprint, c)
  }

  /** Why a completion is declined. */
  datatype Objection =
    | ArtifactsWithoutEvidence | EvidenceIdentityMismatch
    | ProvenanceMismatch | ProvenanceIdentityMismatch | ProvenanceSourceMismatch
    | RetentionMissing | RetentionMismatch | LegacyRetention | RetentionWithoutEvidence
    | InvalidDecision | FreshForbidden | UnavailableWithoutOptIn | UnavailableSucceeded
    | IdentityOrderMismatch | IdentityHashMismatch | EvidenceWithoutIdentity
    | CandidateMissing | CandidateMismatch

  datatype Verdict = Accepted(record: ReuseRecord) | Declined(reason: Objection)

  /** Worker evidence must name exactly the leased run and its order. */
  function EvidenceRefusal(p: Plane, run: nat, completion: Completion): Option<Objection>
    requires run < |p.runs| && p.runs[run].order < |p.orders|
  {
    var row := p.runs[run];
    match completion.evidence
    case None => if completion.artifacts != [] then Some(ArtifactsWithoutEvidence) else None
    case Some(e) =>
      if  && e.run == run
          && e.order == row.order
          && e.worker == row.worker
          && e.subject == p.orders[row.order].terms.subject
          && e.status == completion.status
          && e.artifacts == completion.artifacts
      then None
      else Some(EvidenceIdentityMismatch)
  }

  /** The decision a completion stands for once defaults are filled in. */
  function EffectiveDecision(policy: ReusePolicy, completion: Completion): Option<ReuseDecision> {
    if completion.decision.Some? then completion.decision
    else if policy == Never then Some(Fresh)
    else if completion.status != RunSucceeded && completion.evidence.None? then Some(Unavailable)
    else None
  }

  /** Whether the submitted evidence agrees with the provenance the server derived. */
  function ProvenanceRefusal(
    completion: Completion, decision: ReuseDecision, legacy: bool, identityHash: Option<string>,
    source: Option<nat>, fingerprint: Option<string>): Option<Objection>
  {
    if completion.evidence.Some? && !legacy then
      var evidence := completion.evidence.value;
      if evidence.provenance.None? || evidence.provenance.value.decision != decision then
        Some(ProvenanceMismatch)
      else if Some(evidence.provenance.value.identityHash) != identityHash then
        Some(ProvenanceIdentityMismatch)
      else if evidence.provenance.value.source != source
           || evidence.provenance.value.sourceFingerprint != fingerprint then
        Some(ProvenanceSourceMismatch)
      else if completion.retention.None? then
        Some(RetentionMissing)
      else if !UniformRetention(evidence.artifacts, completion.retention.value) then
        Some(RetentionMismatch)
      else None
    else if completion.retention.Some? then
      if legacy then Some(LegacyRetention)
      else Some(RetentionWithoutEvidence)
    else None
  }

  /** The reuse columns a completion leaves on its run, or why it is declined. */
  function CompletionVerdict(terms: Terms, row: Run, hash: Identity -> string, completion: Completion): (v: Verdict)
  {
    var decision := EffectiveDecision(terms.reuse, completion);
    if decision.None? || decision.value !in {Fresh, Reused, Unavailable} then
      Declined(InvalidDecision)
    else if terms.reuse == RequireExact && decision.value == Fresh then
      Declined(FreshForbidden)
    else if decision.value == Unavailable && terms.reuse == Never then
      Declined(UnavailableWithoutOptIn)
    else if decision.value == Unavailable && completion.status == RunSucceeded then
      Declined(UnavailableSucceeded)
    else
      var identity := if completion.identity.Some? then completion.identity else row.reuse.identity;
      var identityHash := if completion.identityHash.Some? then completion.identityHash else row.reuse.identityHash;
      if identity.Some? && !IdentityFits(terms, identity.value) then
        Declined(IdentityOrderMismatch)
      else if identity.Some? && identityHash != Some(hash(identity.value)) then
        Declined(IdentityHashMismatch)
      else
        var legacy := && terms.reuse == Never
                      && completion.evidence.Some?
                      && completion.evidence.value.provenance.None?
                      && identity.None?
                      && identityHash.None?;
        if completion.evidence.Some? && identity.None? && !legacy then
          Declined(EvidenceWithoutIdentity)
        else if decision.value == Reused && (row.reuse.candidate.None? || identity.None?) then
          Declined(CandidateMissing)
        else if decision.value == Reused
             && (row.reuse.candidate.value.identity != identity.value
                 || Some(row.reuse.candidate.value.identityHash) != identityHash) then
          Declined(CandidateMismatch)
        else
          var source := if decision.value == Reused then Some(row.reuse.candidate.value.source) else None;
          var fingerprint := if decision.value == Reused then Some(row.reuse.candidate.value.fingerprint) else None;
          var refusal := ProvenanceRefusal(completion, decision.value, legacy, identityHash, source, fingerprint);
          if refusal.Some? then Declined(refusal.value)
          else Accepted(ReuseRecord(decision.value, identity, identityHash, source, fingerprint, None))
  }

  /** What acceptance promises, whatever the worker submitted: a reused run copies a
      resolved candidate of the same identity and only an opted-in order may reuse, a
      fresh run names no source, an exact-only order cannot succeed unless reused, and a
      stored identity always fits the order under its own hash. */
  lemma AcceptedPromises(terms: Terms, row: Run, hash: Identity -> string, completion: Completion)
    requires CompletionVerdict(terms, row, hash, completion).Accepted?
    ensures var r := CompletionVerdict(terms, row, hash, completion).record;
            && r.candidate.None?
            && r.decision in {Fresh, Reused, Unavailable}
            && (r.decision != Reused ==> r.source.None? && r.sourceFingerprint.None?)
            && (r.decision == Reused ==>
                  && row.reuse.candidate.Some?
                  && r.source == Some(row.reuse.candidate.value.source)
                  && r.sourceFingerprint == Some(row.reuse.candidate.value.fingerprint)
                  && r.identity == Some(row.reuse.candidate.value.identity))
            && (r.identity.Some? ==>
                  IdentityFits(terms, r.identity.value) && r.identityHash == Some(hash(r.identity.value)))
            && (completion.status == RunSucceeded && terms.reuse == RequireExact ==> r.decision == Reused)
  {
  }

  /** A cancellation carries no evidence and no decision; it is always accepted for a run
      whose stored identity is coherent. */
  lemma CancellationAccepted(terms: Terms, row: Run, hash: Identity -> string)
    requires row.reuse.identity.Some? ==>
               && IdentityFits(terms, row.reuse.identity.value)
               && row.reuse.identityHash == Some(hash(row.reuse.identity.value))
    ensures CompletionVerdict(terms, row, hash, CANCELLATION).Accepted?
  {
  }

  const CANCELLATION := Completion(RunCancelled, [], None, None, None, None, None)
}
