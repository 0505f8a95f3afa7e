/**
 What a completion may leave behind: a completion is accepted exactly if nothing speaks
 against it, and stored evidence is genuine in every history.
 */
module EvidenceTheorems {
  import opened Options
  import opened Lifecycle
  import opened Tables
  import opened Reuse
  import opened Events
  import opened PlaneInvariant
  import opened Changes
  import opened PlaneSteps
  import opened PlaneTheorems

  // ----- acceptance -----

  /** The identity a completion stands for: its own, or the one already on the run. */
  function IdentityOf(row: Run, completion: Completion): Option<Identity> {
    if completion.identity.Some? then completion.identity else row.reuse.identity
  }

  function HashOf(row: Run, completion: Completion): Option<string> {
    if completion.identityHash.Some? then completion.identityHash else row.reuse.identityHash
  }

  /** Evidence from before provenance existed, kept only where reuse is off. */
  predicate IsLegacy(terms: Terms, row: Run, completion: Completion) {
    && terms.reuse == Never
    && completion.evidence.Some? && completion.evidence.value.provenance.None?
    && IdentityOf(row, completion).None? && HashOf(row, completion).None?
  }

  /** The decision that is stored: what was submitted, or a default. */
  function StoredDecision(terms: Terms, completion: Completion): ReuseDecision {
    match completion.decision
    case Some(d) => d
    case None => if terms.reuse == Never then Fresh else Unavailable
  }

  /** Provenance names the source exactly if the run reuses one. */
  predicate NamesSource(row: Run, decision: ReuseDecision, v: Provenance) {
    if decision == Reused then
      && row.reuse.candidate.Some?
      && v.source == Some(row.reuse.candidate.value.source)
      && v.sourceFingerprint == Some(row.reuse.candidate.value.fingerprint)
    else v.source.None? && v.sourceFingerprint.None?
  }

  /** The locks of an identity are those of the manifest, path by path. */
  predicate LocksMatch(locks: seq<(string, string)>, paths: seq<string>) {
    |locks| == |paths| && forall k :: 0 <= k < |locks| ==> locks[k].0 == paths[k]
  }

  /** What each objection says about the completion of run `r`, in terms of its columns. */
  predicate Objects(
    x: Objection, terms: Terms, r: nat, row: Run, hash: Identity -> string, completion: Completion)
  {
    var identity, identityHash := IdentityOf(row, completion), HashOf(row, completion);
    var legacy := IsLegacy(terms, row, completion);
    var decision := StoredDecision(terms, completion);
    match x
    case ArtifactsWithoutEvidence => completion.evidence.None? && completion.artifacts != []
    case EvidenceIdentityMismatch =>
      && completion.evidence.Some?
      && var e := completion.evidence.value;
      || e.run != r || e.order != row.order || e.worker != row.worker
      || e.subject != terms.subject || e.status != completion.status || e.artifacts != completion.artifacts
    case InvalidDecision =>
      || decision.NotRequested? || decision.Pending? || decision.CandidateAvailable?
      || (&& completion.decision.None? && terms.reuse != Never
          && (completion.status == RunSucceeded || completion.evidence.Some?))
    case FreshForbidden => terms.reuse == RequireExact && decision == Fresh
    case UnavailableWithoutOptIn => terms.reuse == Never && decision == Unavailable
    case UnavailableSucceeded => completion.status == RunSucceeded && completion.decision == Some(Unavailable)
    case IdentityOrderMismatch =>
      && identity.Some?
      && var i := identity.value;
      || i.subject != terms.subject || i.policyHash != terms.policyHash
      || i.contractHash != terms.contractHash || !LocksMatch(i.locks, terms.lockPaths)
    case IdentityHashMismatch => identity.Some? && identityHash != Some(hash(identity.value))
    case EvidenceWithoutIdentity => completion.evidence.Some? && identity.None? && !legacy
    case CandidateMissing => decision == Reused && (row.reuse.candidate.None? || identity.None?)
    case CandidateMismatch =>
      && decision == Reused && row.reuse.candidate.Some? && identity.Some?
      && (row.reuse.candidate.value.identity != identity.value
          || Some(row.reuse.candidate.value.identityHash) != identityHash)
    case ProvenanceMismatch =>
      && completion.evidence.Some? && !legacy
      && var v := completion.evidence.value.provenance;
      v.None? || v.value.decision != decision
    case ProvenanceIdentityMismatch =>
      && completion.evidence.Some? && completion.evidence.value.provenance.Some?
      && Some(completion.evidence.value.provenance.value.identityHash) != identityHash
    case ProvenanceSourceMismatch =>
      && completion.evidence.Some? && completion.evidence.value.provenance.Some?
      && !NamesSource(row, decision, completion.evidence.value.provenance.value)
    case RetentionMissing => completion.evidence.Some? && !legacy && completion.retention.None?
    case RetentionMismatch =>
      && completion.evidence.Some? && !legacy && completion.retention.Some?
      && exists i :: 0 <= i < |completion.evidence.value.artifacts|
                     && completion.evidence.value.artifacts[i].retention != completion.retention.value
    case LegacyRetention => legacy && completion.retention.Some?
    case RetentionWithoutEvidence => completion.evidence.None? && completion.retention.Some?
  }

  /** The record of an accepted completion. */
  function RecordDue(terms: Terms, row: Run, completion: Completion): ReuseRecord {
    var reused := StoredDecision(terms, completion) == Reused && row.reuse.candidate.Some?;
    ReuseRecord(StoredDecision(terms, completion), IdentityOf(row, completion), HashOf(row, completion),
                if reused then Some(row.reuse.candidate.value.source) else None,
                if reused then Some(row.reuse.candidate.value.fingerprint) else None,
                None)
  }

  predicate AboutEvidence(x: Objection) {
    x.ArtifactsWithoutEvidence? || x.EvidenceIdentityMismatch?
  }

  /** Evidence is refused exactly if it does not name the run, or artifacts lack it. */
  lemma EvidenceRefusedIff(p: Plane, r: nat, hash: Identity -> string, completion: Completion)
    requires r < |p.runs| && p.runs[r].order < |p.orders|
    ensures var terms := p.orders[p.runs[r].order].terms;
            match EvidenceRefusal(p, r, completion)
            case Some(x) => AboutEvidence(x) && Objects(x, terms, r, p.runs[r], hash, completion)
            case None => forall x :: AboutEvidence(x) ==> !Objects(x, terms, r, p.runs[r], hash, completion)
  {
  }

  /** The objection that is raised is a true one. */
  lemma DeclinedForCause(terms: Terms, r: nat, row: Run, hash: Identity -> string, completion: Completion)
    requires CompletionVerdict(terms, row, hash, completion).Declined?
    ensures var x := CompletionVerdict(terms, row, hash, completion).reason;
            !AboutEvidence(x) && Objects(x, terms, r, row, hash, completion)
  {
  }

  /** The order in which objections are looked for. */
  function Turn(x: Objection): nat {
    match x
    case ArtifactsWithoutEvidence => 0
    case EvidenceIdentityMismatch => 1
    case InvalidDecision => 2
    case FreshForbidden => 3
    case UnavailableWithoutOptIn => 4
    case UnavailableSucceeded => 5
    case IdentityOrderMismatch => 6
    case IdentityHashMismatch => 7
    case EvidenceWithoutIdentity => 8
    case CandidateMissing => 9
    case CandidateMismatch => 10
    case ProvenanceMismatch => 11
    case ProvenanceIdentityMismatch => 12
    case ProvenanceSourceMismatch => 13
    case RetentionMissing => 14
    case RetentionMismatch => 15
    case LegacyRetention => 16
    case RetentionWithoutEvidence => 17
  }

  /** Of the objections that apply, the first one is raised. */
  lemma DeclinedForFirst(
    terms: Terms, r: nat, row: Run, hash: Identity -> string, completion: Completion, x: Objection)
    requires CompletionVerdict(terms, row, hash, completion).Declined? && !AboutEvidence(x)
    requires Turn(x) < Turn(CompletionVerdict(terms, row, hash, completion).reason)
    ensures !Objects(x, terms, r, row, hash, completion)
  {
  }

  lemma AcceptedWithoutObjection(
    terms: Terms, r: nat, row: Run, hash: Identity -> string, completion: Completion, x: Objection)
    requires CompletionVerdict(terms, row, hash, completion).Accepted? && !AboutEvidence(x)
    ensures !Objects(x, terms, r, row, hash, completion)
    ensures CompletionVerdict(terms, row, hash, completion).record == RecordDue(terms, row, completion)
  {
  }

  /** A completion passes evidence and reuse validation exactly if no objection applies. */
  lemma AcceptedIff(p: Plane, r: nat, hash: Identity -> string, completion: Completion)
    requires r < |p.runs| && p.runs[r].order < |p.orders|
    ensures var terms, row := p.orders[p.runs[r].order].terms, p.runs[r];
            EvidenceRefusal(p, r, completion).None? && CompletionVerdict(terms, row, hash, completion).Accepted?
            <==> forall x :: !Objects(x, terms, r, row, hash, completion)
  {
    var terms, row := p.orders[p.runs[r].order].terms, p.runs[r];
    EvidenceRefusedIff(p, r, hash, completion);
    if CompletionVerdict(terms, row, hash, completion).Declined? {
      DeclinedForCause(terms, r, row, hash, completion);
    } else {
      forall x | !AboutEvidence(x)
        ensures !Objects(x, terms, r, row, hash, completion)
      {
        AcceptedWithoutObjection(terms, r, row, hash, completion, x);
      }
    }
  }

  /** A completion takes place exactly if it reports an end, its lease is the worker's and has
      not run out, no unspent reservation is at the revision ceiling, and no objection
      applies. */
  lemma CanCompleteIff(hash: Identity -> string, p: Plane, r: nat, w: string, completion: Completion, now: int)
    requires Inv(p)
    ensures r in p.leases ==> r < |p.runs| && p.runs[r].order < |p.orders|
    ensures CanComplete(p, hash, r, w, completion, now) <==>
            && completion.status in {RunSucceeded, RunFailed, RunTimedOut, RunCancelled}
            && r in p.leases && p.leases[r].worker == w && now <= p.leases[r].expiresAt
            && !AtCeiling(p, r)
            && forall x :: !Objects(x, p.orders[p.runs[r].order].terms, r, p.runs[r], hash, completion)
  {
    if r in p.leases {
      ClosableIff(p, r);
      ActiveRows(p, r);
      AcceptedIff(p, r, hash, completion);
    }
  }

  // ----- genuine evidence -----

  /** Evidence `e` names run `r`, its order, its worker, what was validated, the outcome and
      the artifacts. */
  predicate Names(e: Evidence, r: nat, row: Run, subject: Subject) {
    && e.run == r && e.order == row.order && e.worker == row.worker
    && e.subject == subject && e.status == row.status && e.artifacts == row.artifacts
  }

  /** Evidence and reuse columns tell the same story: provenance repeats the columns and
      all artifacts are kept until the same instant, or there is neither. */
  predicate Matches(e: Evidence, row: Run, policy: ReusePolicy) {
    match e.provenance
    case Some(v) =>
      && v == Provenance(row.reuse.decision, v.identityHash, row.reuse.source, row.reuse.sourceFingerprint)
      && row.reuse.identity.Some? && row.reuse.identityHash == Some(v.identityHash)
      && row.retention.Some? && UniformRetention(row.artifacts, row.retention.value)
    case None =>
      && policy == Never && row.reuse.decision == Fresh
      && row.reuse.identity.None? && row.reuse.identityHash.None? && row.retention.None?
  }

  /** What stored evidence must satisfy. */
  predicate Genuine(terms: Terms, r: nat, row: Run) {
    match row.evidence
    case Some(e) => TerminalRun(row.status) && Names(e, r, row, terms.subject) && Matches(e, row, terms.reuse)
    case None => row.artifacts == [] && row.retention.None?
  }

  predicate EvidenceOk(p: Plane, r: nat) {
    r < |p.runs| && p.runs[r].order < |p.orders| && Genuine(p.orders[p.runs[r].order].terms, r, p.runs[r])
  }

  ghost predicate EvidenceInv(p: Plane) {
    forall r: nat :: r < |p.runs| ==> EvidenceOk(p, r)
  }

  /** The row an accepted completion leaves is genuine. */
  lemma AcceptedIsGenuine(
    p: Plane, r: nat, hash: Identity -> string, completion: Completion, now: int)
    requires Admissible(p, hash, r, completion)
    ensures Genuine(p.orders[p.runs[r].order].terms, r,
                    ClosedRun(p.runs[r], ClosingFor(p, hash, r, completion), now))
  {
    var terms, row := p.orders[p.runs[r].order].terms, p.runs[r];
    EvidenceRefusedIff(p, r, hash, completion);
    AcceptedWithoutObjection(terms, r, row, hash, completion, ProvenanceMismatch);
    AcceptedWithoutObjection(terms, r, row, hash, completion, ProvenanceIdentityMismatch);
    AcceptedWithoutObjection(terms, r, row, hash, completion, ProvenanceSourceMismatch);
    AcceptedWithoutObjection(terms, r, row, hash, completion, EvidenceWithoutIdentity);
    AcceptedWithoutObjection(terms, r, row, hash, completion, RetentionMissing);
    AcceptedWithoutObjection(terms, r, row, hash, completion, RetentionMismatch);
    AcceptedWithoutObjection(terms, r, row, hash, completion, LegacyRetention);
    AcceptedWithoutObjection(terms, r, row, hash, completion, RetentionWithoutEvidence);
    AcceptedWithoutObjection(terms, r, row, hash, completion, CandidateMissing);
    AcceptedWithoutObjection(terms, r, row, hash, completion, UnavailableWithoutOptIn);
    AcceptedWithoutObjection(terms, r, row, hash, completion, InvalidDecision);
    assert !Objects(ArtifactsWithoutEvidence, terms, r, row, hash, completion);
    assert !Objects(EvidenceIdentityMismatch, terms, r, row, hash, completion);
  }

  /** Rows other than `except` keep their evidence columns. */
  lemma UntouchedEvidence(p: Plane, q: Plane, except: int)
    requires EvidenceInv(p) && FollowsTables(p, q)
    requires forall k :: 0 <= k < |p.runs| && k != except ==> q.runs[k] == p.runs[k]
    requires forall k: nat :: (k == except && k < |p.runs|) || |p.runs| <= k < |q.runs| ==> EvidenceOk(q, k)
    ensures EvidenceInv(q)
  {
    forall k: nat | k < |q.runs|
      ensures EvidenceOk(q, k)
    {
      if k < |p.runs| && k != except {
        assert EvidenceOk(p, k);
        assert OrderFollows(p.orders[p.runs[k].order], q.orders[p.runs[k].order]);
      }
    }
  }

  lemma FinishKeepsEvidence(hash: Identity -> string, p: Plane, r: nat, completion: Completion, now: int)
    requires Inv(p) && EvidenceInv(p) && CanClose(p, r) && Admissible(p, hash, r, completion)
    ensures EvidenceInv(Finished(p, hash, r, completion, now))
  {
    var q := Finished(p, hash, r, completion, now);
    FinishedFollows(hash, p, r, completion, now);
    AcceptedIsGenuine(p, r, hash, completion, now);
    assert OrderFollows(p.orders[p.runs[r].order], q.orders[p.runs[r].order]);
    UntouchedEvidence(p, q, r);
  }

  lemma LapseKeepsEvidence(p: Plane, r: nat, now: int)
    requires Inv(p) && EvidenceInv(p) && CanLapse(p, r, now)
    ensures EvidenceInv(Lapsed(p, r, now))
  {
    var q := Lapsed(p, r, now);
    ClosedFollows(p, r, LapseClosing(p.runs[r]), now);
    ActiveRows(p, r);
    assert EvidenceOk(p, r);
    UntouchedEvidence(p, q, r);
  }

  lemma BeatKeepsEvidence(p: Plane, r: nat, now: int, expiresAt: int)
    requires Inv(p) && EvidenceInv(p) && Leased(p, r)
    ensures EvidenceInv(RunBeaten(p, r, now, expiresAt))
  {
    var q := RunBeaten(p, r, now, expiresAt);
    BeatenFollows(p, r, now, expiresAt);
    ActiveRows(p, r);
    assert EvidenceOk(p, r);
    UntouchedEvidence(p, q, r);
  }

  lemma ReuseKeepsEvidence(p: Plane, r: nat, record: ReuseRecord)
    requires Inv(p) && EvidenceInv(p) && r in p.leases && r < |p.runs|
    ensures EvidenceInv(WithReuse(p, r, record))
  {
    var q := WithReuse(p, r, record);
    ActiveRows(p, r);
    ReusedFollows(p, r, record);
    assert EvidenceOk(p, r);
    UntouchedEvidence(p, q, r);
  }

  lemma ClaimKeepsEvidence(
    p: Plane, w: string, o: nat, seen: Option<Profile>, eligible: nat, now: int, expiresAt: int)
    requires EvidenceInv(p) && CanClaim(p, w, o, seen)
    ensures EvidenceInv(Claimed(p, w, o, seen, eligible, now, expiresAt))
  {
    var q := Claimed(p, w, o, seen, eligible, now, expiresAt);
    ClaimedFollows(p, w, o, seen, eligible, now, expiresAt);
    assert EvidenceOk(q, |p.runs|);
    UntouchedEvidence(p, q, -1);
  }

  lemma ChangeKeepsEvidence(hash: Identity -> string, p: Plane, c: Change)
    requires Inv(p) && EvidenceInv(p) && Legal(hash, p, c)
    ensures EvidenceInv(Perform(hash, p, c))
  {
    match c {
      case Claiming(w, o, seen, eligible, now, expiresAt) =>
        ClaimKeepsEvidence(p, w, o, seen, eligible, now, expiresAt);
      case Beating(r, w, now, expiresAt) => BeatKeepsEvidence(p, r, now, expiresAt);
      case Resolving(r, w, identity, identityHash, now) =>
        ReuseKeepsEvidence(p, r, Resolved(p, hash, r, w, identity, identityHash, now));
      case Finishing(r, completion, now) => FinishKeepsEvidence(hash, p, r, completion, now);
      case Lapsing(r, now) => LapseKeepsEvidence(p, r, now);
      case _ =>
        ChangeFollows(hash, p, c);
        UntouchedEvidence(p, Perform(hash, p, c), -1);
    }
  }

  /** Every event keeps stored evidence genuine. */
  lemma EventKeepsEvidence(hash: Identity -> string, p: Plane, e: Event)
    requires Inv(p) && EvidenceInv(p)
    ensures EvidenceInv(Apply(hash, p, e))
  {
    var c := EventDoes(hash, p, e);
    ChangeKeepsEvidence(hash, p, c);
  }

  lemma {:induction false} TraceKeepsEvidence(hash: Identity -> string, p: Plane, es: seq<Event>)
    requires Inv(p) && EvidenceInv(p)
    ensures Inv(Trace(hash, p, es)) && EvidenceInv(Trace(hash, p, es))
    decreases |es|
  {
    if es != [] {
      EventKeepsInv(hash, p, es[0]);
      EventKeepsEvidence(hash, p, es[0]);
      TraceKeepsEvidence(hash, Apply(hash, p, es[0]), es[1..]);
    }
  }

  /** After any run of operations from empty tables, evidence on a run names that run, its
      order, its worker, the subject of the order, the run's outcome and its artifacts; its
      provenance, if it has one, repeats the run's reuse columns, and its artifacts are all
      kept until the stored instant. A run without evidence has no artifacts. */
  lemma EvidenceIsGenuine(hash: Identity -> string, es: seq<Event>, r: nat)
    requires r < |Trace(hash, EMPTY_PLANE, es).runs|
    ensures var p := Trace(hash, EMPTY_PLANE, es);
            var run := p.runs[r];
            && run.order < |p.orders|
            && (run.evidence.None? ==> run.artifacts == [] && run.retention.None?)
            && (run.evidence.Some? ==>
                  && var e := run.evidence.value;
                  && TerminalRun(run.status)
                  && e.run == r && e.order == run.order && e.worker == run.worker && e.status == run.status
                  && e.subject == p.orders[run.order].terms.subject && e.artifacts == run.artifacts
                  && (e.provenance.None? ==> p.orders[run.order].terms.reuse == Never && run.retention.None?)
                  && (e.provenance.Some? ==>
                        && e.provenance.value.decision == run.reuse.decision
                        && e.provenance.value.source == run.reuse.source
                        && Some(e.provenance.value.identityHash) == run.reuse.identityHash
                        && run.retention.Some?
                        && forall i :: 0 <= i < |run.artifacts| ==>
                             run.artifacts[i].retention == run.retention.value))
  {
    EmptyPlaneOk();
    TraceKeepsEvidence(hash, EMPTY_PLANE, es);
    assert EvidenceOk(Trace(hash, EMPTY_PLANE, es), r);
  }

  // ----- fresh results are accepted -----

  /** The lease owner reports fresh evidence of its own run under a fitting identity. */
  predicate FreshReport(
    p: Plane, hash: Identity -> string, r: nat, completion: Completion, e: Evidence, identity: Identity, retention: int)
  {
    && r < |p.runs| && p.runs[r].order < |p.orders|
    && var row, terms := p.runs[r], p.orders[p.runs[r].order].terms;
    && terms.reuse != RequireExact
    && completion == Completion(completion.status, e.artifacts, Some(e), Some(Fresh), Some(identity),
                                Some(hash(identity)), Some(retention))
    && TerminalRun(completion.status)
    && e.run == r && e.order == row.order && e.worker == row.worker
    && e.subject == terms.subject && e.status == completion.status
    && e.provenance == Some(Provenance(Fresh, hash(identity), None, None))
    && identity.subject == terms.subject && identity.policyHash == terms.policyHash
    && identity.contractHash == terms.contractHash && LocksMatch(identity.locks, terms.lockPaths)
    && UniformRetention(e.artifacts, retention)
  }

  lemma FreshReportIsAdmissible(
    p: Plane, hash: Identity -> string, r: nat, completion: Completion, e: Evidence, identity: Identity, retention: int)
    requires Leased(p, r) && p.runs[r].order == p.leases[r].order
    requires FreshReport(p, hash, r, completion, e, identity, retention)
    ensures Admissible(p, hash, r, completion)
    ensures ClosingFor(p, hash, r, completion)
            == Closing(completion.status, false,
                       ReuseRecord(Fresh, Some(identity), Some(hash(identity)), None, None, None),
                       e.artifacts, Some(e), Some(retention))
  {
    AcceptedIff(p, r, hash, completion);
    var terms, row := p.orders[p.runs[r].order].terms, p.runs[r];
    forall x
      ensures !Objects(x, terms, r, row, hash, completion)
    {
    }
    AcceptedWithoutObjection(terms, r, row, hash, completion, InvalidDecision);
  }

  /** Such a report is accepted and stored as submitted. */
  lemma FreshReportIsStored(
    p: Plane, hash: Identity -> string, r: nat, w: string, completion: Completion, e: Evidence, identity: Identity,
    retention: int, now: int)
    requires Inv(p) && OwnsLive(p, r, w, now) && !AtCeiling(p, r)
    requires FreshReport(p, hash, r, completion, e, identity, retention)
    ensures CanComplete(p, hash, r, w, completion, now)
    ensures var q := Apply(hash, p, Complete(r, w, completion, now));
            && r !in q.leases && r < |q.runs|
            && q.runs[r].status == completion.status && q.runs[r].finishedAt == Some(now)
            && q.runs[r].evidence == Some(e) && q.runs[r].artifacts == e.artifacts
            && q.runs[r].retention == Some(retention)
            && q.runs[r].reuse == ReuseRecord(Fresh, Some(identity), Some(hash(identity)), None, None, None)
  {
    ClosableIff(p, r);
    ActiveRows(p, r);
    FreshReportIsAdmissible(p, hash, r, completion, e, identity, retention);
    CompleteApplies(hash, p, r, w, completion, now);
  }

  lemma CompleteApplies(hash: Identity -> string, p: Plane, r: nat, w: string, completion: Completion, now: int)
    requires CanComplete(p, hash, r, w, completion, now)
    ensures Apply(hash, p, Complete(r, w, completion, now)) == Finished(p, hash, r, completion, now)
  {
  }
}
