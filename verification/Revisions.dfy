/**
 Profile revisions: they grow with every change and with every reservation, which makes the
 operator's optimistic writes sound under interleaving, and they are bounded, which can
 leave a reservation that cannot be returned.
 */
module Revisions {
  import opened Options
  import opened Lifecycle
  import opened Tables
  import opened Events
  import opened PlaneInvariant
  import opened Changes
  import opened PlaneSteps
  import opened PlaneTheorems

  /** Every unspent reservation of `w` in `q` was already there in `p`. */
  ghost predicate NoNewDebt(p: Plane, q: Plane, w: string) {
    forall r :: 0 <= r < |q.runs| && q.runs[r].worker == w && q.runs[r].quotaState == Reserved ==>
      r < |p.runs| && p.runs[r].worker == w && p.runs[r].quotaState == Reserved
  }

  /** Between two planes, a profile either is the same with no new reservation, or has a
      strictly larger revision. */
  ghost predicate RevisionMoves(p: Plane, q: Plane, w: string)
    requires w in p.profiles
  {
    && w in q.profiles
    && ( || q.profiles[w].revision > p.profiles[w].revision
         || (q.profiles[w] == p.profiles[w] && NoNewDebt(p, q, w)))
  }

  lemma OldRunsOnly(p: Plane, q: Plane, w: string)
    requires FollowsTables(p, q) && |q.runs| == |p.runs|
    ensures NoNewDebt(p, q, w)
  {
    forall r | 0 <= r < |q.runs| && q.runs[r].worker == w && q.runs[r].quotaState == Reserved
      ensures p.runs[r].worker == w && p.runs[r].quotaState == Reserved
    {
      assert RunFollows(p.runs[r], q.runs[r]);
    }
  }

  lemma ClaimMovesRevision(
    p: Plane, w: string, o: nat, seen: Option<Profile>, eligible: nat, now: int, expiresAt: int, v: string)
    requires CanClaim(p, w, o, seen) && v in p.profiles
    ensures RevisionMoves(p, Claimed(p, w, o, seen, eligible, now, expiresAt), v)
  {
  }

  /** A change other than a claim leaves a profile alone or raises its revision. */
  lemma ProfileMoves(hash: Identity -> string, p: Plane, c: Change, w: string)
    requires Legal(hash, p, c) && w in p.profiles && !c.Claiming?
    ensures var q := Perform(hash, p, c);
            && |q.runs| == |p.runs| && w in q.profiles
            && (q.profiles[w].revision > p.profiles[w].revision || q.profiles[w] == p.profiles[w])
  {
  }

  lemma ChangeMovesRevision(hash: Identity -> string, p: Plane, c: Change, w: string)
    requires Inv(p) && Legal(hash, p, c) && w in p.profiles
    ensures RevisionMoves(p, Perform(hash, p, c), w)
  {
    if c.Claiming? {
      ClaimMovesRevision(p, c.worker, c.order, c.seen, c.eligible, c.now, c.expiresAt, w);
    } else {
      ProfileMoves(hash, p, c, w);
      ChangeFollows(hash, p, c);
      OldRunsOnly(p, Perform(hash, p, c), w);
    }
  }

  /** Any event that changes a profile or reserves quota on it raises its revision. */
  lemma EventMovesRevision(hash: Identity -> string, p: Plane, e: Event, w: string)
    requires Inv(p) && w in p.profiles
    ensures RevisionMoves(p, Apply(hash, p, e), w)
  {
    var c := EventDoes(hash, p, e);
    ChangeMovesRevision(hash, p, c, w);
  }

  /** Revisions never repeat: over any run of events, an equal revision means an untouched
      profile and no reservation made in between. */
  lemma {:induction false} RevisionsNeverRepeat(hash: Identity -> string, p: Plane, es: seq<Event>, w: string)
    requires Inv(p) && w in p.profiles
    ensures RevisionMoves(p, Trace(hash, p, es), w)
    decreases |es|
  {
    if es != [] {
      EventMovesRevision(hash, p, es[0], w);
      EventKeepsInv(hash, p, es[0]);
      RevisionsNeverRepeat(hash, Apply(hash, p, es[0]), es[1..], w);
    }
  }

  // ----- recorded revisions -----

  /** The revision a run recorded lies behind that of its worker's profile. */
  predicate Recorded(p: Plane, r: nat)
    requires r < |p.runs|
  {
    var run := p.runs[r];
    run.route.revision.Some? ==>
      run.worker in p.profiles && run.route.revision.value <= p.profiles[run.worker].revision
  }

  /** Both runs were charged to the same profile. */
  predicate SameProfile(a: Run, b: Run) {
    a.worker == b.worker && a.route.revision.Some? && b.route.revision.Some?
  }

  ghost predicate ReceiptsOk(p: Plane) {
    && (forall r: nat :: r < |p.runs| ==> Recorded(p, r))
    && (forall r: nat, s: nat :: r < s < |p.runs| && SameProfile(p.runs[r], p.runs[s]) ==>
          p.runs[r].route.revision.value < p.runs[s].route.revision.value)
  }

  lemma ClaimKeepsReceipts(
    p: Plane, w: string, o: nat, seen: Option<Profile>, eligible: nat, now: int, expiresAt: int)
    requires ReceiptsOk(p) && CanClaim(p, w, o, seen)
    ensures ReceiptsOk(Claimed(p, w, o, seen, eligible, now, expiresAt))
  {
    var q := Claimed(p, w, o, seen, eligible, now, expiresAt);
    forall r: nat | r < |q.runs|
      ensures Recorded(q, r)
      ensures r < |p.runs| && SameProfile(q.runs[r], q.runs[|p.runs|]) ==>
                q.runs[r].route.revision.value < q.runs[|p.runs|].route.revision.value
    {
      assert r < |p.runs| ==> Recorded(p, r);
    }
  }

  lemma EventKeepsReceipts(hash: Identity -> string, p: Plane, e: Event)
    requires Inv(p) && ReceiptsOk(p)
    ensures ReceiptsOk(Apply(hash, p, e))
  {
    var c := EventDoes(hash, p, e);
    if c.Claiming? {
      ClaimKeepsReceipts(p, c.worker, c.order, c.seen, c.eligible, c.now, c.expiresAt);
    } else {
      ChangeKeepsReceipts(hash, p, c);
    }
  }

  lemma RowsKeepReceipts(p: Plane, q: Plane)
    requires ReceiptsOk(p) && FollowsTables(p, q) && |q.runs| == |p.runs|
    requires forall w :: w in p.profiles ==> w in q.profiles && p.profiles[w].revision <= q.profiles[w].revision
    ensures ReceiptsOk(q)
  {
    forall r: nat | r < |q.runs|
      ensures Recorded(q, r) && q.runs[r].worker == p.runs[r].worker && q.runs[r].route == p.runs[r].route
    {
      assert Recorded(p, r) && RunFollows(p.runs[r], q.runs[r]);
    }
  }

  lemma ChangeKeepsReceipts(hash: Identity -> string, p: Plane, c: Change)
    requires Inv(p) && ReceiptsOk(p) && Legal(hash, p, c) && !c.Claiming?
    ensures ReceiptsOk(Perform(hash, p, c))
  {
    var q := Perform(hash, p, c);
    ChangeFollows(hash, p, c);
    SameRuns(hash, p, c);
    forall w | w in p.profiles
      ensures w in q.profiles && p.profiles[w].revision <= q.profiles[w].revision
    {
      ProfileMoves(hash, p, c, w);
    }
    RowsKeepReceipts(p, q);
  }

  lemma SameRuns(hash: Identity -> string, p: Plane, c: Change)
    requires Legal(hash, p, c) && !c.Claiming?
    ensures |Perform(hash, p, c).runs| == |p.runs|
  {
  }

  lemma {:induction false} TraceKeepsReceipts(hash: Identity -> string, p: Plane, es: seq<Event>)
    requires Inv(p) && ReceiptsOk(p)
    ensures ReceiptsOk(Trace(hash, p, es))
    decreases |es|
  {
    if es != [] {
      EventKeepsReceipts(hash, p, es[0]);
      EventKeepsInv(hash, p, es[0]);
      TraceKeepsReceipts(hash, Apply(hash, p, es[0]), es[1..]);
    }
  }

  /** A recorded revision is a receipt: after any run of operations from empty tables, two runs
      charged to the same profile recorded different revisions, the earlier run the smaller
      one, and none lies ahead of the profile. */
  lemma ReceiptsAreUnique(hash: Identity -> string, es: seq<Event>, r: nat, s: nat)
    requires r < |Trace(hash, EMPTY_PLANE, es).runs| && s < |Trace(hash, EMPTY_PLANE, es).runs|
    ensures var p := Trace(hash, EMPTY_PLANE, es);
            p.runs[r].worker == p.runs[s].worker && p.runs[r].route.revision.Some? && p.runs[s].route.revision.Some? ==>
              && (p.runs[r].route.revision.value < p.runs[s].route.revision.value <==> r < s)
              && p.runs[r].worker in p.profiles
              && p.runs[r].route.revision.value <= p.profiles[p.runs[r].worker].revision
  {
    var p := Trace(hash, EMPTY_PLANE, es);
    EmptyPlaneOk();
    TraceKeepsReceipts(hash, EMPTY_PLANE, es);
    assert Recorded(p, r);
    assert s < r && SameProfile(p.runs[s], p.runs[r]) ==>
             p.runs[s].route.revision.value < p.runs[r].route.revision.value;
  }
}
