/**
 Deterministic worker selection: fail-closed eligibility and the ranking order.
 */
module Routing {
  import opened Options
  import opened Lifecycle
  import opened Tables
  import opened Reuse
  import opened PlaneInvariant

  /** Server settings, and capability comparison as an opaque list of mismatches. */
  datatype Settings = Settings(
    leaseSeconds: int,
    heartbeatFreshness: int,
    pollFreshness: int,
    mismatches: (string, string) -> seq<string>)

  datatype Candidate = Candidate(id: string, worker: Worker, profile: Profile)

  // ----- eligibility -----

  predicate IsFresh(value: Option<int>, now: int, seconds: int) {
    value.Some? && seconds > 0 && value.value >= now - seconds
  }

  /** Every routed-worker requirement of one order. */
  predicate Eligible(cfg: Settings, id: string, worker: Worker, profile: Option<Profile>, terms: Terms, now: int) {
    && terms.subject.repository in ServedRepositories(worker)
    && (terms.preferred.Some? ==> terms.preferred.value == id)
    && worker.status == Online
    && worker.active < worker.maxConcurrency
    && IsFresh(Some(worker.lastHeartbeat), now, cfg.heartbeatFreshness)
    && IsFresh(worker.lastPoll, now, cfg.pollFreshness)
    && cfg.mismatches(worker.capabilities, terms.requirements) == []
    && (terms.routing == CheapestCapable ==>
          && profile.Some?
          && ValidProfile(profile.value)
          && profile.value.enabled
          && (terms.maximumCost.Some? ==> profile.value.cost <= terms.maximumCost.value)
          && profile.value.remaining >= terms.requiredQuota)
  }

  /** Why a worker is not a candidate; capability mismatches carry their own text. */
  datatype Reason =
    | RepositoryUnavailable | PreferredExecutorMismatch
    | ProfileMissing | ProfileInvalid | ProfileDisabled
    | WorkerNotAvailable | ConcurrencyLimit | HeartbeatStale | CheckoutPollStale
    | CapabilityMismatch(text: string)
    | CostCeilingExceeded | QuotaInsufficient

  /** What each reason says about the worker. */
  predicate Holds(
    x: Reason, cfg: Settings, id: string, worker: Worker, profile: Option<Profile>, terms: Terms, now: int)
  {
    var routed := terms.routing == CheapestCapable;
    var priced := routed && profile.Some? && ValidProfile(profile.value);
    match x
    case RepositoryUnavailable => terms.subject.repository !in ServedRepositories(worker)
    case PreferredExecutorMismatch => terms.preferred.Some? && terms.preferred.value != id
    case ProfileMissing => routed && profile.None?
    case ProfileInvalid => routed && profile.Some? && !ValidProfile(profile.value)
    case ProfileDisabled => priced && !profile.value.enabled
    case WorkerNotAvailable => worker.status != Online
    case ConcurrencyLimit => worker.active >= worker.maxConcurrency
    case HeartbeatStale => !IsFresh(Some(worker.lastHeartbeat), now, cfg.heartbeatFreshness)
    case CheckoutPollStale => !IsFresh(worker.lastPoll, now, cfg.pollFreshness)
    case CapabilityMismatch(text) => text in cfg.mismatches(worker.capabilities, terms.requirements)
    case CostCeilingExceeded => priced && terms.maximumCost.Some? && profile.value.cost > terms.maximumCost.value
    case QuotaInsufficient => priced && profile.value.remaining < terms.requiredQuota
  }

  /** First occurrences only, in order. */
  function Unique(xs: seq<Reason>): (ys: seq<Reason>)
    ensures forall x :: x in ys <==> x in xs
    ensures forall i, j :: 0 <= i < j < |ys| ==> ys[i] != ys[j]
  {
    if xs == [] then []
    else
      var n := |xs| - 1;
      var ys := Unique(xs[..n]);
      assert xs == xs[..n] + [xs[n]];
      if xs[n] in ys then ys else ys + [xs[n]]
  }

  function Mismatches(texts: seq<string>): (xs: seq<Reason>)
    ensures forall x :: x in xs <==> x.CapabilityMismatch? && x.text in texts
  {
    if texts == [] then []
    else
      assert texts == [texts[0]] + texts[1..];
      [CapabilityMismatch(texts[0])] + Mismatches(texts[1..])
  }

  /** A worker is eligible exactly if no reason against it holds. */
  lemma EligibleIff(cfg: Settings, id: string, worker: Worker, profile: Option<Profile>, terms: Terms, now: int)
    ensures Eligible(cfg, id, worker, profile, terms, now) <==>
            forall x :: !Holds(x, cfg, id, worker, profile, terms, now)
  {
    if forall x :: !Holds(x, cfg, id, worker, profile, terms, now) {
      assert !Holds(RepositoryUnavailable, cfg, id, worker, profile, terms, now);
      assert !Holds(PreferredExecutorMismatch, cfg, id, worker, profile, terms, now);
      assert !Holds(ProfileMissing, cfg, id, worker, profile, terms, now);
      assert !Holds(ProfileInvalid, cfg, id, worker, profile, terms, now);
      assert !Holds(ProfileDisabled, cfg, id, worker, profile, terms, now);
      assert !Holds(WorkerNotAvailable, cfg, id, worker, profile, terms, now);
      assert !Holds(ConcurrencyLimit, cfg, id, worker, profile, terms, now);
      assert !Holds(HeartbeatStale, cfg, id, worker, profile, terms, now);
      assert !Holds(CheckoutPollStale, cfg, id, worker, profile, terms, now);
      assert !Holds(CostCeilingExceeded, cfg, id, worker, profile, terms, now);
      assert !Holds(QuotaInsufficient, cfg, id, worker, profile, terms, now);
      var texts := cfg.mismatches(worker.capabilities, terms.requirements);
      assert texts != [] ==> Holds(CapabilityMismatch(texts[0]), cfg, id, worker, profile, terms, now);
    }
  }

  /** Eligibility in plain columns: the worker serves the repository, is the pinned one if any,
      is online with a free slot, beat and polled within their windows, has every capability
      and, for a routed order, an enabled sound profile within the order's cost ceiling and
      with enough quota. */
  lemma EligibleByColumns(cfg: Settings, id: string, worker: Worker, profile: Option<Profile>, terms: Terms, now: int)
    ensures Eligible(cfg, id, worker, profile, terms, now) <==>
            && (if worker.repositories == [] then terms.subject.repository == "Nobodyworld/dev-agent-switchboard"
                else terms.subject.repository in worker.repositories)
            && (terms.preferred.None? || terms.preferred == Some(id))
            && worker.status == Online && worker.active < worker.maxConcurrency
            && cfg.heartbeatFreshness > 0 && now <= worker.lastHeartbeat + cfg.heartbeatFreshness
            && cfg.pollFreshness > 0 && worker.lastPoll.Some? && now <= worker.lastPoll.value + cfg.pollFreshness
            && |cfg.mismatches(worker.capabilities, terms.requirements)| == 0
            && (terms.routing == CheapestCapable ==>
                  && profile.Some? && profile.value.enabled
                  && (terms.maximumCost.None? || profile.value.cost <= terms.maximumCost.value)
                  && terms.requiredQuota <= profile.value.remaining <= profile.value.capacity <= 2_147_483_647
                  && 0 <= profile.value.cost <= 2_147_483_647 && 0 <= profile.value.priority <= 2_147_483_647
                  && 1 <= profile.value.revision <= 2_147_483_647)
  {
  }

  /** What time does to eligibility: an eligible worker that does nothing stays eligible up to
      the end of its heartbeat and poll windows, both included, and not an instant longer. */
  lemma EligibleUntil(
    cfg: Settings, id: string, worker: Worker, profile: Option<Profile>, terms: Terms, early: int, now: int)
    requires Eligible(cfg, id, worker, profile, terms, early)
    ensures worker.lastPoll.Some?
    ensures Eligible(cfg, id, worker, profile, terms, now) <==>
            && now <= worker.lastHeartbeat + cfg.heartbeatFreshness
            && now <= worker.lastPoll.value + cfg.pollFreshness
  {
  }

  predicate AboutIdentity(x: Reason) {
    x.RepositoryUnavailable? || x.PreferredExecutorMismatch? || x.ProfileMissing? || x.ProfileInvalid?
      || x.ProfileDisabled?
  }

  predicate AboutLiveness(x: Reason) {
    x.WorkerNotAvailable? || x.ConcurrencyLimit? || x.HeartbeatStale? || x.CheckoutPollStale?
  }

  predicate AboutLimits(x: Reason) {
    x.CostCeilingExceeded? || x.QuotaInsufficient?
  }

  method IdentityReasons(
    cfg: Settings, id: string, worker: Worker, profile: Option<Profile>, terms: Terms, now: int)
    returns (reasons: seq<Reason>)
    ensures forall x :: x in reasons <==> AboutIdentity(x) && Holds(x, cfg, id, worker, profile, terms, now)
  {
    reasons := [];
    if terms.subject.repository !in ServedRepositories(worker) {
      reasons := reasons + [RepositoryUnavailable];
    }
    if terms.preferred.Some? && id != terms.preferred.value {
      reasons := reasons + [PreferredExecutorMismatch];
    }
    if terms.routing == CheapestCapable {
      if profile.None? {
        reasons := reasons + [ProfileMissing];
      } else if !ValidProfile(profile.value) {
        reasons := reasons + [ProfileInvalid];
      } else if !profile.value.enabled {
        reasons := reasons + [ProfileDisabled];
      }
    }
  }

  method LivenessReasons(
    cfg: Settings, id: string, worker: Worker, profile: Option<Profile>, terms: Terms, now: int)
    returns (reasons: seq<Reason>)
    ensures forall x :: x in reasons <==> AboutLiveness(x) && Holds(x, cfg, id, worker, profile, terms, now)
  {
    reasons := [];
    if worker.status != Online {
      reasons := reasons + [WorkerNotAvailable];
    }
    if worker.active >= worker.maxConcurrency {
      reasons := reasons + [ConcurrencyLimit];
    }
    if !IsFresh(Some(worker.lastHeartbeat), now, cfg.heartbeatFreshness) {
      reasons := reasons + [HeartbeatStale];
    }
    if !IsFresh(worker.lastPoll, now, cfg.pollFreshness) {
      reasons := reasons + [CheckoutPollStale];
    }
  }

  method LimitReasons(
    cfg: Settings, id: string, worker: Worker, profile: Option<Profile>, terms: Terms, now: int)
    returns (reasons: seq<Reason>)
    ensures forall x :: x in reasons <==> AboutLimits(x) && Holds(x, cfg, id, worker, profile, terms, now)
  {
    reasons := [];
    if terms.routing == CheapestCapable && profile.Some? && ValidProfile(profile.value) {
      if terms.maximumCost.Some? && profile.value.cost > terms.maximumCost.value {
        reasons := reasons + [CostCeilingExceeded];
      }
      if profile.value.remaining < terms.requiredQuota {
        reasons := reasons + [QuotaInsufficient];
      }
    }
  }

  lemma EmptyIff(reasons: seq<Reason>)
    ensures reasons == [] <==> forall x :: x !in reasons
  {
    if reasons != [] {
      assert reasons[0] in reasons;
    }
  }

  lemma ReasonsAddUp(
    cfg: Settings, id: string, worker: Worker, profile: Option<Profile>, terms: Terms, now: int,
    identity: seq<Reason>, liveness: seq<Reason>, mismatches: seq<Reason>, limits: seq<Reason>)
    requires forall x :: x in identity <==> AboutIdentity(x) && Holds(x, cfg, id, worker, profile, terms, now)
    requires forall x :: x in liveness <==> AboutLiveness(x) && Holds(x, cfg, id, worker, profile, terms, now)
    requires forall x :: x in mismatches <==>
             x.CapabilityMismatch? && x.text in cfg.mismatches(worker.capabilities, terms.requirements)
    requires forall x :: x in limits <==> AboutLimits(x) && Holds(x, cfg, id, worker, profile, terms, now)
    ensures forall x :: x in identity + liveness + mismatches + limits <==>
            Holds(x, cfg, id, worker, profile, terms, now)
  {
    forall x
      ensures x in identity + liveness + mismatches + limits <==> Holds(x, cfg, id, worker, profile, terms, now)
    {
      assert AboutIdentity(x) || AboutLiveness(x) || x.CapabilityMismatch? || AboutLimits(x);
    }
  }

  /** Reasons are appended check by check; the result lists, without repeats, exactly the
      reasons that hold, and the worker is a candidate exactly if there are none. */
  method EvaluateRoutingCandidate(
    cfg: Settings, id: string, worker: Worker, profile: Option<Profile>, terms: Terms, now: int)
    returns (eligible: bool, unique: seq<Reason>)
    ensures eligible <==> Eligible(cfg, id, worker, profile, terms, now)
    ensures eligible <==> unique == []
    ensures forall x :: x in unique <==> Holds(x, cfg, id, worker, profile, terms, now)
    ensures forall i, j :: 0 <= i < j < |unique| ==> unique[i] != unique[j]
  {
    var identity := IdentityReasons(cfg, id, worker, profile, terms, now);
    var liveness := LivenessReasons(cfg, id, worker, profile, terms, now);
    var mismatches := Mismatches(cfg.mismatches(worker.capabilities, terms.requirements));
    var limits := LimitReasons(cfg, id, worker, profile, terms, now);
    unique := Unique(identity + liveness + mismatches + limits);
    ReasonsAddUp(cfg, id, worker, profile, terms, now, identity, liveness, mismatches, limits);
    EmptyIff(unique);
    eligible := unique == [];
    EligibleIff(cfg, id, worker, profile, terms, now);
  }

  // ----- the one reason that is reported -----

  datatype RouteReason = PreferredExecutorUnavailable | Because(reason: Reason) | NoCapableWorkers

  /** Which of several reasons is reported. */
  const PRECEDENCE: seq<Reason> := [
    RepositoryUnavailable, ProfileMissing, ProfileInvalid, ProfileDisabled, HeartbeatStale, CheckoutPollStale,
    WorkerNotAvailable, ConcurrencyLimit, CostCeilingExceeded, QuotaInsufficient]

  function FirstPresent(order: seq<Reason>, reasons: seq<Reason>): RouteReason {
    if order == [] then NoCapableWorkers
    else if order[0] in reasons then Because(order[0])
    else FirstPresent(order[1..], reasons)
  }

  function UnavailableRouteReason(reasons: seq<Reason>, pinned: bool): RouteReason {
    if pinned then PreferredExecutorUnavailable else FirstPresent(PRECEDENCE, reasons)
  }

  /** Of the reasons in `order`, the one at `i` is the first that is listed. */
  ghost predicate FirstIn(order: seq<Reason>, reasons: seq<Reason>, i: nat) {
    i < |order| && order[i] in reasons && forall j :: 0 <= j < i ==> order[j] !in reasons
  }

  /** What the reported reason says: the first of the precedence list that applies, and
      missing capabilities only if none does. */
  lemma {:induction false} FirstPresentIsFirst(order: seq<Reason>, reasons: seq<Reason>)
    ensures match FirstPresent(order, reasons)
            case Because(x) => exists i :: 0 <= i < |order| && order[i] == x && FirstIn(order, reasons, i)
            case NoCapableWorkers => forall j :: 0 <= j < |order| ==> order[j] !in reasons
            case PreferredExecutorUnavailable => false
  {
    if order != [] && order[0] !in reasons {
      FirstPresentIsFirst(order[1..], reasons);
      if i: nat :| i < |order| - 1 && FirstIn(order[1..], reasons, i) {
        assert forall j :: 0 < j <= i ==> order[j] == order[1..][j - 1];
        assert FirstIn(order, reasons, i + 1) && order[i + 1] == order[1..][i];
      }
    }
  }

  /** How far down the list a reason stands; capability and pin mismatches are never reported
      by name. */
  function Standing(x: Reason): nat {
    match x
    case RepositoryUnavailable => 0
    case ProfileMissing => 1
    case ProfileInvalid => 2
    case ProfileDisabled => 3
    case HeartbeatStale => 4
    case CheckoutPollStale => 5
    case WorkerNotAvailable => 6
    case ConcurrencyLimit => 7
    case CostCeilingExceeded => 8
    case QuotaInsufficient => 9
    case PreferredExecutorMismatch => 10
    case CapabilityMismatch(_) => 10
  }

  /** The report: a pinned order names its pin, otherwise the listed reason with the lowest
      standing is named, and missing capabilities only if no listed reason has a name. */
  lemma ReportIsLeast(reasons: seq<Reason>, pinned: bool)
    ensures match UnavailableRouteReason(reasons, pinned)
            case PreferredExecutorUnavailable => pinned
            case Because(x) =>
              && !pinned && x in reasons && Standing(x) < 10
              && forall y :: y in reasons ==> Standing(x) <= Standing(y)
            case NoCapableWorkers => !pinned && forall y :: y in reasons ==> Standing(y) == 10
  {
    FirstPresentIsFirst(PRECEDENCE, reasons);
    assert |PRECEDENCE| == 10 && forall i :: 0 <= i < 10 ==> Standing(PRECEDENCE[i]) == i;
    assert forall y: Reason :: Standing(y) < 10 ==> PRECEDENCE[Standing(y)] == y;
  }

  /** Only which reasons apply matters, not how they are listed. */
  lemma {:induction false} SameReasonsSameReport(order: seq<Reason>, xs: seq<Reason>, ys: seq<Reason>)
    requires forall x :: x in xs <==> x in ys
    ensures FirstPresent(order, xs) == FirstPresent(order, ys)
  {
    if order != [] {
      SameReasonsSameReport(order[1..], xs, ys);
    }
  }

  // ----- the ranking order -----

  /** Code-point order of worker ids. */
  predicate IdLess(a: string, b: string) {
    b != [] && (a == [] || a[0] < b[0] || (a[0] == b[0] && IdLess(a[1..], b[1..])))
  }

  lemma {:induction false} IdTrichotomy(a: string, b: string)
    ensures IdLess(a, b) || IdLess(b, a) || a == b
    ensures !(IdLess(a, b) && IdLess(b, a))
    ensures !IdLess(a, a)
  {
    if a != [] {
      IdTrichotomy(a[1..], a[1..]);
      if b != [] {
        IdTrichotomy(a[1..], b[1..]);
        if a[0] == b[0] && a[1..] == b[1..] {
          assert a == [a[0]] + a[1..] == [b[0]] + b[1..] == b;
        }
      }
    }
  }

  lemma {:induction false} IdTransitive(a: string, b: string, c: string)
    requires IdLess(a, b) && IdLess(b, c)
    ensures IdLess(a, c)
  {
    if a != [] && a[0] == b[0] == c[0] {
      IdTransitive(a[1..], b[1..], c[1..]);
    }
  }

  /** The three-way comparison: cost, then headroom, then load as a fraction compared by
      cross-multiplication, then priority, then worker id. */
  function Compare(a: Candidate, b: Candidate, requiredQuota: int): int {
    if a.profile.cost != b.profile.cost then
      if a.profile.cost < b.profile.cost then -1 else 1
    else if a.profile.remaining - requiredQuota != b.profile.remaining - requiredQuota then
      if a.profile.remaining - requiredQuota > b.profile.remaining - requiredQuota then -1 else 1
    else if a.worker.active * b.worker.maxConcurrency != b.worker.active * a.worker.maxConcurrency then
      if a.worker.active * b.worker.maxConcurrency < b.worker.active * a.worker.maxConcurrency then -1 else 1
    else if a.profile.priority != b.profile.priority then
      if a.profile.priority < b.profile.priority then -1 else 1
    else if a.id == b.id then 0
    else if IdLess(a.id, b.id) then -1 else 1
  }

  predicate Precedes(a: Candidate, b: Candidate) {
    Compare(a, b, 0) < 0
  }

  /** The units an order needs shift every headroom alike and cannot change the order. */
  lemma CompareIgnoresQuota(a: Candidate, b: Candidate, u: int, v: int)
    ensures Compare(a, b, u) == Compare(a, b, v)
  {
  }

  /** Comparing load fractions by cross-multiplication is transitive. */
  lemma LoadTransitive(a: nat, m: nat, b: nat, n: nat, c: nat, k: nat)
    requires m > 0 && n > 0 && k > 0
    requires a * n <= b * m && b * k <= c * n
    ensures a * k <= c * m
    ensures a * k == c * m ==> a * n == b * m && b * k == c * n
  {
    ScaleLe(a * n, b * m, k);
    ScaleLe(b * k, c * n, m);
    assert a * n * k == a * k * n && c * n * m == c * m * n && b * m * k == b * k * m;
    if a * k > c * m {
      ScaleLt(c * m, a * k, n);
    }
    if a * n < b * m {
      ScaleLt(a * n, b * m, k);
    }
    if b * k < c * n {
      ScaleLt(b * k, c * n, m);
    }
  }

  lemma ScaleLe(x: int, y: int, k: nat)
    requires x <= y
    ensures x * k <= y * k
  {
  }

  lemma ScaleLt(x: int, y: int, k: nat)
    requires x < y && k > 0
    ensures x * k < y * k
  {
  }

  /** The share of a worker's slots that is taken. */
  function Load(worker: Worker): real
    requires worker.maxConcurrency > 0
  {
    worker.active as real / worker.maxConcurrency as real
  }

  lemma FractionsCompare(a: real, m: real, b: real, n: real)
    requires m > 0.0 && n > 0.0
    ensures a * n < b * m <==> a / m < b / n
  {
    var x, y := a / m, b / n;
    assert a * n == x * m * n && b * m == y * n * m;
    assert a * n == x * (m * n) && b * m == y * (m * n);
    assert m * n > 0.0;
    if x < y {
      assert (y - x) * (m * n) > 0.0;
    } else {
      assert (x - y) * (m * n) >= 0.0;
    }
  }

  lemma LoadsCompare(a: Worker, b: Worker)
    requires a.maxConcurrency > 0 && b.maxConcurrency > 0
    ensures a.active * b.maxConcurrency < b.active * a.maxConcurrency <==> Load(a) < Load(b)
  {
    FractionsCompare(a.active as real, a.maxConcurrency as real, b.active as real, b.maxConcurrency as real);
    assert (a.active * b.maxConcurrency) as real == a.active as real * b.maxConcurrency as real;
    assert (b.active * a.maxConcurrency) as real == b.active as real * a.maxConcurrency as real;
  }

  /** What the comparison means: cheaper first, then more quota left, then the smaller load
      fraction, then the lower priority number, then the smaller id. */
  lemma PrecedesMeans(a: Candidate, b: Candidate)
    requires a.worker.maxConcurrency > 0 && b.worker.maxConcurrency > 0
    ensures Precedes(a, b) <==>
            || a.profile.cost < b.profile.cost
            || (a.profile.cost == b.profile.cost &&
                ( || a.profile.remaining > b.profile.remaining
                  || (a.profile.remaining == b.profile.remaining &&
                      ( || Load(a.worker) < Load(b.worker)
                        || (Load(a.worker) == Load(b.worker) &&
                            ( || a.profile.priority < b.profile.priority
                              || (a.profile.priority == b.profile.priority && IdLess(a.id, b.id))))))))
  {
    LoadsCompare(a.worker, b.worker);
    LoadsCompare(b.worker, a.worker);
    IdTrichotomy(a.id, b.id);
  }

  lemma CompareTotal(a: Candidate, b: Candidate)
    requires a.id != b.id
    ensures Precedes(a, b) <==> !Precedes(b, a)
  {
    IdTrichotomy(a.id, b.id);
  }

  lemma CompareTransitive(a: Candidate, b: Candidate, c: Candidate)
    requires a.worker.maxConcurrency > 0 && b.worker.maxConcurrency > 0 && c.worker.maxConcurrency > 0
    requires Precedes(a, b) && Precedes(b, c)
    ensures Precedes(a, c)
  {
    var (la, ma, lb, mb, lc, mc) := (a.worker.active, a.worker.maxConcurrency, b.worker.active, b.worker.maxConcurrency,
                                     c.worker.active, c.worker.maxConcurrency);
    if a.profile.cost == b.profile.cost == c.profile.cost
      && a.profile.remaining == b.profile.remaining == c.profile.remaining {
      assert la * mb <= lb * ma && lb * mc <= lc * mb;
      LoadTransitive(la, ma, lb, mb, lc, mc);
      if la * mc == lc * ma && a.profile.priority == b.profile.priority == c.profile.priority {
        assert a.id != b.id && b.id != c.id;
        IdTransitive(a.id, b.id, c.id);
        IdTrichotomy(a.id, c.id);
      }
    }
  }

  // ----- ranking -----

  /** Candidates of different workers, all with at least one slot. */
  ghost predicate Rankable(xs: seq<Candidate>) {
    && (forall i :: 0 <= i < |xs| ==> xs[i].worker.maxConcurrency > 0)
    && (forall i, j :: 0 <= i < j < |xs| ==> xs[i].id != xs[j].id)
  }

  ghost predicate Ranked(xs: seq<Candidate>) {
    forall i, j :: 0 <= i < j < |xs| ==> Precedes(xs[i], xs[j])
  }

  function Insert(x: Candidate, xs: seq<Candidate>): (ys: seq<Candidate>)
    ensures multiset(ys) == multiset([x]) + multiset(xs)
  {
    if xs == [] || Precedes(x, xs[0]) then [x] + xs
    else
      assert xs == [xs[0]] + xs[1..];
      [xs[0]] + Insert(x, xs[1..])
  }

  /** The candidates in ranking order. */
  function Rank(xs: seq<Candidate>): (ys: seq<Candidate>)
    ensures multiset(ys) == multiset(xs)
  {
    if xs == [] then []
    else
      assert xs == [xs[0]] + xs[1..];
      Insert(xs[0], Rank(xs[1..]))
  }

  lemma {:induction false} InsertRanks(x: Candidate, xs: seq<Candidate>)
    requires Ranked(xs) && x.worker.maxConcurrency > 0
    requires forall y :: y in xs ==> y.worker.maxConcurrency > 0 && y.id != x.id
    ensures Ranked(Insert(x, xs))
  {
    if xs != [] {
      if Precedes(x, xs[0]) {
        forall i | 1 <= i < |xs|
          ensures Precedes(x, xs[i])
        {
          CompareTransitive(x, xs[0], xs[i]);
        }
      } else {
        CompareTotal(x, xs[0]);
        InsertRanks(x, xs[1..]);
        var rest := Insert(x, xs[1..]);
        forall i | 0 <= i < |rest|
          ensures Precedes(xs[0], rest[i])
        {
          assert rest[i] in multiset(rest);
          assert rest[i] == x || rest[i] in xs[1..];
        }
      }
    }
  }

  /** Ranking sorts: every earlier candidate precedes every later one. */
  lemma {:induction false} RankRanks(xs: seq<Candidate>)
    requires Rankable(xs)
    ensures Ranked(Rank(xs))
  {
    if xs != [] {
      RankRanks(xs[1..]);
      var rest := Rank(xs[1..]);
      forall y | y in rest
        ensures y.worker.maxConcurrency > 0 && y.id != xs[0].id
      {
        assert y in multiset(rest);
        assert y in xs[1..];
      }
      InsertRanks(xs[0], rest);
    }
  }

  lemma HeadsAgree(xs: seq<Candidate>, ys: seq<Candidate>)
    requires Ranked(xs) && Ranked(ys) && multiset(xs) == multiset(ys) && xs != [] && ys != []
    ensures xs[0] == ys[0]
  {
    assert xs[0] in multiset(ys) && ys[0] in multiset(xs);
    var i :| 0 <= i < |xs| && xs[i] == ys[0];
    var j :| 0 <= j < |ys| && ys[j] == xs[0];
    if i != 0 && j != 0 {
      BothWays(xs[0], xs[i]);
    }
  }

  lemma TailMultiset(xs: seq<Candidate>)
    requires xs != []
    ensures multiset(xs[1..]) == multiset(xs) - multiset{xs[0]}
  {
    assert xs == [xs[0]] + xs[1..];
  }

  /** There is only one ranking of a set of candidates, so neither the sorting algorithm nor
      the order in which workers were listed can matter. */
  lemma {:induction false} RankingIsUnique(xs: seq<Candidate>, ys: seq<Candidate>)
    requires Ranked(xs) && Ranked(ys) && multiset(xs) == multiset(ys)
    ensures xs == ys
    decreases |xs|
  {
    assert |xs| == |multiset(xs)| == |multiset(ys)| == |ys|;
    if xs != [] {
      HeadsAgree(xs, ys);
      TailMultiset(xs);
      TailMultiset(ys);
      RankingIsUnique(xs[1..], ys[1..]);
      assert xs == [xs[0]] + xs[1..] && ys == [ys[0]] + ys[1..];
    }
  }

  lemma BothWays(a: Candidate, b: Candidate)
    requires Precedes(a, b)
    ensures !Precedes(b, a)
  {
    IdTrichotomy(a.id, b.id);
  }

  /** The head of the ranking is the one candidate that precedes all others. */
  lemma HeadIsBest(xs: seq<Candidate>, best: Candidate)
    requires Rankable(xs) && xs != []
    ensures Rank(xs) != []
    ensures Rank(xs)[0] == best <==> best in xs && forall y :: y in xs && y != best ==> Precedes(best, y)
  {
    RankRanks(xs);
    var ys := Rank(xs);
    assert |ys| == |multiset(ys)| == |multiset(xs)| == |xs|;
    assert forall y :: y in xs <==> y in multiset(ys);
    assert ys[0] in multiset(ys);
    forall y | y in xs && y != ys[0]
      ensures Precedes(ys[0], y)
    {
      assert y in multiset(ys);
      var i :| 0 <= i < |ys| && ys[i] == y;
    }
    if best in xs && best != ys[0] {
      BothWays(ys[0], best);
    }
  }
}
