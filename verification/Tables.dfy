/**
 Rows of the execution plane. Work orders and runs are never deleted and their keys are
 assigned in insertion order, so those tables are sequences indexed by key. A lease is
 keyed by the run it names, which is a unique column of the lease table.
 */
module Tables {
  import opened Options
  import opened Lifecycle

  /** Largest stored routing integer and largest profile revision. */
  const MAX_ROUTING_INTEGER: int := 2_147_483_647

  /** Repositories a worker serves when it declares none. */
  const DEFAULT_REPOSITORY: string := "Nobodyworld/dev-agent-switchboard"

  /** What was asked to be validated: repository, exact commit and manifest identity. */
  datatype Subject = Subject(repository: string, commit: string, manifest: string)

  /** The immutable part of a work order. The contract hash and the lock paths are those
      of the order's trusted manifest. */
  datatype Terms = Terms(
    subject: Subject,
    requirements: string,
    routing: RoutingPolicy,
    maximumCost: Option<int>,
    requiredQuota: nat,
    preferred: Option<string>,
    reuse: ReusePolicy,
    policyHash: string,
    contractHash: string,
    lockPaths: seq<string>)

  /** Provenance of one routing decision, stored on the order and on the run it created. */
  datatype Route = Route(
    worker: string,
    revision: Option<int>,
    cost: Option<int>,
    reserved: nat,
    eligible: nat,
    pinned: bool,
    decidedAt: int)

  datatype WorkOrder = WorkOrder(
    terms: Terms,
    status: OrderStatus,
    approvedAt: Option<int>,
    queuedAt: Option<int>,
    assignedAt: Option<int>,
    startedAt: Option<int>,
    finishedAt: Option<int>,
    attempts: nat,
    route: Option<Route>,
    quotaState: Option<QuotaState>)

  /** Everything that must coincide before evidence of one run may stand in for another. */
  datatype Identity = Identity(
    subject: Subject,
    policyHash: string,
    contractHash: string,
    environment: string,
    locks: seq<(string, string)>)

  datatype Artifact = Artifact(path: string, digest: string, retention: int)

  datatype Provenance = Provenance(
    decision: ReuseDecision,
    identityHash: string,
    source: Option<nat>,
    sourceFingerprint: Option<string>)

  datatype Evidence = Evidence(
    run: nat,
    order: nat,
    worker: string,
    subject: Subject,
    status: RunStatus,
    artifacts: seq<Artifact>,
    fingerprint: string,
    startedAt: int,
    environment: string,
    locks: seq<(string, string)>,
    provenance: Option<Provenance>)

  datatype ReuseCandidate = ReuseCandidate(
    source: nat,
    worker: string,
    fingerprint: string,
    identity: Identity,
    identityHash: string,
    createdAt: int,
    retention: int,
    artifacts: seq<Artifact>)

  /** The reuse columns of a run. */
  datatype ReuseRecord = ReuseRecord(
    decision: ReuseDecision,
    identity: Option<Identity>,
    identityHash: Option<string>,
    source: Option<nat>,
    sourceFingerprint: Option<string>,
    candidate: Option<ReuseCandidate>)

  datatype Run = Run(
    order: nat,
    worker: string,
    attempt: nat,
    status: RunStatus,
    startedAt: Option<int>,
    finishedAt: Option<int>,
    leaseExpiresAt: int,
    route: Route,
    quotaState: QuotaState,
    reuse: ReuseRecord,
    artifacts: seq<Artifact>,
    evidence: Option<Evidence>,
    retention: Option<int>)

  datatype Lease = Lease(order: nat, worker: string, expiresAt: int)

  datatype Worker = Worker(
    status: WorkerStatus,
    maxConcurrency: nat,
    active: nat,
    lastHeartbeat: int,
    lastPoll: Option<int>,
    repositories: seq<string>,
    capabilities: string)

  datatype Profile = Profile(
    enabled: bool,
    cost: int,
    capacity: int,
    remaining: int,
    resetAt: Option<int>,
    priority: int,
    revision: int)

  /** History variable, read by no operation: what the last operator write to a profile
      set the remaining quota to, and how many runs existed at that moment. */
  datatype Ledger = Ledger(baseline: int, epoch: nat)

  datatype Plane = Plane(
    orders: seq<WorkOrder>,
    runs: seq<Run>,
    leases: map<nat, Lease>,
    workers: map<string, Worker>,
    profiles: map<string, Profile>,
    ledger: map<string, Ledger>)

  const EMPTY_PLANE := Plane([], [], map[], map[], map[], map[])

  /** Worker-declared columns of a registration. */
  datatype Registration = Registration(
    status: WorkerStatus,
    maxConcurrency: nat,
    repositories: seq<string>,
    capabilities: string,
    repositoryWrite: bool)

  /** Operator-declared columns of a routing profile. */
  datatype ProfileDraft = ProfileDraft(
    enabled: bool,
    cost: int,
    capacity: int,
    remaining: int,
    resetAt: Option<int>,
    priority: int)

  /** Terminal metadata submitted for a run. */
  datatype Completion = Completion(
    status: RunStatus,
    artifacts: seq<Artifact>,
    evidence: Option<Evidence>,
    decision: Option<ReuseDecision>,
    identity: Option<Identity>,
    identityHash: Option<string>,
    retention: Option<int>)
}
