# Dev Agent Switchboard: verified coordination core

A Dafny model of the coordination logic of Dev Agent Switchboard, with proofs about whole
runs. It covers five parts of the server:

* **Execution plane** – work orders, runs, leases, workers and operator-owned routing
  profiles. `Events.dfy` is the transition system, `PlaneInvariant.dfy` the cross-table
  invariant, and `Changes.dfy` reduces every event to one of ten kinds of change.
  `PlaneSteps.dfy` proves that the invariant is kept; `PlaneTheorems.dfy`, `Revisions.dfy`,
  `Headroom.dfy`, `Ceiling.dfy`, `Outcomes.dfy`, `LeaseLife.dfy`, `ReuseTheorems.dfy`,
  `EvidenceTheorems.dfy`, `Lookup.dfy` and `Sweep.dfy` hold the results over all runs.
  `TableExactness.dfy` shows that the declared status tables are exactly what happens, and
  `Drafts.dfy` is what a new work order must satisfy.
  `ExecutionRepository.dfy` (guarded row updates) and `ExecutionService.dfy` (request
  transactions with savepoints) are imperative; every service method is proved to be exactly
  one event of the transition system, or a run of them, and says when it is refused.
  `OperatorSessions.dfy` breaks operator writes into their single statements and interleaves
  them with everything else.
* **Routing** – `Routing.dfy` (eligibility and ranking), `Selection.dfy` (who wins an order)
  and `Checkout.dfy` (what a checkout must answer).
* **GitHub publication** – `Publication.dfy`: the claim row, and any number of publishers
  interleaved over it and over the remote comments.
* **Task plane** – `Tasks.dfy`, `TaskTheorems.dfy`, `Draining.dfy`, `TaskService.dfy`.
* **Rate limiter** – `RateLimit.dfy`.

`dafny verify dfyconfig.toml` checks the whole project.

## How the model relates to the code

* Tables: orders and runs are never deleted and are sequences indexed by key; a lease is keyed
  by its run, which is a unique column. The surrogate lease key is dropped; leases and runs are
  created together, so both keys give the same order.
* Time is an integer (a real in the rate limiter) and every reading is a parameter, so no result
  depends on a monotone clock unless it says so. A checkout takes a separate reading for the
  sweep, the poll and each order it examines.
* A request that raises a domain error is rolled back as a whole by the router
  (`server/api/routers/execution.py:593-600`), so a failed call leaves all tables unchanged.
* Identity hashing, capability matching and the approval verdict are parameters: an arbitrary
  function, an arbitrary list of mismatches and an arbitrary Boolean. Nothing relies on the
  hash being injective.
* `ledger` in the plane, `acquires`, `results`, `created` and `writes` in the publication world and
  `asked` and `history` in the rate limiter are history variables that no operation reads.
* Publication assumes that a remote write takes effect at most once, not after its call has
  returned or raised, and before the claim that was renewed for it runs out, that only a write
  that took effect is confirmed, and that nobody else posts as the actor. Others may delete or edit comments at any time. Each clock reading
  may be older than the statement that uses it.

Findings that a reader of the code might not expect:

* A lease with an unspent reservation cannot be closed while its profile is at revision
  2147483647, and nothing lowers a revision. It stays unclosable through a run of operations if
  and only if its owner does not beat before the lease expires
  (`Ceiling.StuckIffNoTimelyBeat`). The reserve guard leaves room for one release only, so a worker
  with two slots can be driven into that state by permitted operations
  (`Ceiling.TwoSlotsCanGetStuck`); a worker with one slot cannot (`Headroom.SingleSlotIsSafe`).
* Once it is stale, one such lease makes the expiry of all stale leases fail, and with it every
  later checkout of every worker (`Ceiling.EveryLaterCheckoutFails`).
* The checkout branch that answers `worker_repository_unavailable` from the collected reasons
  (`server/execution/service.py:973-975`) is never reached: such an order was already reported
  as a routing obstacle (`Checkout.CapabilitiesMissingIsTrue`).
* The run table declares a queued status that no run ever has; all other entries of both status
  tables are used (`TableExactness.OrderTableIsExact`, `TableExactness.RunTableIsExact`).
* Completion accepts fresh evidence whose environment or locks differ from its identity, or whose
  retention ends before its start; a later lookup rejects it. `Lookup.FreshSuccessIsFound` says
  exactly which accepted successes can be reused, and until when (fingerprint and distinct paths,
  which the evidence schema demands, are among its conditions because schemas are not modelled).
* `update_task` can tie tasks into a knot, a set of pending tasks each waiting for another of the
  set. Until a member is completed, deleted or rewired by hand, none of them is ever handed out
  (`Draining.KnotStays`). With nobody at work, the queue drains exactly if it contains no knot
  (`Draining.DrainsIffNoKnot`).

## Model

| member | source | states |
|---|---|---|
| `Lifecycle.TerminalMeansNoWayOut` | server/execution/transitions.py:7-80 | terminal statuses are exactly those with no outgoing transition, and an order may always follow its run's end |
| `Changes.EventDoes` | server/execution/service.py:366-1646 | every operation makes exactly one of ten kinds of legal change, or none |
| `PlaneSteps.EventKeepsInv` | server/execution/service.py:366-1646 | every operation, with any arguments, keeps the cross-table invariant |
| `PlaneTheorems.EveryRunKeepsInv` | server/execution/service.py:283-1646 | the invariant holds after every run of operations from empty tables |
| `PlaneTheorems.TermsStayValid` | server/execution/service.py:283-347 | over any run, every order asks for quota and cost within bounds and is pinned, if at all, to a registered worker |
| `PlaneTheorems.ActiveMeansOneLease` | server/execution/repository.py:494-581 | an order is assigned or running iff a lease names it; the lease is unique and its run is the order's only unfinished run, with matching status and worker |
| `PlaneTheorems.SlotsAreExact` | server/execution/repository.py:408-492 | the slot counter equals the number of leases held, and an online worker has a free slot, re-registration included |
| `PlaneTheorems.EventFollowsTables` | server/execution/transitions.py:7-80 | every status change is one the declared tables allow, terminal rows do not change, and run identity, route and start instant are fixed |
| `TableExactness.OrderTableIsExact` | server/execution/transitions.py:7-55 | an order changes from one status to another in some history exactly if the table declares it: every entry is used |
| `TableExactness.RunTableIsExact` | server/execution/transitions.py:57-80 | the same for runs, except that the declared queued status is never taken |
| `PlaneTheorems.HistoryIsKept` | server/execution/transitions.py:83-96 | over any run, finished orders and runs stay exactly as they are and a settled reservation stays settled |
| `PlaneTheorems.AttemptsAreExact` | server/execution/repository.py:494-581 | an order has exactly one run for each attempt number from 1 to its attempt count and none beyond, only the last may be active, and an order never approved has none |
| `Outcomes.EventKeepsOutcomes` | server/execution/service.py:1590-1642 | every operation keeps an order's outcome equal to that of its last run |
| `Outcomes.OutcomeIsLastRuns` | server/execution/repository.py:1083-1130 | after every run, an order that succeeded, failed or timed out has a last run that ended so at the same instant, and a last run that succeeded or failed settled its order |
| `PlaneTheorems.ChargedExactlyOnce` | server/execution/repository.py:583-694 | a finished run with reserved units is consumed iff it started and released iff it did not; while unfinished, its order mirrors its quota state |
| `PlaneTheorems.StartedIffBeaten` | server/execution/repository.py:1020-1050 | over any run of operations, exactly the runs that had an accepted beat have a start instant |
| `PlaneTheorems.ChargedIffBeaten` | server/execution/repository.py:583-694 | from empty tables, a finished run with reserved units is consumed iff it had an accepted beat and released iff it had none |
| `LeaseLife.BeatIsRecorded` | server/execution/service.py:1302-1336 | an accepted beat moves the expiry on lease and run to the given instant, starts run and order on the first beat only, spends the reservation, and changes no other row or column |
| `LeaseLife.LeaseIsExclusive` | server/execution/repository.py:969-1018 | unless its owner reports an outcome, its order is cancelled, or it is expired after its time, beats counting, a lease is held by its owner with an active run in every plane of the run |
| `LeaseLife.BeatRenews` | server/execution/repository.py:969-989 | from an accepted beat on, through every run that spares the lease, it is live for its owner and neither stale nor swept at any instant up to the one the beat set |
| `LeaseLife.ExpiryIsLastBeats` | server/execution/repository.py:1020-1050 | after every run from empty tables a lease expires exactly when its last accepted beat, or else its claim, said, and its run says the same |
| `LeaseLife.LiveOrStale` | server/execution/repository.py:944-989 | at every instant a lease is either live for its owner or stale |
| `PlaneTheorems.QuotaIsConserved` | server/execution/repository.py:375-406 | from one operator write that takes effect to the next, refused ones in between allowed, remaining quota plus reserved and consumed units is what the write set, and unspent reservations fit back under the capacity |
| `PlaneInvariant.RefundFits` | server/execution/repository.py:628-694 | returning a reservation never exceeds the capacity |
| `PlaneInvariant.ClosableIff` | server/execution/service.py:1590-1642 | every guard of closing a lease holds, except for an unspent reservation at the revision ceiling |
| `Revisions.EventMovesRevision` | server/execution/repository.py:314-406 | an operation that changes a profile or reserves on it strictly raises its revision |
| `Revisions.RevisionsNeverRepeat` | server/execution/repository.py:314-406 | over any run, an equal revision means an untouched profile and no new reservation |
| `Revisions.ReceiptsAreUnique` | server/execution/repository.py:375-406 | after every run from empty tables, runs charged to the same profile recorded strictly increasing revisions in the order they were claimed, none ahead of the profile |
| `OperatorSessions.CommitFindsNoReservation` | server/execution/service.py:575-656 | a compare-and-set that commits finds no reserved run although the count was read earlier, and equals the atomic write |
| `OperatorSessions.InterleavingRefinesAtomic` | server/execution/service.py:575-656 | any interleaving of single statements of operators with everything else gives the same tables as a run of atomic operations |
| `OperatorSessions.OptimisticWritesAreSound` | server/execution/service.py:575-656 | the same from empty tables, for whatever was interleaved before |
| `OperatorSessions.CommitsIff` | server/execution/service.py:575-656 | a compare-and-set commits exactly if the atomic write is permitted at that moment and the operator had read the revision it expected |
| `OperatorSessions.PermittedWriteCommits` | server/execution/service.py:575-656 | read, count and compare-and-set with anything by others in between take the atomic write into effect whenever it is permitted at the end and nothing was reserved at the count |
| `Headroom.HeadroomFreesLeases` | server/execution/repository.py:649-669 | a lease can be closed whenever revision plus unspent reservations is within the ceiling |
| `Headroom.EventKeepsHeadroom` | server/execution/repository.py:385-392 | only a claim on the worker's own profile can use up that headroom |
| `Headroom.SingleSlotNeverStuck` | server/execution/repository.py:385-392 | a worker that never registers more than one slot never has a stuck lease, over any run from a plane with headroom |
| `Headroom.SingleSlotIsSafe` | server/execution/repository.py:385-392 | corollary: the same from empty tables |
| `Ceiling.StuckForever` | server/execution/repository.py:649-669 | a lease at the ceiling whose owner does not beat before the lease expires stays unclosable through every run of operations |
| `Ceiling.TimelyBeatFrees` | server/execution/repository.py:583-626 | a beat by the owner before the lease expires makes it closable again |
| `Ceiling.StuckIffNoTimelyBeat` | server/execution/repository.py:583-669 | exactly: such a lease is unclosable in every plane of a run iff the run contains no beat by its owner before it expires |
| `Ceiling.EveryLaterCheckoutFails` | server/execution/service.py:872-880 | once such a lease is stale, every later checkout of every worker fails and changes nothing, whatever happens in between |
| `Ceiling.TwoSlotsCanGetStuck` | server/execution/repository.py:385-392 | with two slots, permitted operations alone reach such a lease; unless a later beat by its worker reads a clock before its expiry it is never closed again and every later checkout fails |
| `Sweep.SweepSucceedsIff` | server/execution/service.py:1360-1399 | expiring stale leases succeeds iff, for each profile, revision plus its stale reservations is within the ceiling |
| `Sweep.SweepIsExact` | server/execution/service.py:1360-1399 | expiry removes exactly the stale leases, times out exactly their runs, requeues exactly their orders, frees exactly their slots, returns exactly their unspent quota with one revision per release, and leaves every other row as it was |
| `Sweep.SweepIsTrace` | server/execution/service.py:1360-1399 | expiry equals lapsing the stale leases one by one |
| `Sweep.SweepKeepsInv` | server/execution/service.py:1360-1399 | the invariant survives and a second expiry at the same instant changes nothing |
| `Reuse.AcceptedPromises` | server/execution/service.py:1648-1762 | an accepted completion names a source only if reused, copies the resolved candidate, and cannot succeed unreused under an exact-only policy |
| `Reuse.CancellationAccepted` | server/execution/service.py:1648-1762 | a cancellation is never declined for reuse reasons |
| `EvidenceTheorems.EvidenceRefusedIff` | server/execution/service.py:1764-1787 | evidence is refused exactly if it does not name the run, its order, worker, subject, outcome and artifacts, or if artifacts come without it |
| `EvidenceTheorems.DeclinedForCause` | server/execution/service.py:1648-1762 | the objection a declined completion is given is one that applies, each objection being spelled out on columns |
| `EvidenceTheorems.DeclinedForFirst` | server/execution/service.py:1648-1762 | no objection that is looked for earlier applies |
| `EvidenceTheorems.AcceptedIff` | server/execution/service.py:1648-1787 | a completion is accepted exactly if no objection applies |
| `EvidenceTheorems.CanCompleteIff` | server/execution/service.py:1338-1358 | a completion takes place exactly if it reports an end, the lease is the worker's and has not run out, no unspent reservation is at the ceiling, and no objection applies |
| `EvidenceTheorems.AcceptedWithoutObjection` | server/execution/service.py:1747-1762 | an accepted completion stores its decision or the default, its identity or the one on the run, and the resolved source exactly if it reuses |
| `EvidenceTheorems.FreshReportIsStored` | server/execution/service.py:1574-1762 | the live owner's fresh evidence of its own run, under a fitting identity, is accepted and stored as submitted |
| `EvidenceTheorems.EventKeepsEvidence` | server/execution/service.py:1590-1642 | every operation keeps stored evidence genuine |
| `EvidenceTheorems.EvidenceIsGenuine` | server/execution/service.py:1764-1787 | after every run from empty tables, evidence on a run names that run, its order, worker, subject, outcome and artifacts, its provenance repeats the run's reuse columns and all artifacts share the stored retention; without evidence there are no artifacts |
| `Reuse.NewestIsNewest` | server/execution/service.py:1256-1270 | no newer matching run passes validation, and if none was found with room left in the listing, none does |
| `Reuse.ListThenValidate` | server/execution/repository.py:696-731 | listing newest first and stopping at the first valid row finds the newest acceptable source among the first 32 matches |
| `Lookup.ValidatedIff` | server/execution/service.py:1468-1551 | a row passes validation exactly if its columns allow it to be offered now: succeeded, fresh, own evidence, kept beyond now, worker still serving the repository; the candidate repeats the row |
| `Lookup.LookupIsExact` | server/execution/service.py:1254-1268 | the lookup returns the newest offerable row among the newest matches within the limit, and nothing only if every offerable row has that many newer matches |
| `Lookup.FreshSuccessStays` | server/execution/service.py:1590-1642 | a fresh success that was reported stays as stored, with its order, through every run |
| `Lookup.FreshSuccessIsFound` | server/execution/service.py:1226-1268 | end to end: after any operations in between, a worker's fresh success is usable by its later lookup of the same identity iff retention has not ended, the worker still serves the repository and the evidence is sturdy, and unless 32 newer matches hide it that lookup returns it or a newer usable run |
| `ReuseTheorems.EventKeepsReuse` | server/execution/service.py:1226-1295 | every operation keeps the provenance invariant |
| `ReuseTheorems.ReuseProvenance` | server/execution/service.py:1468-1551 | a reused run names another, succeeded, fresh, non-reusing run of the same worker and identity whose row never changes; never-reuse orders do not reuse; exact-only successes are reused |
| `ReuseTheorems.EveryRunKeepsReuse` | server/execution/service.py:1648-1762 | provenance holds after every run from empty tables |
| `Routing.EligibleIff` | server/execution/routing.py:61-131 | a worker is eligible iff none of the listed reasons applies |
| `Routing.EligibleByColumns` | server/execution/routing.py:61-131 | eligibility in plain columns, with the freshness windows closed at both ends and every bound written out |
| `Routing.EligibleUntil` | server/execution/routing.py:223-233 | an eligible worker that does nothing stays eligible exactly up to the earlier end of its heartbeat and poll windows |
| `Routing.EvaluateRoutingCandidate` | server/execution/routing.py:61-131 | the reasons returned are exactly those that apply, without repeats, and the worker is a candidate iff there are none |
| `Routing.FirstPresentIsFirst` | server/execution/routing.py:180-200 | the reported reason is the first of a precedence list that applies, and missing capabilities only if none does |
| `Routing.ReportIsLeast` | server/execution/routing.py:180-200 | a pinned order names its pin; otherwise the applying reason of lowest standing is named, and missing capabilities only if just those, or a pin, speak against the worker |
| `Routing.LoadTransitive` | server/execution/routing.py:162-165 | comparing load fractions by cross-multiplication is transitive, also where they tie |
| `Routing.CompareIgnoresQuota` | server/execution/routing.py:157-160 | the units an order needs do not influence the comparison |
| `Routing.PrecedesMeans` | server/execution/routing.py:144-175 | the comparison prefers lower cost, then more remaining quota, then the smaller load as a real fraction, then priority, then id |
| `Routing.CompareTotal` | server/execution/routing.py:139-175 | of two different workers exactly one precedes the other |
| `Routing.CompareTransitive` | server/execution/routing.py:139-175 | precedence is transitive for workers with at least one slot |
| `Routing.RankRanks` | server/execution/routing.py:134-177 | ranking sorts by that order |
| `Routing.RankingIsUnique` | server/execution/routing.py:134-177 | a set of candidates has only one ranking, whatever order it is listed in |
| `Routing.HeadIsBest` | server/execution/routing.py:134-177 | the head of the ranking is the one candidate that precedes all others |
| `Selection.OneBest` | server/execution/service.py:934-948 | two workers are never both the best for an order |
| `Selection.PollKeepsWinner` | server/execution/service.py:880-890 | whoever wins an order at one time still wins it at any later time after its own poll, if its heartbeat and poll are fresh then: rivals only lose eligibility |
| `Selection.BlockersPolledRecently` | server/execution/routing.py:223-233 | corollary: whoever keeps an eligible worker from an order polled within the freshness window |
| `Selection.QuietRivalsDoNotBlock` | server/execution/routing.py:94-105 | if all rivals have been silent longer than the window, an eligible worker wins |
| `Checkout.WinnerCanClaim` | server/execution/service.py:982-1070 | a winner's claim succeeds iff its profile is not at the reservation ceiling |
| `Checkout.SelectedWorkerIsServed` | server/execution/service.py:658-745 | a worker selected by an assessment gets that order at its own later checkout, or an older one it wins, if no lease is stale and its heartbeat and poll are fresh when the order is examined |
| `Checkout.BetterCandidatePolledRecently` | server/execution/service.py:934-948 | a worker told that a better candidate is active lost a queued order to the best worker for it, which polled within the window |
| `Checkout.NothingQueuedIsTrue` | server/execution/service.py:961-980 | unless a reservation failed, a worker is told that nothing is queued exactly if nothing is |
| `Checkout.StatusIsTold` | server/execution/service.py:1197-1205 | a worker is told that it is unavailable exactly if it is draining or offline, and that it has no free slot exactly if it is busy, after stale leases gave slots back |
| `Checkout.CapabilitiesMissingIsTrue` | server/execution/service.py:961-980 | a worker is told that capabilities are missing exactly if something is queued and all of it is unpinned first-available work it lacks only capabilities for; the plain repository answer is never given |
| `Checkout.CheckoutIsOnePoll` | server/execution/service.py:872-890 | a checkout records the asking worker's poll and nobody else's, refreshes no heartbeat, and of worker rows changes only slots and status besides |
| `Checkout.OneReport` | server/execution/routing.py:180-200 | the reported route reason is determined by the worker and the order |
| `Checkout.QuietRivalsMeanWork` | server/execution/service.py:892-980 | an eligible worker whose rivals are silent is given work |
| `Checkout.RoutedWorkGoesToTheBest` | server/execution/service.py:934-957 | a routed order goes only to the unique best worker; the recorded cost is that of its profile, respects the order's ceiling, and no eligible worker is cheaper |
| `Checkout.AssignmentIsRecorded` | server/execution/service.py:982-1070 | the order, run, lease, worker and profile rows after an assignment, column by column: the whole route, the next attempt, the lease until now plus its duration, a taken slot, exactly the required units less quota at the next revision, and no other row changed |
| `Repository.ExecutionRepository.TransitionUnleasedWorkOrder` | server/execution/repository.py:1172-1190 | hits iff the order is in one of the expected statuses, and changes only that row |
| `Repository.ExecutionRepository.ClaimQueuedWorkOrder` | server/execution/repository.py:494-519 | claims iff the order is queued |
| `Repository.ExecutionRepository.CreateActiveRun` | server/execution/repository.py:521-581 | appends the run numbered by the order's attempt counter, with its lease |
| `Repository.ExecutionRepository.ConsumeRunQuotaReservation` | server/execution/repository.py:583-626 | succeeds iff nothing is reserved or run and order are both reserved, and then spends both |
| `Repository.ExecutionRepository.ReleaseRunQuotaReservation` | server/execution/repository.py:628-694 | succeeds iff nothing is reserved or the refund fits below the capacity and the ceiling, and then returns the units once |
| `Repository.ExecutionRepository.ReserveRoutingQuota` | server/execution/repository.py:375-406 | reserves iff enabled, at the expected revision, below the ceiling and with enough quota |
| `Repository.ExecutionRepository.ReplaceRoutingProfile` | server/execution/repository.py:314-334 | writes iff the revision is the expected one and below the ceiling |
| `Repository.ExecutionRepository.ResetRoutingQuota` | server/execution/repository.py:336-362 | additionally requires the capacity to cover the new quota |
| `Repository.ExecutionRepository.CountReservedQuotaRuns` | server/execution/repository.py:364-373 | counts the reserved runs of the worker; zero iff there is none |
| `Repository.ExecutionRepository.MarkActiveRunRunning` | server/execution/repository.py:1020-1050 | hits iff the run is active; the start instant is set only on the first beat |
| `Repository.ExecutionRepository.MarkActiveWorkOrderRunning` | server/execution/repository.py:1052-1081 | hits iff the order is active; the start instant is set only on the first beat |
| `Repository.ExecutionRepository.FinishActiveRun` | server/execution/repository.py:1083-1102 | hits iff the run is active |
| `Repository.ExecutionRepository.FinishActiveWorkOrder` | server/execution/repository.py:1104-1130 | hits iff the order is active |
| `Repository.ExecutionRepository.RequeueStaleActiveWorkOrder` | server/execution/repository.py:1149-1170 | hits iff the order is active, and requeues it |
| `Repository.ExecutionRepository.RenewOwnedLiveLease` | server/execution/repository.py:969-989 | renews iff the lease is live and owned |
| `Repository.ExecutionRepository.ConsumeLease` | server/execution/repository.py:991-1018 | deletes iff the lease is what the caller saw and as live or stale as demanded |
| `Repository.ExecutionRepository.ReserveWorkerCapacity` | server/execution/repository.py:432-459 | takes a slot iff the worker is online with a free one |
| `Repository.ExecutionRepository.ReleaseWorkerCapacity` | server/execution/repository.py:461-492 | frees a slot iff one is taken |
| `Repository.ExecutionRepository.UpsertWorker` | server/execution/repository.py:233-262 | keeps the slot counter and never leaves a full worker online |
| `Repository.ExecutionRepository.UpdateWorkerHeartbeat` | server/execution/repository.py:408-430 | refreshes liveness and never leaves a full worker online |
| `Repository.ExecutionRepository.UpdateActiveRunReuse` | server/execution/repository.py:733-752 | records reuse columns iff the run is active |
| `Repository.ExecutionRepository.ListExactReuseCandidates` | server/execution/repository.py:696-731 | the matching runs, newest first, at most 32 |
| `Repository.ExecutionRepository.ListStaleLeases` | server/execution/repository.py:944-967 | exactly the stale leases, in key order |
| `Drafts.StoredCommitIsCanonical` | server/execution/service.py:319-324 | an accepted commit is stored in its one lower-case spelling, digit by digit |
| `Drafts.CommitsAreHex` | server/execution/service.py:1409-1413 | a commit is forty hexadecimal digits in either case |
| `Service.ExecutionService.CreateWorkOrder` | server/execution/service.py:283-347 | one event; done iff schema, commit, write policy, routing integers, registry, manifest parameters and pinned worker are all acceptable, each spelled out; the stored row has exactly the drafted terms, and each refusal names its cause |
| `Service.ExecutionService.ApproveWorkOrder` | server/execution/service.py:366-389 | one event; done iff pending and approvable; sets status, approval and queue instants and nothing else |
| `Service.ExecutionService.QueueWorkOrder` | server/execution/service.py:391-407 | one event; done iff approved; sets status and queue instant and nothing else |
| `Service.ExecutionService.RejectWorkOrder` | server/execution/service.py:409-428 | one event; done iff pending; sets status and end instant and nothing else |
| `Service.ExecutionService.ExpireWorkOrder` | server/execution/service.py:430-449 | one event; done iff approved or queued; sets status and end instant and nothing else |
| `Service.ExecutionService.CancelWorkOrder` | server/execution/service.py:451-498 | one event; refused only for an unknown or terminal order or a lease at the ceiling, never for a half-finished transition; a leased run ends cancelled without evidence and its slot and unspent quota are returned |
| `Service.ExecutionService.RegisterWorker` | server/execution/service.py:500-532 | one event; done iff no write capability and at least one slot is declared; the row has the declared columns, keeps slots and poll, and a full worker asking to be online becomes busy |
| `Service.ExecutionService.HeartbeatWorker` | server/execution/service.py:534-544 | one event; done iff the worker is known; sets the heartbeat and, if asked, the status, online becoming busy for a full worker |
| `Service.ExecutionService.CreateRoutingProfile` | server/execution/service.py:546-560 | one event; done iff the worker is known, has no profile and the draft is valid; the profile has the drafted columns at revision 1 |
| `Service.ExecutionService.ReplaceRoutingProfile` | server/execution/service.py:575-599 | one event; done iff nothing is reserved, the revision matches below the ceiling and the draft is valid; the profile has the drafted columns at the next revision |
| `Service.ExecutionService.ResetRoutingQuota` | server/execution/service.py:601-656 | one event; done iff the reset may be applied or already was; remaining quota, reset instant and revision are set, the other columns stay |
| `Service.ResetIsIdempotent` | server/execution/service.py:631-639 | corollary: an applied reset is recognised as a replay and changes nothing again |
| `Service.ExecutionService.HeartbeatRun` | server/execution/service.py:1302-1336 | one event; done iff the lease is owned and has not run out, so the not-active conflict cannot occur; the lease then runs until now plus its duration, on lease and run, and the first beat starts run and order |
| `Service.ExecutionService.CloseLease` | server/execution/service.py:1590-1642 | the guarded updates of a savepoint all take effect or none does; they fail only at the ceiling |
| `Service.ExecutionService.FinishActiveLease` | server/execution/service.py:1574-1646 | done iff admissible, in time and closable; declined for its evidence exactly if that is not evidence of this run; the transition conflict occurs only at the ceiling |
| `Service.ExecutionService.CompleteRun` | server/execution/service.py:1338-1358 | one event; done iff the live lease is owned, the completion is admissible and the lease closable; declined for its evidence exactly if the owner submits evidence that does not name this run, or artifacts without evidence; all columns of run, order, worker and profile afterwards, and no other row changed |
| `Service.ExecutionService.ExpireStaleLeases` | server/execution/service.py:1360-1399 | all stale leases lapse and are reported with their orders, or the request fails and none does |
| `Service.ExecutionService.RequeueStaleWorkOrder` | server/execution/service.py:1401-1407 | done iff the sweep succeeds and that order's lease was stale; otherwise nothing changes |
| `Service.ExecutionService.ResolveReuseCandidate` | server/execution/service.py:1226-1295 | one event; done iff the live owner asks for a fitting identity of an opted-in order; the answer is the newest offerable run among the newest 32 matches, and it is remembered on the asking run alone |
| `Service.ExecutionService.RoutingEligibilities` | server/execution/service.py:1091-1122 | exactly the eligible workers, each once, and exactly the reasons against some worker |
| `Service.ExecutionService.SelectBest` | server/execution/service.py:934-948 | the best worker, or none iff nobody is eligible |
| `Service.ExecutionService.AssessRoute` | server/execution/service.py:658-745 | changes nothing; a selected worker wins the order, with its revision and cost if routed; a routed order has a selection unless nobody is eligible; the reason says so or names what speaks against the workers |
| `Service.ExecutionService.ClaimRoutedWork` | server/execution/service.py:982-1070 | slot, quota, order, run and lease are taken together, or the tables stay as they were; with `Checkout.AssignmentIsRecorded`, every column written |
| `Service.ExecutionService.TryOrder` | server/execution/service.py:900-961 | an order is taken iff the worker wins it and its profile is below the ceiling |
| `Service.ExecutionService.CheckoutEligibleWork` | server/execution/service.py:892-980 | the oldest order the worker wins is assigned; with no assignment no order is won, unless the oldest win hits the reservation ceiling; the worker is told the first routing obstacle and exactly the reasons against it |
| `Service.ExecutionService.Checkout` | server/execution/service.py:872-890 | sweep, poll and scan as one transaction, with the exact answer in every case |
| `Service.CheckoutIsRun` | server/execution/service.py:872-1070 | a checkout is a run of events of the transition system |
| `Claims.GitHubAdapterRepository.AcquirePublicationClaim` | server/github_adapter/repository.py:60-96 | acquires iff the claim is free or expired |
| `Claims.GitHubAdapterRepository.RenewPublicationClaim` | server/github_adapter/repository.py:138-164 | renews iff the token still holds an unexpired claim |
| `Claims.GitHubAdapterRepository.FinalizePublicationClaim` | server/github_adapter/repository.py:98-136 | stores a result and frees the claim iff the token holds it |
| `Publication.StepKeepsOk` | server/github_adapter/service.py:507-670 | every step of every publisher, and every disturbance, keeps the protocol invariant |
| `Publication.AtMostOneManagedComment` | server/github_adapter/service.py:507-590 | in every interleaving at most one owned comment carries the marker |
| `Publication.AtMostOneCreate` | server/github_adapter/service.py:507-590 | if nobody else touches the comments, at most one create ever takes effect; that one does is `Publication.PublishCreates` |
| `Publication.FinalizeIsFenced` | server/github_adapter/service.py:487-505 | a result is stored only by the publisher that acquired last and in the order of the acquires; a stale publisher changes nothing |
| `Publication.OneWriter` | server/github_adapter/service.py:655-670 | writes that may still take effect belong to one publisher |
| `Publication.HolderKeepsClaim` | server/github_adapter/repository.py:60-164 | until its time is up or it finalizes, the holder stays the holder and nobody else acquires |
| `Publication.AcquireGrants` | server/github_adapter/repository.py:60-96 | a new call gets the claim exactly if it is free or has run out by the call's clock reading, and then holds it for five minutes from that reading |
| `Publication.RenewOrAcquire` | server/github_adapter/repository.py:60-164 | at every instant either the holder can renew or others can acquire, never both and never neither |
| `Publication.OthersWait` | server/github_adapter/service.py:295-330 | until the claim of a publisher runs out, nothing other publishers do changes its call, the claim, the comments or the writes |
| `Publication.PublishCreates` | server/github_adapter/service.py:545-566 | with no managed comment around, a publisher that holds the claim, lists completely, renews in time and writes before the deadline creates exactly one, whatever other publishers do in between |
| `Publication.PublishUpdates` | server/github_adapter/service.py:516-558 | with one managed comment around, such a publisher that finds it by record or listing, also after an unclear create, verifies and writes that comment and creates nothing |
| `Publication.UnclearCreateIsLookedInto` | server/github_adapter/service.py:567-583 | an unclear create leads to a listing: its one comment is taken up, and with none the attempt ends; nothing is created again |
| `Publication.GivingUpWritesNothing` | server/github_adapter/service.py:592-670 | after an incomplete listing, a failed verification, a lost claim or any other failure before the write, the publisher writes nothing, ever |
| `Publication.ConfirmedIsRecorded` | server/github_adapter/service.py:465-485 | a confirmed write is put on record with the comment that was written |
| `Publication.FailureKeepsComment` | server/github_adapter/service.py:433-464 | a failed attempt changes the state on record and keeps the comment |
| `Publication.WritesAreFenced` | server/github_adapter/service.py:655-670 | in every interleaving writes take effect in the order of the acquires, so an older publisher never overwrites a newer text |
| `Publication.RecordIsTrue` | server/github_adapter/service.py:465-505 | in every interleaving a publication on record was written by the publisher that stored it, and every comment on record was written |
| `Publication.FirstPublication` | server/github_adapter/service.py:295-330 | corollary: the first publication of a request creates one comment and records it |
| `Tasks.StepKeepsOk` | server/application/task_service.py:70-261 | every operation keeps: a lease implies a task in progress, dependencies exist, none is the task itself |
| `TaskTheorems.EveryRunKeepsOk` | server/application/task_service.py:70-261 | that holds after every run |
| `TaskTheorems.LeaseIsExclusive` | server/domain/policies.py:15-69 | as long as each event comes while the lease is live, renewals counting, and neither its holder nor an operator gives it up, no event of the run lets another agent obtain, complete or abandon the task |
| `TaskTheorems.UntilExpiry` | server/domain/policies.py:15-69 | without renewals that holds for every run before the lease expires |
| `TaskTheorems.HeartbeatRenews` | server/application/task_service.py:133-150 | a holder whose lease has not run out keeps the task until the instant its beat set, through every run that spares the lease |
| `TaskTheorems.FastPathAgrees` | server/application/task_service.py:317-329 | whenever the status lookup answers it agrees with the repository test, and with all dependencies present it always answers |
| `TaskTheorems.CheckoutPicksFirst` | server/infrastructure/repositories.py:82-100 | the highest-priority, then oldest, available task is unique and is the one handed out |
| `Draining.CreateKeepsLayered` | server/application/task_service.py:197-216 | without re-wiring updates, dependencies point to older tasks only |
| `Draining.QueueDrains` | server/application/task_service.py:70-175 | without cycles, as many rounds as there are pending tasks drain the queue: each checkout hands out the next task of the order and leases it to the asking agent, dependencies come first, and completing what was handed out finishes everything |
| `Draining.UnwiredBooksDrain` | server/application/task_service.py:197-216 | corollary: after any run from an empty book without re-wiring, the queue drains once nobody is at work |
| `Draining.DrainedMeansRanked` | server/application/task_service.py:94-124 | rounds that complete only what they were handed finish everything only if the pending tasks wait in no cycle |
| `Draining.KnotStays` | server/application/task_service.py:94-124 | through every run that does not untie it by hand, the tasks of a knot stay pending and unavailable at any time |
| `Draining.RankedOrKnotted` | server/application/task_service.py:94-124 | pending tasks that form no knot can be ranked |
| `Draining.DrainsIffNoKnot` | server/application/task_service.py:70-175 | the queue of a book nobody works on drains iff it contains no knot |
| `Draining.UpdatesCanDeadlock` | server/application/task_service.py:218-254 | updates can tie a knot, and its tasks then stay pending and unavailable through every run that does not untie it by hand |
| `TaskPlane.TaskService.ListCandidates` | server/infrastructure/repositories.py:82-100 | every task once, by priority and then id |
| `TaskPlane.TaskService.DependenciesCompletedInTable` | server/infrastructure/repositories.py:227-234 | true iff every existing dependency is completed |
| `TaskPlane.TaskService.DependenciesCompletedFromRecords` | server/application/task_service.py:317-329 | the lookup with its early answers |
| `TaskPlane.TaskService.ExpireStale` | server/infrastructure/repositories.py:380-393 | drops exactly the overdue leases and requeues exactly their tasks |
| `TaskPlane.TaskService.Checkout` | server/application/task_service.py:70-131 | hands out the first available task, or the one asked for, iff there is one; its dependencies are completed, the agent holds it until now plus the lease duration, and overdue leases aside nothing else changes |
| `TaskPlane.TaskService.Heartbeat` | server/application/task_service.py:133-150 | extends to now plus the lease duration iff the lease is live and owned, and changes nothing else |
| `TaskPlane.TaskService.Complete` | server/application/task_service.py:152-175 | completes the task and drops its lease iff it exists and is unleased, owned or expired |
| `TaskPlane.TaskService.Abandon` | server/application/task_service.py:177-195 | requeues the task and drops its lease iff it exists and is unleased, owned or expired |
| `TaskPlane.TaskService.CreateTask` | server/application/task_service.py:197-216 | done iff every dependency exists; the new task is pending with exactly those dependencies, in order |
| `TaskPlane.TaskService.UpdateTask` | server/application/task_service.py:218-254 | each refusal has exactly its cause; given columns are taken over, the others stay; a pending or completed status drops the lease |
| `TaskPlane.TaskService.DeleteTask` | server/infrastructure/repositories.py:207-221 | removes the task, its lease and every edge to it |
| `TaskPlane.TaskService.Analyse` | server/infrastructure/repositories.py:245-329 | each counter is the size of the set its name promises |
| `TaskPlane.AnalyticsAgree` | server/infrastructure/repositories.py:271-309 | in every reachable book nothing is missing, ready plus blocked is pending, and ready tasks are exactly the available ones |
| `RateLimit.RateLimiter.Dispatch` | server/middleware/rate_limit.py:108-140 | refuses iff the closed window ending now already holds the limit; afterwards, for every client, no closed interval of the window's length holds more |
| `RateLimit.RateLimiter.EveryWindowHolds` | server/middleware/rate_limit.py:121-138 | whatever was dispatched so far, each client's admissions are those of its request times, and every window and every bucket is within the limit |
| `RateLimit.WithinCounts` | server/middleware/rate_limit.py:117-124 | the admissions in a window are counted one by one, both ends of the window included |
| `RateLimit.WindowBound` | server/middleware/rate_limit.py:121-138 | spaced admissions put at most the limit into any closed interval of the window's length |
| `RateLimit.EveryWindowIsBounded` | server/middleware/rate_limit.py:108-140 | the admissions of any ordered sequence of requests put at most the limit into any closed interval of the window's length |

## Left out

- `RateLimit.RateLimiter.Dispatch`: real instead of floating-point time; client identification, bypass lists and settings that change at run time are not modelled.
- Evidence schemas, canonical JSON and hash computation: evidence is a record and hashing an arbitrary function.
- Capability matching, the contents of the trusted registry and workload profiles: static data behind parameters.
- The HTTP transport of the GitHub adapter: an abstract set of comments with get, list, create and update.
- Early exits of a publication attempt (head changes, missing evidence): all are one failure step before the claim is finalized.
- Request validation for GitHub (`request_validation`), readiness and catalog projections: read-only or easy members.
- Column values without influence on behaviour: titles, descriptions, notes, summaries, reasons, labels and most timestamps.
- Plan versions, maintenance-state edits, agents, extensions, WebSocket broadcasting, file store, CLI and dashboard.
- Interleaving other requests between the savepoints of one request; only operator writes are split into statements.
- The ORM session, its identity map and concurrent database transactions below statement level.
