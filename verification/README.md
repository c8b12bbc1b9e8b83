# AEDT pool: a verified model

The scheduler shares a few Ansys Electronics Desktop processes between many projects. Clients
ask a control plane for a lease, a lease is placed on a slot of a Desktop, the Desktop's batch
is sealed before its native solves start, solves run in waves, and a project is given back in
two phases, because only the session host can confirm that it was closed. This project models
that control plane, the capacity planner beside it, the layered lock around Desktop-global
calls and the ACF template code of the session host, and proves what they keep.

## The state machine

`PoolRows` holds the durable tables. `PoolClient`, `PoolHost` and `PoolReconcile` give every
transaction as a function from a database to a database: a refused request is rolled back, so
it returns the database it was given. `PoolSteps.Next` collects them; a run is any sequence of
events, each with its own settings and its own clock reading. Reads that the service makes
before its transaction (`seenState`, `seenSession`, `seen`) are arguments, so a step may act on
a stale view exactly as the service may. Tasks and allocations change arbitrarily between
steps (`SchedulerStep`). The set of workload families whose native solves may overlap is a
parameter `safe`; the service's empty set is the special case.

`PoolService.AedtPoolService` is the service itself, with its tables as fields. Each method is
proved to perform exactly one step of the machine, so every theorem about runs is a theorem
about every interleaving of its calls.

The proofs are organised by what a transaction may do. A *settling* move (`PoolSettle`) gives
ownership up or advances it in place; a *calm* step (`PoolCalm`) grants no permit, composes,
and remembers finished leases, ownership, frozen waves, closed batches, admission and armed
barriers; `PoolGrant.Progress` adds the grant of the next wave. Inserting and seating rows are
the moves that let somebody in (`PoolEntry`, `PoolPlacement`). `PoolStepProofs.StepProgress`
shows `Progress` for every step, and `PoolSafety`, `PoolLifecycle`, `PoolWaves`, `PoolReuse`,
`PoolBarriers`, `PoolSeals` and `PoolFateSharing` draw the consequences for whole runs.

Beside what a transaction may do stands what it does. `PoolOutcomes.StepOutcome` is a second,
row-level description of all 23 transactions, which the machine is proved to meet: `PoolTerms`
has its vocabulary, `PoolRefreshing`, `PoolWaveDecisions`, `PoolFitting`, `PoolClosing`,
`PoolReaping`, `PoolHosts` and `PoolPasses` its larger parts, and `PoolClientOutcomes`,
`PoolAdmissionOutcomes`, `PoolReservationOutcomes` and `PoolHostOutcomes` the rest. It names row
columns, not the functions that the transactions compute with.

`PoolPlanner` and `PoolPlan` are the planning pass; `PoolOpenings` ties its placements to the
tables that a reconcile pass writes.

## What the code does not promise

* A `solver_timeout` report uses the session id it read before its transaction, and skips an
  unhealthy Desktop. Either can leave an assignable Desktop closing a project with no reuse
  barrier: at once when the lease has moved to another Desktop
  (`PoolLimits.StaleTimeoutLosesBarrier`), or later, when the skipped Desktop recovers after its
  allocation became usable again (`PoolWitness.UnhealthyTimeoutLosesBarrier`, a run from the
  empty database). `PoolBarriers.AssignableBarredStep` and `AssignableBarredRun` show that there
  is no other way.
* A Desktop whose project close was never confirmed is quarantined for good, says the comment at
  aedt_pool.py:9083-9090. An unconfirmed fault report of its host blanks the quarantine
  (4831-4844), and the Desktop takes new work (`PoolLimits.CondemnedIsReused`). Nothing else ends
  a quarantine behind a barrier (`PoolBarriers.CondemnedStep`).
* The seal of a batch is cleared by the confirmation for the last owner exactly when the
  Desktop is assignable and the close succeeded (`PoolSeals.LastOwnerClearsSeal`). A Desktop
  that loses its last owner while unhealthy and recovers later is ready, empty and sealed
  (`PoolLimits.SealOutlivesBatch`), and stays of no use for as long as it is assignable
  (`PoolSeals.StuckRun`).
* The planner's capacity adds the Desktops it has already planned to the free columns that they
  have not lowered yet, and promises not to count a place twice (aedt_pool.py:6107-6111). It
  does so exactly where the free part is not nothing and does not reach up to the totals
  (`PoolPlanner.FreeAfterGrant`, `PoolPlanner.TwoRoutesOnePlace`); the totals are respected in any
  case.
* A requested drain does not stop offers, only their acceptance
  (`PoolReuse.AttachesOnlyWhenOpen`).
* The admission cap counts tasks, or leases without a task, not leases.

## Model

| member | source | states |
|---|---|---|
| PoolStepProofs.StepAdvances | slurm_scheduler/aedt_pool.py:1262-9494 | every transaction but the solver-timeout report, in any good state and with any stale reads: the invariant is kept, history and ownership are kept, no lease attaches or is released beyond the step's licence, at most the next wave of a Desktop is granted, admission grows at most to the target, armed barriers stay and nobody passes them, and every closing project stays behind a barrier |
| PoolStepProofs.StepProgress | slurm_scheduler/aedt_pool.py:1262-9494 | the same for every transaction, without the last clause |
| PoolLifecycle.LeaseSuccessors | slurm_scheduler/aedt_pool.py:3836-9494 | the possible next states of a lease in every transaction: attaching goes to active, releasing or failed, active to releasing or failed, releasing to released or failed, each of them to queued only when this step closed its Desktop, an offer to queued, attaching or an end, and an ended lease stays as it is |
| PoolOutcomes.StepOutcome | slurm_scheduler/aedt_pool.py:1262-9494 | in every good database, with whatever stale reads, every transaction does exactly what the row-level reference says: every row that changes and how, every row that stays, and every refusal |
| PoolWaveDecisions.PermitDecides | slurm_scheduler/aedt_pool.py:4137-4384 | a permit request raises the wave of its Desktop exactly when the batch is assembled (all owners active, all reservations arrived by active leases, and full, exclusive or allowed underfilled) or its current wave was completed by every member and somebody waits; the oldest waiting lease, with its waiting family if that may overlap, gets the permit; a wave that a member did not complete drains the Desktop behind its barrier and releases everybody who waits; otherwise nothing happens |
| PoolWaveDecisions.ActivationDecides | slurm_scheduler/aedt_pool.py:4097-4332 | the activation of a lease, and the same decision for the batch it may complete |
| PoolClosing.CloseSettles | slurm_scheduler/aedt_pool.py:5875-5989 | every lease, reservation, Desktop and allocation after a close: cohorts that need the Desktop fail, other owners wait again without permit and affinity or fail, a failed Desktop drains its allocation; a request that may not close changes nothing |
| PoolClosing.OwnersAfterClose | slurm_scheduler/aedt_pool.py:5921-5956 | an owner of a closed Desktop waits again, for its lifetime from now, if and only if it has no pin, the Desktop died and a retry was asked for; otherwise it has failed |
| PoolFitting.PlacementOutcome | slurm_scheduler/aedt_pool.py:8237-8620 | a lease that may enter is offered a slot, the least free one, of the Desktop with most owners and then the smallest id among those that welcome it (healthy, in service, with a free slot, and compatible with every owner and every kept slot); it stays queued if and only if it may not enter or none welcomes it |
| PoolFitting.PassOutcome | slurm_scheduler/aedt_pool.py:8336-8622 | a pass gives the polling leases that the cursor selects their turns in order; a pass for one lease gives it its turn if it polls |
| PoolReaping.ClientsAreReaped | slurm_scheduler/aedt_pool.py:8873-9058 | every lease, reservation and Desktop after the reaping phase: leases of ended tasks, unanswered offers, leases past a time, and no other lease; barrier exactly where a lease starts to release, quarantine exactly where an active client died |
| PoolReaping.DeadClient | slurm_scheduler/aedt_pool.py:8959-9050 | an active lease whose time passed is releasing from now on, behind an armed barrier, and a working Desktop drains in quarantine |
| PoolHosts.HostsAreReaped | slurm_scheduler/aedt_pool.py:9060-9269 | silent hosts, lost releases, late starts, recycled allocations and Desktops out of reach: exactly which rows change, and how |
| PoolRefreshing.RefreshOutcome | slurm_scheduler/aedt_pool.py:2209-2617 | the refresh is exactly four phases: a cohort that lost a member settles, one that ran out of time expires, reservations that are done return, and a cohort that lost its Desktop fails; with every lease, reservation and Desktop row |
| PoolPasses.ReconcileOutcome | slurm_scheduler/aedt_pool.py:8624-9494 | a reconcile pass is exactly its phases in order, each on rows: tidying and start orders, rotation, clients, hosts, allocations back in service, placement turns, and the plan |
| PoolClientOutcomes.HeartbeatOutcome | slurm_scheduler/aedt_pool.py:3836-3880 | a heartbeat of the owner of a live lease writes exactly the row of an always-written heartbeat, and a queued lease then has its turn; any other is refused |
| PoolClientOutcomes.AcceptOutcome | slurm_scheduler/aedt_pool.py:3882-4095 | an offer is accepted exactly while its reservation and Desktop stand and the project may start; a pinned one whose target is lost fails with its cohort, any other goes back to the queue with its reservation |
| PoolClientOutcomes.CancelOutcome | slurm_scheduler/aedt_pool.py:4538-4614 | a lease with a project releases behind the barrier, any other live one ends and its Desktop rests |
| PoolClientOutcomes.SolverTimeoutOutcome | slurm_scheduler/aedt_pool.py:4736-4780 | exactly the lease, the Desktop read before and the allocation read before change |
| PoolAdmissionOutcomes.RequestOutcome | slurm_scheduler/aedt_pool.py:3278-3542 | a request in time is accepted exactly with the pin that authorises it (the newest reservation of its task, agreeing and open or its own) if its key is free, its own or abandoned; the row it makes; and its turn; a refused one changes nothing |
| PoolReservationOutcomes.CohortOutcome | slurm_scheduler/aedt_pool.py:1439-1636 | a cohort is reserved, one row for each task until now plus the time asked for, exactly if the Desktop is as named, every task is free and slots and target have room; the same cohort is found again, another one of its name refused |
| PoolReservationOutcomes.PrepareOutcome | slurm_scheduler/aedt_pool.py:1797-2182 | a newest reservation that serves stays, a held one that does not fails with its cohort; the chosen candidate exactly fits the task; the new row joins the standing cohort of its Desktop with its expiry or starts one |
| PoolHostOutcomes.RegisterOutcome | slurm_scheduler/aedt_pool.py:5050-5204 | a start is registered exactly by the host that claimed it, in time or late while the allocation is open; ready or draining; and the allocation returns to service if its recycling has no cause left |
| PoolHostOutcomes.HostHeartbeatOutcome | slurm_scheduler/aedt_pool.py:5379-5546 | a heartbeat brings back exactly a Desktop that was only missed or suspected and whose allocation can serve; it lifts the barrier exactly if it is later and nothing is left to close, and then lets queued leases in |
| PoolHostOutcomes.ReleaseOutcome | slurm_scheduler/aedt_pool.py:5605-5688 | the answer of the host ends the lease, renews the barrier, quarantines a Desktop that could not close, rests it, and is followed by refresh and placement |
| PoolHostOutcomes.FaultOutcome | slurm_scheduler/aedt_pool.py:4782-4899 | a suspected fault spares a Desktop that may be solving from draining; a confirmed one quarantines it and drains its allocation |
| PoolSafety.RunInv | slurm_scheduler/aedt_pool.py:1262-9494 | every run of interleaved transactions from a good database ends in a good one |
| PoolSafety.OneWaveOneFamily | slurm_scheduler/aedt_pool.py:4137-4332 | in every reachable state all live permit holders on a Desktop share the current generation of a sealed batch and one family that may overlap, or there is only one |
| PoolSafety.SolvesAreSerial | slurm_scheduler/aedt_pool.py:4302-4312 | with the empty parallel-safe set at most one live permit exists on a Desktop |
| PoolSafety.SlotsConserved | slurm_scheduler/aedt_pool.py:8246-8250 | owned slots and held reservations never exceed the Desktop's slots, slot indexes are distinct and in range, and the free-index search succeeds whenever placement runs it |
| PoolSafety.SealedIsClosed | slurm_scheduler/aedt_pool.py:3051-3078 | while a Desktop is sealed every owner is active or releasing and every live reservation on it is consumed |
| PoolSafety.OwnersShare | slurm_scheduler/aedt_pool.py:8237-8334 | any two owners of one Desktop are compatible in both directions, and an exclusive owner is alone |
| PoolSafety.OwnersArePlaced | slurm_scheduler/aedt_pool.py:8443-8446 | starting, closed and failed Desktops own nothing, and a pinned lease holds a slot only on its reserved Desktop |
| PoolSafety.OneAutoCohort | slurm_scheduler/aedt_pool.py:2100-2150 | live automatic reservations of one Desktop generation share one key and one expiry |
| PoolSafety.RunHistory | slurm_scheduler/aedt_pool.py:5893-5968 | over whole runs finished leases and Desktops stay finished, a project owner keeps its slot until the host confirmed, it failed or the Desktop is over, and no lease joins a granted wave |
| PoolSafety.TerminalIsForever | slurm_scheduler/aedt_pool.py:4559-4613 | terminal lease states are absorbing |
| PoolSafety.AdmissionCap | slurm_scheduler/aedt_pool.py:1688-1731 | while no step uses a larger target, the number of distinct admitted tasks and leases stays within it |
| PoolSafety.RunAdmits | slurm_scheduler/aedt_pool.py:8418-8424 | a run admits no more than there was before or than its largest target |
| PoolWaves.SealedLetsNobodyIn | slurm_scheduler/aedt_pool.py:4179-4207 | over any run during which a Desktop stays sealed, no lease and no reservation enters it |
| PoolWaves.SealOutlastsOwners | slurm_scheduler/aedt_pool.py:6004-6025 | if a seal was cleared between two states of a run, no owner of the batch is still on the Desktop |
| PoolWaves.BrokenWaveStopsBatch | slurm_scheduler/aedt_pool.py:4208-4275 | a member of the current wave that ended without release and marker stops every further wave of the same seal |
| PoolWaves.EarlierWavesSucceeded | slurm_scheduler/aedt_pool.py:4208-4252 | when a later wave of a seal runs, every member of an earlier one is released with a marker for exactly this Desktop and wave |
| PoolWaves.PermitsAscend | slurm_scheduler/aedt_pool.py:4294-4332 | with the empty parallel-safe set, permits within a seal go out in strictly increasing lease id |
| PoolWaves.WaveBudget | slurm_scheduler/aedt_pool.py:4276-4332 | waves started plus leases waiting never grow within a seal, so n members need at most n waves |
| PoolWaves.ViewGranted | slurm_scheduler/aedt_pool.py:3708-3767 | the barrier flag, computed from two counts, holds exactly when every member of the cohort marked this Desktop and wave |
| PoolWaves.BarrierIsSound | slurm_scheduler/aedt_pool.py:3708-3767 | from the grant on, while the Desktop lasts, the counted cohort is exactly the set that was granted, and an open barrier means that each of them marked |
| PoolWaves.OldMarkersNeverCount | slurm_scheduler/aedt_pool.py:5920-5945 | a marker left over from another Desktop comes from one that is over and never counts |
| PoolWaves.BrokenBarrierStaysClosed | slurm_scheduler/aedt_pool.py:3731-3763 | once a member stopped solving without a marker, no run opens its cohort's barrier |
| PoolReuse.ReleasedByHost | slurm_scheduler/aedt_pool.py:5628-5652 | a lease that became released was confirmed by the host of its Desktop while it was releasing |
| PoolReuse.AttachesOnlyWhenOpen | slurm_scheduler/aedt_pool.py:3932-4005 | a lease starts to attach only by acceptance, to a Desktop with no drain requested, no seal, no barrier, nothing closing, and a pin still consumed for it |
| PoolReuse.BarrierBeforeReuse | slurm_scheduler/aedt_pool.py:5421-5442 | a Desktop whose barrier was armed at t gains an owner only after a host heartbeat later than t that saw nothing closing |
| PoolReuse.AckArms | slurm_scheduler/aedt_pool.py:5653-5663 | a release confirmation arms the barrier at its own time and lets nobody onto the Desktop |
| PoolReuse.HeartbeatBetweenAckAndReuse | slurm_scheduler/aedt_pool.py:5421-5663 | between a release confirmation and the next placement on that Desktop lies a strictly later host heartbeat that saw nothing closing |
| PoolBarriers.AssignableBarredStep | slurm_scheduler/aedt_pool.py:4736-4780 | over all transactions: every assignable Desktop that closes a project keeps its barrier if and only if the step is neither a report that read another Desktop than its lease is now on, where that one is assignable and unbarred, nor a heartbeat that recovers a Desktop with an unbarred closing project |
| PoolBarriers.AssignableBarredRun | slurm_scheduler/aedt_pool.py:4736-5546 | along every run: every assignable Desktop that closes a project is barred in every state if and only if no step of the run is one of the two |
| PoolBarriers.ReportKeepsAssignable | slurm_scheduler/aedt_pool.py:4736-4780 | the report alone: kept if and only if it is not stale; finding its own Desktop unhealthy does not break it |
| PoolBarriers.WokenByHeartbeat | slurm_scheduler/aedt_pool.py:5463-5523 | over all transactions: a Desktop with an owner becomes assignable only by a live heartbeat of its host that finds it recoverable, with its allocation in use or drained for bad health |
| PoolBarriers.CondemnedStep | slurm_scheduler/aedt_pool.py:4831-4844 | over all transactions: a quarantined Desktop behind its barrier stays so if and only if the step is not an unconfirmed fault report of its host, and it never gains an owner |
| PoolBarriers.CondemnedRun | slurm_scheduler/aedt_pool.py:9077-9145 | along every run without such a report the Desktop stays condemned and gains no owner |
| PoolReuse.ClosingIsBarred | slurm_scheduler/aedt_pool.py:4569-4594 | along every run whose solver-timeout reports still see the Desktop of their lease, every Desktop with a releasing lease, assignable or not, has its barrier armed |
| PoolStepProofs.SolverTimeoutBarred | slurm_scheduler/aedt_pool.py:4736-4780 | the report keeps every closing project, on Desktops in every state, behind a barrier if and only if the lease's Desktop is blocked already, or is the one read before and still ready, busy or draining, or the lease no longer closes |
| PoolLimits.StaleTimeoutLosesBarrier | slurm_scheduler/aedt_pool.py:4736-4780 | a concrete good state in which a stale report leaves an assignable Desktop closing a project without a barrier |
| PoolWitness.UnhealthyTimeoutLosesBarrier | slurm_scheduler/aedt_pool.py:4752-4759 | a run from the empty database, without any stale read, to a busy Desktop that closes a project without a barrier: the report found its Desktop unhealthy, the allocation check held the recovery back, and the scheduler called the allocation usable again |
| PoolLimits.CondemnedIsReused | slurm_scheduler/aedt_pool.py:4831-4844 | from a good state: an unconfirmed fault lifts a quarantine, the next heartbeat makes the Desktop ready and restores its allocation, and the one after that may clear its barrier |
| PoolSeals.LastOwnerClearsSeal | slurm_scheduler/aedt_pool.py:5605-5688 | the whole confirmation transaction for the last owner clears the seal if and only if it succeeded on an assignable Desktop |
| PoolSeals.StuckRun | slurm_scheduler/aedt_pool.py:5991-6026 | an assignable, sealed and empty Desktop stays sealed and empty along every run in which it stays assignable |
| PoolLimits.SealOutlivesBatch | slurm_scheduler/aedt_pool.py:5463-5523 | from a good state: the confirmation for the last owner of an unhealthy sealed Desktop and the next heartbeat leave it ready, empty and sealed |
| PoolFateSharing.RefreshSharesFate | slurm_scheduler/aedt_pool.py:2209-2457 | when an unsealed member expired without a permit, or its task is over while a sibling lives, a refresh leaves no reservation of the key live and no member attached or active, unless permitted |
| PoolCohortLoops.CohortSettled | slurm_scheduler/aedt_pool.py:2210-2288 | a failed cohort keeps no live reservation, its project owners are releasing on the same Desktop behind a barrier, its other members are over, and nothing of another cohort changes |
| PoolCohortLoops.CohortLapsed | slurm_scheduler/aedt_pool.py:2290-2361 | an expired cohort keeps live only reservations of permitted leases; permitted members are untouched, unpermitted owners are releasing behind a barrier, the others are over, and nothing of another cohort changes |
| PoolCohortLoops.FailSplit | slurm_scheduler/aedt_pool.py:2210-2288 | failing cohorts one key after the other is failing them at once |
| PoolCohortLoops.ExpireSplit | slurm_scheduler/aedt_pool.py:2290-2361 | expiring cohorts one key after the other is expiring them at once |
| PoolPlacement.First | slurm_scheduler/aedt_pool.py:8425-8559 | the chosen Desktop fits and precedes every fitting one in the placement order |
| PoolPlacement.FreeIndex | slurm_scheduler/aedt_pool.py:8560-8565 | the least index no owner occupies |
| PoolPlacementProofs.SlotCount | slurm_scheduler/aedt_pool.py:8246-8250 | the code's count of owners and held reservations equals the count the invariant bounds |
| PoolPlacementProofs.FreeSlotInRange | slurm_scheduler/aedt_pool.py:8560-8565 | with fewer owners than slots the free index is below the slot count |
| PoolPlacementProofs.PlaceEachKept | slurm_scheduler/aedt_pool.py:8392-8622 | placing any list of leases keeps the invariant and is calm |
| PoolGrant.GrantBatchAdvances | slurm_scheduler/aedt_pool.py:4137-4332 | a transaction that ends in a grant keeps the invariant and grants at most the next wave, under the seal's conditions |
| PoolClient.Newest | slurm_scheduler/aedt_pool.py:2640-2648 | the newest reservation of a task, or none when the task has none |
| PoolEntryProofs.AddReservationsKept | slurm_scheduler/aedt_pool.py:1614-1636 | inserting an operator's cohort slot by slot keeps slots, keys and the cap |
| PoolAdmissionProofs.AutoKeyFits | slurm_scheduler/aedt_pool.py:2099-2130 | an automatic reservation joins the one live automatic cohort of its Desktop generation, with its expiry |
| PoolCursor.Rotated | slurm_scheduler/aedt_pool.py:8356-8384 | the pass order lists every candidate exactly once |
| PoolCursor.Batch | slurm_scheduler/aedt_pool.py:8356-8384 | a pass takes at most 32 candidates, all of them when there are fewer |
| PoolCursorProofs.ExaminedIffNear | slurm_scheduler/aedt_pool.py:8356-8384 | a pass examines exactly the candidates with fewer than 32 ahead in cyclic id order |
| PoolCursorProofs.PassAdvances | slurm_scheduler/aedt_pool.py:8384-8386 | a pass that does not examine a candidate takes exactly 32 from ahead of it |
| PoolCursorProofs.NobodyStarves | slurm_scheduler/aedt_pool.py:8356-8386 | over a fixed queue of n each candidate is examined within ceil(n/32) passes, wherever the cursor stands |
| PoolHeartbeats.PersistInterval | slurm_scheduler/aedt_pool.py:431-444 | the interval is between 1 and max(1, min(30, timeout/3)), at most 6 below it |
| PoolHeartbeats.CoalescingRefinesWriting | slurm_scheduler/aedt_pool.py:3815-3875 | a coalesced lease expires no later than one written at every heartbeat and no earlier than one written with the interval taken off |
| PoolHeartbeats.NeverExpires | slurm_scheduler/aedt_pool.py:8959-8985 | an accepted lease whose heartbeats are at most h apart, with interval + h within the lifetime, is never expired by a reconcile pass |
| PoolHeartbeats.NeverUnhealthy | slurm_scheduler/aedt_pool.py:9060-9076 | the same for the heartbeats of a session host |
| PoolService.AedtPoolService.RefreshExactSessionReservations | slurm_scheduler/aedt_pool.py:2394-2617 | the four phases, looping over keys and sessions, equal the refresh of the state machine |
| PoolService.AedtPoolService.FailCohortsForTarget | slurm_scheduler/aedt_pool.py:2363-2392 | every cohort that still needs a closing Desktop fails |
| PoolService.AedtPoolService.SelectSession | slurm_scheduler/aedt_pool.py:8425-8559 | the search returns the first fitting Desktop in the placement order, or none if none fits |
| PoolService.AedtPoolService.FreeSlot | slurm_scheduler/aedt_pool.py:8560-8565 | the loop finds the least free index, below the slot count |
| PoolService.AedtPoolService.SeatLease | slurm_scheduler/aedt_pool.py:8566-8620 | the lease, its reservation and the profile of the Desktop after an offer |
| PoolService.AedtPoolService.PlaceQueuedLeases | slurm_scheduler/aedt_pool.py:8336-8622 | the loops equal the placement pass of the state machine, from the cursor or for one lease |
| PoolService.AedtPoolService.SelectWave | slurm_scheduler/aedt_pool.py:4294-4311 | the grouping loop selects the oldest waiting family, or its oldest lease |
| PoolService.AedtPoolService.GrantSolveBatchIfReady | slurm_scheduler/aedt_pool.py:4137-4332 | the branches equal the grant of the state machine |
| PoolService.AedtPoolService.HeartbeatLease | slurm_scheduler/aedt_pool.py:3836-3880 | one step of the state machine; accepted exactly for the owner of a live lease |
| PoolService.AedtPoolService.AcceptLease | slurm_scheduler/aedt_pool.py:3882-4095 | one step: attach, revoke or refuse the offer; succeeds exactly when the target holds |
| PoolService.AedtPoolService.ActivateLease | slurm_scheduler/aedt_pool.py:4097-4135 | one step, with the state and session read before the transaction |
| PoolService.AedtPoolService.RequestSolvePermit | slurm_scheduler/aedt_pool.py:4334-4384 | one step of the state machine |
| PoolService.AedtPoolService.CompleteNativePipeline | slurm_scheduler/aedt_pool.py:4386-4486 | one step: the marker names exactly the Desktop and the wave of the permit |
| PoolService.AedtPoolService.CancelLease | slurm_scheduler/aedt_pool.py:4538-4614 | one step: two-phase release behind an armed barrier, or an immediate end |
| PoolService.AedtPoolService.ReportSolverTimeout | slurm_scheduler/aedt_pool.py:4736-4780 | one step, with the session and allocation read before the transaction |
| PoolService.AedtPoolService.ReportTransportSuspect | slurm_scheduler/aedt_pool.py:4691-4707 | one step of the state machine |
| PoolService.AedtPoolService.ReportAedtDeath | slurm_scheduler/aedt_pool.py:4708-4734 | one step of the state machine |
| PoolService.AedtPoolService.RequestLease | slurm_scheduler/aedt_pool.py:3278-3542 | one step; a refused request leaves the database unchanged |
| PoolService.AedtPoolService.CreateExactSessionReservation | slurm_scheduler/aedt_pool.py:1439-1636 | one step: all tasks of the cohort get a slot or none does |
| PoolService.AedtPoolService.PreparePooledTaskSession | slurm_scheduler/aedt_pool.py:1797-2182 | one step, including the rollback by the unique indexes |
| PoolService.AedtPoolService.ClaimStart | slurm_scheduler/aedt_pool.py:4920-5048 | one step of the state machine |
| PoolService.AedtPoolService.RegisterSession | slurm_scheduler/aedt_pool.py:5050-5204 | one step; accepted exactly for the owner of the start claim, in time or late |
| PoolService.AedtPoolService.FailSessionStart | slurm_scheduler/aedt_pool.py:5206-5248 | one step of the state machine |
| PoolService.AedtPoolService.HeartbeatSession | slurm_scheduler/aedt_pool.py:5379-5546 | one step: barrier clear, recovery, heartbeat and placement |
| PoolService.AedtPoolService.CompleteRelease | slurm_scheduler/aedt_pool.py:5605-5688 | one step; accepted exactly for the host of a releasing lease |
| PoolService.AedtPoolService.ReportSessionFault | slurm_scheduler/aedt_pool.py:4782-4899 | one step of the state machine |
| PoolService.AedtPoolService.CloseSession | slurm_scheduler/aedt_pool.py:5875-5989 | one step: cohorts fail, owners requeue or fail, the Desktop ends |
| PoolService.AedtPoolService.ReapDeadSession | slurm_scheduler/aedt_pool.py:5760-5873 | one step, a compare-and-swap against the row that was probed |
| PoolService.AedtPoolService.RequestAllSessionsDrain | slurm_scheduler/aedt_pool.py:1262-1303 | one step of the state machine |
| PoolService.AedtPoolService.Reconcile | slurm_scheduler/aedt_pool.py:8624-9494 | the whole pass is one step of the state machine |
| PoolPlanner.Capacity | slurm_scheduler/aedt_pool.py:6099-6144 | the capacity times one control CPU and the CPUs of all projects of a session, and times their memory, is within the allocation's totals |
| PoolPlanner.CapacityIsGreatest | slurm_scheduler/aedt_pool.py:6099-6144 | the capacity is the greatest number of Desktops for which one control CPU each, the configured CPUs of all their projects and their memory fit the totals, and those beyond the current ones the free columns |
| PoolPlanner.GrantStrict | slurm_scheduler/aedt_pool.py:7573-7607 | strict routes are served in order within the budget, nothing is lost, and a rest of the budget means that every need was met |
| PoolPlanner.GrantGeneric | slurm_scheduler/aedt_pool.py:7634-7650 | the grants are exactly a round-robin, nothing is lost, and a rest of the budget means that every need was met |
| PoolPlanner.PlaceRoute | slurm_scheduler/aedt_pool.py:7767-7811 | starts of a route go only to matching allocations, need splits into starts and a rest, and a rest means that every matching allocation got all the places it had free |
| PoolPlanner.PlaceStrict | slurm_scheduler/aedt_pool.py:7751-7811 | every strict need is starts plus a rest, every touched allocation stays within its totals, and a rest of a route means that every matching allocation is full |
| PoolPlanner.PlaceGeneric | slurm_scheduler/aedt_pool.py:7813-7850 | the same for generic needs on the same ledger; a rest of an account means that each of its allocations is full |
| PoolPlanner.FreeAfterGrant | slurm_scheduler/aedt_pool.py:6099-6144 | after a grant of all free places none is left if and only if the free part was nothing or reached up to the totals |
| PoolPlanner.GrantedTwice | slurm_scheduler/aedt_pool.py:6099-6144 | an input: one place of four is free, and one is free again after a start on it, although the free CPUs do not carry two |
| PoolPlanner.TwoRoutesOnePlace | slurm_scheduler/aedt_pool.py:7767-7811 | for every empty allocation whose free part has one place and whose totals have two or more: two routes that match it get a start each |
| PoolPlanner.ReachesTotals | slurm_scheduler/aedt_pool.py:6099-6144 | where the free part reaches up to the totals, full means no free place, and no place is granted twice |
| PoolPlan.CoverRoute | slurm_scheduler/aedt_pool.py:7887-7922 | a route consumes only matching pending capacity, each unit once, and leaves a rest only when none is left |
| PoolPlan.CoverStrict | slurm_scheduler/aedt_pool.py:7870-7922 | each route's rest is covered by matching pending allocations or uncovered; what the routes take of an allocation and what is left make up its capacity; an uncovered rest means that nothing matching is left |
| PoolPlan.CoverGeneric | slurm_scheduler/aedt_pool.py:7923-7945 | each account's rest is covered from its own pending allocations or uncovered; the accounts together take no more than is left; an uncovered rest means that everything of the account is taken |
| PoolPlan.NodeRequests | slurm_scheduler/aedt_pool.py:7986-8025 | the requests sum to the sessions, each is between 1 and the node size, they differ by at most one, and they are as few as possible |
| PoolPlan.NodeSize | slurm_scheduler/aedt_pool.py:7960-7985 | a new node is asked to hold the greatest number of sessions that fit the largest known allocation, 64 CPUs and 512 GB at least, and one in any case |
| PoolPlan.MakePlan | slurm_scheduler/aedt_pool.py:7570-8025 | one pass never raises the counted sessions above max(counted, limit); every allocation that gets a start holds all its sessions within its CPUs and memory, computed from the configured project sizes; the budget goes to strict routes in order and then to accounts in turn; every granted start is placed, covered or requested, evenly on the fewest nodes; strict and generic cover together takes of each pending allocation at most its capacity, from matching ones only; a demand not placed in full found its allocations full, and one that asks for a node found its pending allocations used up |
| PoolOpenings.OpenPlanned | slurm_scheduler/aedt_pool.py:9441-9458 | the database after a pass that opens the plan's placements, whatever else is drained: the starting, ready and busy sessions are within max(before, limit), every allocation carries exactly its starts more, and one that got a start carries all its sessions within its CPUs and memory, computed from the configured project sizes |
| AutomationLocks.GateRegistry.GateFor | slurm_scheduler/aedt_automation_lock.py:24-31 | a path's gate is made once and never replaced |
| AutomationLocks.SessionAutomationLock.PollFileLock | slurm_scheduler/aedt_automation_lock.py:218-225 | the polling loop takes the file lock exactly when some answer grants it and all before it block |
| AutomationLocks.SessionAutomationLock.Acquire | slurm_scheduler/aedt_automation_lock.py:196-244 | succeeds exactly when the layers are free for the thread; a failing call leaves every layer, descriptor and gate as it was; no other lock of the process loses its file lock, although closing any descriptor of a file drops the process's locks on it |
| AutomationLocks.SessionAutomationLock.Release | slurm_scheduler/aedt_automation_lock.py:246-273 | one level back; even an unlock error leaves no layer held at depth zero; a foreign thread changes nothing |
| AutomationLocks.SessionAutomationLock.Suspend | slurm_scheduler/aedt_automation_lock.py:282-297 | releases all nesting, returns the depth, and holds nothing afterwards |
| AutomationLocks.SessionAutomationLock.Resume | slurm_scheduler/aedt_automation_lock.py:298-301 | takes back exactly the saved depth, or holds nothing |
| AutomationLocks.NeverBothHeld | slurm_scheduler/aedt_automation_lock.py:16-31 | two locks of one process on one normalised path are never both held |
| AutomationLocks.AcquiresMeans | slurm_scheduler/aedt_automation_lock.py:218-225 | polling succeeds if and only if an answer grants the lock and all earlier ones block |
| AcfBlocks.ScanMeansNested | slurm_scheduler/aedt_session_host.py:176-198 | the stack scan accepts exactly the printed forests of named blocks, and its path set is their set of ancestor chains |
| AcfBlocks.ScanLines | slurm_scheduler/aedt_session_host.py:179-198 | the loop with its stack accepts exactly the well-nested line sequences and collects their ancestor chains |
| AcfBlocks.CountSettings | slurm_scheduler/aedt_session_host.py:215-227 | the number of lines that set a key |
| AcfPatterns.SettingPattern | slurm_scheduler/aedt_session_host.py:215-227 | a line sets a key if and only if it is blanks, the key, blanks and an equals sign from its start, and the value begins after that sign |
| AcfPatterns.TagPattern | slurm_scheduler/aedt_session_host.py:176-198 | a line opens or closes a block of a name if and only if, apart from white space around it, it is the keyword, white space and the name in quotes |
| AcfBlocks.Validate | slurm_scheduler/aedt_session_host.py:176-227 | a template is accepted exactly when its blocks nest, the required paths exist and each setting has one line |
| AcfRender.Substitute | slurm_scheduler/aedt_session_host.py:257-261 | every line that sets the key gets the value, and the lines are counted |
| AcfRender.Render | slurm_scheduler/aedt_session_host.py:244-263 | succeeds exactly for accepted templates; the output is accepted, has the same blocks, and each setting has its value |
| AcfRender.RenderAccepted | slurm_scheduler/aedt_session_host.py:244-263 | the rendered template is accepted if and only if the template is |
| AcfRender.RenderTwice | slurm_scheduler/aedt_session_host.py:244-263 | rendering is idempotent |

## Left out

- Mixed-canary admissions: a separate sub-protocol; here they would only add guards that refuse placement and sealing.
- Project names and their duplicate check, idle_since, updated_at and message texts: a message is kept only as the class of fault that some transition tests for. Where a time falls back to updated_at, the model uses the creation time.
- Tokens are compared as values; hashing, HTTP routing and authorisation secrets are not modelled, and host-task rows are not cancelled.
- The clock: each step gets its own reading, which need not be monotone; readings repeated inside one placement pass are one reading.
- Account routing, partition specifications and the choice of which Desktop to drain for storage pressure, rebalancing or surplus: their results are arguments (`route`, `allows`, `Orders`).
- The demand computation of the planner (leases and tasks to needs per route and account, warm spares): its results are arguments of `MakePlan`.
- PoolService.AedtPoolService.PreparePooledTaskSession: any candidate may be chosen, because the order among candidates uses idle_since; the random part of a cohort key is assumed not to repeat.
- PoolService.AedtPoolService.ClaimStart: the checks of Slurm job, node alias and host task, which only refuse, are not modelled.
- PoolService.AedtPoolService.ReapDeadSession: the process probe and the host-task check are the caller's; the compare-and-swap is modelled.
- PoolService.AedtPoolService.Reconcile: drains and openings are arguments; `PoolOpenings.OpenPlanned` gives the openings of a plan.
- PoolService.AedtPoolService.HeartbeatLease: the coalescing read before the transaction changes nothing and is modelled in `PoolHeartbeats`.
- Path normalisation: the path of a lock is the normalised one, and two normalised paths name two files.
- AutomationLocks.SessionAutomationLock.Acquire: a call is atomic; waiting for another thread appears as the answers of the operating system or as a timeout.
- PyAEDT, Desktop processes, file permissions and the attach client's loops: foreign calls without visible semantics.
- ACF texts with carriage returns, or with values that contain a newline: lines are split at newlines only.
