/** The reference of the state machine: what every transaction does, stated on rows alone. */
module PoolOutcomes {
  import opened PoolRows
  import opened PoolInvariant
  import opened PoolSteps
  import opened PoolClient
  import opened PoolHost
  import opened PoolReconcile
  import opened PoolClosing
  import opened PoolWaveDecisions
  import opened PoolPasses
  import opened PoolClientOutcomes
  import opened PoolAdmissionOutcomes
  import opened PoolReservationOutcomes
  import opened PoolHostOutcomes

  /** `su` is what the event makes of `st`. Apart from the next free id, the order of a
      placement pass and the name of an archived key, no part of it names a function that a
      transaction computes with: a step that left out a case, swapped two or read another
      column would not meet it. */
  ghost predicate Outcome(safe: set<string>, st: Pool, su: Pool, e: Event) {
    match e.step
    case RequestLeaseStep(w) => LeaseRequested(st, su, e.cfg, w, e.now)
    case CreateReservationStep(name, s, g, profile, cohort, ttl) =>
      CohortCreated(st, su, e.cfg, name, s, g, profile, cohort, ttl, e.now)
    case PrepareTaskStep(i, route, chosen) => TaskHandled(st, su, e.cfg, i, route, chosen, e.now)
    case HeartbeatLeaseStep(id, token) => LeaseBeats(st, su, e.cfg, id, token, e.now)
    case AcceptLeaseStep(id, token) => OfferAnswered(st, su, e.cfg, id, token, e.now)
    case ActivateLeaseStep(id, token, seenState, seenSession) =>
      LeaseActivated(safe, st, su, e.cfg, id, token, seenState, seenSession, e.now)
    case RequestSolvePermitStep(id, token, underfilled) =>
      PermitAnswered(safe, st, su, e.cfg, id, token, underfilled, e.now)
    case CompletePipelineStep(id, token, wave) => PipelineMarked(st, su, e.cfg, id, token, wave, e.now)
    case CancelLeaseStep(id, token) => LeaseCancelled(st, su, id, token, e.now)
    case SolverTimeoutStep(id, s, a, until, fault) => TimeoutTaken(st, su, id, s, a, until, fault, e.now)
    case SuspectTransportStep(s) => SuspicionTaken(st, su, s)
    case ReportDeathStep(s, fault) => DeathTaken(st, su, s, fault, e.now)
    case ClaimStartStep(s, a, node, host) => StartClaimed(st, su, s, a, node, host, e.now)
    case RegisterSessionStep(s, host, endpoint, process, profile, token, enabled) =>
      DesktopRegistered(st, su, s, host, endpoint, process, profile, token, enabled, e.now)
    case FailStartStep(s, host) => StartGivenUp(st, su, s, host)
    case HeartbeatSessionStep(s, token, alive) => HostHeard(st, su, e.cfg, s, token, alive, e.now)
    case CompleteReleaseStep(s, token, id, success) => ReleaseConfirmed(st, su, e.cfg, s, token, id, success, e.now)
    case SessionFaultStep(s, token, confirmed, fault) => FaultTaken(st, su, s, token, confirmed, fault, e.now)
    case CloseSessionStep(s, token, success, requeue, fault) =>
      DesktopClosed(st, su, e.cfg, s, token, success, requeue, fault, e.now)
    case ReapDeadSessionStep(s, seen) => DesktopReaped(st, su, s, seen)
    case RequestDrainStep => AllAskedToDrain(st, su, e.now)
    case ReconcileStep(execute, orders) => PassRuns(st, su, e.cfg, execute, orders, e.now)
    case SchedulerStep(tasks, allocations) => su == st.(tasks := tasks, allocations := allocations)
  }

  /** In every good database every transaction does what the reference says, with whatever stale
      reads, settings and clock reading. */
  lemma StepOutcome(safe: set<string>, st: Pool, e: Event)
    requires Inv(safe, st)
    ensures Outcome(safe, st, Next(safe, st, e), e)
  {
    hide Inv, RequestLease, CreateReservation, PrepareTask, HeartbeatLease, AcceptLease, ActivateLease, RequestSolvePermit;
    hide CompletePipeline, CancelLease, SolverTimeout, SuspectTransport, ReportDeath, ClaimStart, RegisterSession;
    hide FailStart, HeartbeatSession, CompleteRelease, SessionFault, CloseSession, ReapDeadSession, RequestDrain, Reconcile;
    hide LeaseRequested, CohortCreated, TaskHandled, LeaseBeats, OfferAnswered, LeaseActivated, PermitAnswered;
    hide PipelineMarked, LeaseCancelled, TimeoutTaken, SuspicionTaken, DeathTaken, StartClaimed, DesktopRegistered;
    hide StartGivenUp, HostHeard, ReleaseConfirmed, FaultTaken, DesktopClosed, DesktopReaped, AllAskedToDrain, PassRuns;
    match e.step
    case RequestLeaseStep(w) => RequestOutcome(safe, st, e.cfg, w, e.now);
    case CreateReservationStep(name, s, g, profile, cohort, ttl) =>
      CohortOutcome(st, e.cfg, name, s, g, profile, cohort, ttl, e.now);
    case PrepareTaskStep(i, route, chosen) => PrepareOutcome(st, e.cfg, i, route, chosen, e.now);
    case HeartbeatLeaseStep(id, token) => HeartbeatOutcome(safe, st, e.cfg, id, token, e.now);
    case AcceptLeaseStep(id, token) => AcceptOutcome(st, e.cfg, id, token, e.now);
    case ActivateLeaseStep(id, token, seenState, seenSession) =>
      ActivationDecides(safe, st, e.cfg, id, token, seenState, seenSession, e.now);
    case RequestSolvePermitStep(id, token, underfilled) =>
      PermitDecides(safe, st, e.cfg, id, token, underfilled, e.now);
    case CompletePipelineStep(id, token, wave) => CompletionOutcome(st, e.cfg, id, token, wave, e.now);
    case CancelLeaseStep(id, token) => CancelOutcome(st, id, token, e.now);
    case SolverTimeoutStep(id, s, a, until, fault) => SolverTimeoutOutcome(st, id, s, a, until, fault, e.now);
    case SuspectTransportStep(s) => SuspectOutcome(st, s);
    case ReportDeathStep(s, fault) => DeathOutcome(st, s, fault, e.now);
    case ClaimStartStep(s, a, node, host) => ClaimOutcome(st, s, a, node, host, e.now);
    case RegisterSessionStep(s, host, endpoint, process, profile, token, enabled) =>
      RegisterOutcome(st, s, host, endpoint, process, profile, token, enabled, e.now);
    case FailStartStep(s, host) => FailStartOutcome(st, s, host);
    case HeartbeatSessionStep(s, token, alive) => HostHeartbeatOutcome(safe, st, e.cfg, s, token, alive, e.now);
    case CompleteReleaseStep(s, token, id, success) => ReleaseOutcome(safe, st, e.cfg, s, token, id, success, e.now);
    case SessionFaultStep(s, token, confirmed, fault) => FaultOutcome(st, s, token, confirmed, fault, e.now);
    case CloseSessionStep(s, token, success, requeue, fault) =>
      CloseSettles(safe, st, e.cfg, s, token, success, requeue, fault, e.now);
    case ReapDeadSessionStep(s, seen) => ReapOutcome(st, s, seen);
    case ReconcileStep(execute, orders) => ReconcileOutcome(safe, st, e.cfg, execute, orders, e.now);
    case RequestDrainStep => AllAreAsked(st, e.now);
    case SchedulerStep(tasks, allocations) =>
  }
}
