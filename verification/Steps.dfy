/** The pool as a state machine: every transaction of every client, host, operator
    and reconciler is one atomic step, and steps interleave freely. */
module PoolSteps {
  import opened PoolRows
  import opened PoolCalm
  import opened PoolClient
  import opened PoolHost
  import opened PoolReconcile
  import opened PoolAdmissionProofs
  import opened PoolClientProofs
  import opened PoolHostProofs

  datatype Step =
    | RequestLeaseStep(wish: Wish)
    | CreateReservationStep(name: string, s: nat, generation: nat, profile: string, cohort: set<nat>, ttl: int)
    | PrepareTaskStep(intent: Intent, route: set<nat>, chosen: nat)
    | HeartbeatLeaseStep(id: nat, token: string)
    | AcceptLeaseStep(id: nat, token: string)
    | ActivateLeaseStep(id: nat, token: string, seenState: LeaseState, seenSession: nat)
    | RequestSolvePermitStep(id: nat, token: string, underfilled: bool)
    | CompletePipelineStep(id: nat, token: string, wave: nat)
    | CancelLeaseStep(id: nat, token: string)
    | SolverTimeoutStep(id: nat, seenSession: nat, seenAllocation: nat, until: int, fault: Fault)
    | SuspectTransportStep(s: nat)
    | ReportDeathStep(s: nat, fault: Fault)
    | ClaimStartStep(s: nat, allocation: nat, node: string, host: string)
    | RegisterSessionStep(s: nat, host: string, endpoint: string, process: string, profile: string, token: string, enabled: bool)
    | FailStartStep(s: nat, host: string)
    | HeartbeatSessionStep(s: nat, token: string, alive: bool)
    | CompleteReleaseStep(s: nat, token: string, id: nat, success: bool)
    | SessionFaultStep(s: nat, token: string, confirmed: bool, fault: Fault)
    | CloseSessionStep(s: nat, token: string, success: bool, requeue: bool, fault: Fault)
    | ReapDeadSessionStep(s: nat, seen: Session)
    | RequestDrainStep
    | ReconcileStep(execute: bool, orders: Orders)
    | SchedulerStep(tasks: Tasks, allocations: Allocations)

  /** A step with the settings and the clock reading it uses; neither need agree
      with the next step's. */
  datatype Event = Event(cfg: Config, now: int, step: Step)

  function Next(safe: set<string>, st: Pool, e: Event): Pool {
    match e.step
    case RequestLeaseStep(w) => RequestLease(st, e.cfg, w, e.now)
    case CreateReservationStep(name, s, g, profile, cohort, ttl) =>
      CreateReservation(st, e.cfg, name, s, g, profile, cohort, ttl, e.now)
    case PrepareTaskStep(i, route, chosen) => PrepareTask(st, e.cfg, i, route, chosen, e.now)
    case HeartbeatLeaseStep(id, token) => HeartbeatLease(st, e.cfg, id, token, e.now)
    case AcceptLeaseStep(id, token) => AcceptLease(st, e.cfg, id, token, e.now)
    case ActivateLeaseStep(id, token, seenState, seenSession) =>
      ActivateLease(safe, st, e.cfg, id, token, seenState, seenSession, e.now)
    case RequestSolvePermitStep(id, token, underfilled) =>
      RequestSolvePermit(safe, st, e.cfg, id, token, underfilled, e.now)
    case CompletePipelineStep(id, token, wave) => CompletePipeline(st, e.cfg, id, token, wave, e.now)
    case CancelLeaseStep(id, token) => CancelLease(st, id, token, e.now)
    case SolverTimeoutStep(id, s, a, until, fault) => SolverTimeout(st, id, s, a, until, fault, e.now)
    case SuspectTransportStep(s) => SuspectTransport(st, s)
    case ReportDeathStep(s, fault) => ReportDeath(st, s, fault, e.now)
    case ClaimStartStep(s, a, node, host) => ClaimStart(st, s, a, node, host, e.now)
    case RegisterSessionStep(s, host, endpoint, process, profile, token, enabled) =>
      RegisterSession(st, s, host, endpoint, process, profile, token, enabled, e.now)
    case FailStartStep(s, host) => FailStart(st, s, host)
    case HeartbeatSessionStep(s, token, alive) => HeartbeatSession(st, e.cfg, s, token, alive, e.now)
    case CompleteReleaseStep(s, token, id, success) => CompleteRelease(st, e.cfg, s, token, id, success, e.now)
    case SessionFaultStep(s, token, confirmed, fault) => SessionFault(st, s, token, confirmed, fault, e.now)
    case CloseSessionStep(s, token, success, requeue, fault) =>
      CloseSession(st, e.cfg, s, token, success, requeue, fault, e.now)
    case ReapDeadSessionStep(s, seen) => ReapDeadSession(st, s, seen)
    case RequestDrainStep => RequestDrain(st, None, e.now)
    case ReconcileStep(execute, orders) => Reconcile(st, e.cfg, execute, orders, e.now)
    case SchedulerStep(tasks, allocations) => st.(tasks := tasks, allocations := allocations)
  }

  /** The one assumption on the environment: random nonces do not repeat. */
  predicate Fair(st: Pool, e: Event) {
    e.step.PrepareTaskStep? ==> FreshNonce(st.reservations, e.step.intent.nonce)
  }

  /** What the step may do beyond the ordinary. */
  function Licence(st: Pool, e: Event): May {
    match e.step
    case AcceptLeaseStep(id, token) =>
      NOTHING.(attaches := if Attaches(st, e.cfg, id, token, e.now) then {id} else {})
    case HeartbeatSessionStep(s, token, alive) => HeartbeatMay(st, e.cfg, s, token, alive, e.now)
    case CompleteReleaseStep(s, token, id, success) => ReleaseMay(st, s, token, id, success)
    case SessionFaultStep(s, token, confirmed, fault) =>
      NOTHING.(pardons := if Pardons(st, s, token, confirmed) then {s} else {})
    case CloseSessionStep(s, token, success, requeue, fault) =>
      NOTHING.(closes := if Closes(st, s, token, success) then {s} else {})
    case _ => NOTHING
  }

  /** The database after a run of steps. */
  function Run(safe: set<string>, st: Pool, es: seq<Event>): Pool
    decreases |es|
  {
    if es == [] then st else Run(safe, Next(safe, st, es[0]), es[1..])
  }

  predicate FairRun(safe: set<string>, st: Pool, es: seq<Event>)
    decreases |es|
  {
    es == [] || (Fair(st, es[0]) && FairRun(safe, Next(safe, st, es[0]), es[1..]))
  }
}
