/** The durable tables of the AEDT pool control plane: Desktop sessions, project
    leases, exact-session reservations, scheduler tasks and Slurm allocations.
    A NULL column is an `Option`; a timestamp is a number of seconds. */
module PoolRows {

  datatype Option<+T> = None | Some(value: T)

  /** SQL COALESCE(column, value). */
  function Coalesce(column: Option<int>, value: int): Option<int> {
    if column.Some? then column else Some(value)
  }

  // ----- leases -----

  datatype LeaseState =
    | Queued | Offered | Leased | Attaching | Active | Releasing
    | Released | Failed | Cancelled | Expired
  {
    /** The states that occupy a slot of a Desktop. */
    predicate Holds() { Offered? || Leased? || Attaching? || Active? || Releasing? }
    predicate Live() { Queued? || Holds() }
    predicate Terminal() { !Live() }
  }

  datatype Policy = Family | SharedIfCompatible | Exclusive

  /** The columns of a lease that are written once, when it is requested.
      `pin` is the exact-session reservation id (0 when the lease is unpinned). */
  datatype Request = Request(
    protocol: nat, group: string, family: string, profile: string,
    policy: Policy, exclusive: bool, task: nat,
    pin: nat, pinSession: nat, pinGeneration: nat)

  /** native_pipeline_completed_at with the session and wave it was written for. */
  datatype Marker = Marker(session: nat, wave: nat)

  /** `permit` is solve_permit_generation where solve_permit_at is not NULL. */
  datatype Lease = Lease(
    req: Request, key: string, token: string, state: LeaseState,
    session: Option<nat>, slot: nat, permit: Option<nat>, marker: Option<Marker>,
    wantAllocation: nat, wantNode: string,
    heartbeat: int, expires: int, offerExpires: int, deadline: int,
    releaseAt: Option<int>)

  type Leases = map<nat, Lease>

  /** The lease occupies a slot of Desktop `s`. */
  predicate Holder(l: Lease, s: nat) {
    l.state.Holds() && l.session == Some(s)
  }

  /** The lease has, or is opening or closing, a project in its Desktop. */
  predicate OwnsProject(l: Lease) {
    l.state.Attaching? || l.state.Active? || l.state.Releasing?
  }

  function Holders(ls: Leases, s: nat): set<nat> {
    set id | id in ls && Holder(ls[id], s)
  }

  predicate NoHolder(ls: Leases, s: nat) {
    forall id :: id in ls ==> !Holder(ls[id], s)
  }

  // ----- sessions -----

  datatype SessionState =
    | Starting | Ready | Busy | Draining | Unhealthy | SessionClosed | SessionFailed
  {
    predicate Assignable() { Ready? || Busy? }
    predicate Over() { SessionClosed? || SessionFailed? }
  }

  /** The failure messages that some transition tests for. */
  datatype Fault =
    | NoFault | HeartbeatTimeout | StartAckTimeout | TransportSuspect | NativeSuspect | OtherFault

  datatype Quarantine = NoQuarantine | ConfirmedDeath | OtherQuarantine

  /** `wave` is solve_batch_generation, `blockedAt` is reuse_blocked_at. */
  datatype Session = Session(
    allocation: nat, node: string, slots: nat, generation: nat, profile: string,
    state: SessionState, isSealed: bool, wave: nat,
    blockedAt: Option<int>, drainAt: Option<int>,
    quarantine: Quarantine, quarantineUntil: Option<int>, fault: Fault,
    heartbeat: Option<int>, started: Option<int>, created: int,
    faultAt: Option<int>, claimedAt: Option<int>,
    host: string, token: string, endpoint: string, process: string)

  type Sessions = map<nat, Session>

  // ----- exact-session reservations -----

  datatype ReservationState =
    | Reserved | Claimed | Consumed | ResReleased | ResFailed | ResExpired
  {
    predicate Live() { Reserved? || Claimed? || Consumed? }
    /** The states that hold a slot no lease occupies yet. */
    predicate Held() { Reserved? || Claimed? }
  }

  /** An operator names a cohort; an automatic cohort key carries a random nonce. */
  datatype CohortKey = Operator(name: string) | Auto(session: nat, generation: nat, nonce: string)

  /** Operator reservations carry no sharing contract (`family` is empty). */
  datatype Reservation = Reservation(
    key: CohortKey, task: nat, session: nat, generation: nat, profile: string,
    family: string, policy: Option<Policy>, state: ReservationState,
    lease: Option<nat>, expires: int)

  type Reservations = map<nat, Reservation>

  // ----- scheduler tables the pool reads -----

  datatype TaskStatus = TaskQueued | TaskRunning | TaskTerminal
  datatype Task = Task(status: TaskStatus, pooled: bool)
  type Tasks = map<nat, Task>

  datatype AllocationState = Pending | Warm | InUse | AllocDraining | AllocGone
  /** Every reason but the last two begins with the pool's own prefix. */
  datatype DrainReason =
    | ProjectDemand | UnhealthyRecycle | FaultedRecycle | AgeRotation | PoolReason
    | ForeignReason | BlankReason
  datatype Allocation = Allocation(state: AllocationState, reason: DrainReason, created: int)
  {
    predicate Usable() { state.Warm? || state.InUse? }
    /** The allocation belongs to the pool. */
    predicate Dedicated() { !reason.ForeignReason? && !reason.BlankReason? }
    predicate Open() { Usable() || state.AllocDraining? }
  }
  type Allocations = map<nat, Allocation>

  /** One database snapshot, with the service's in-memory placement cursor. */
  datatype Pool = Pool(
    sessions: Sessions, leases: Leases, reservations: Reservations,
    tasks: Tasks, allocations: Allocations, cursor: nat)

  const EMPTY_POOL := Pool(map[], map[], map[], map[], map[], 0)

  /** The settings a transition reads; they may change between two steps. */
  datatype Config = Config(
    operational: bool, target: int, leaseTtl: int, queuedStale: int, offerAck: int,
    sessionTimeout: int, recycleGrace: int, startTimeout: int, allocationMaxAge: int)

  predicate TaskOver(tasks: Tasks, t: nat) {
    t in tasks && tasks[t].status.TaskTerminal?
  }

  predicate HasPermit(ls: Leases, lease: Option<nat>) {
    lease.Some? && lease.value in ls && ls[lease.value].permit.Some?
  }
}
