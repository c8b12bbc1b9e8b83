/** The maintenance updates that run inside other transactions: the session state
    refresh, the cohort updates and the reservation refresh. */
module PoolRefresh {
  import opened PoolRows

  /** READY/BUSY/DRAINING follow the owners; the seal of an empty Desktop is cleared.
      A draining, unhealthy or finished session is left alone, sealed or not. */
  function Refreshed(x: Session, empty: bool): Session {
    if x.state.Draining? || x.state.Unhealthy? || x.state.Over() then x
    else x.(state := if !empty then Busy else if x.drainAt.Some? then Draining else Ready,
            isSealed := x.isSealed && !empty)
  }

  function RefreshSessions(st: Pool, which: set<nat>): Pool {
    st.(sessions := map s | s in st.sessions ::
          if s in which then Refreshed(st.sessions[s], NoHolder(st.leases, s)) else st.sessions[s])
  }

  /** Arm the reuse barrier of the listed Desktops, keeping an armed one. */
  function BlockSessions(st: Pool, which: set<nat>, now: int): Pool {
    st.(sessions := map s | s in st.sessions ::
          if s in which && !st.sessions[s].state.Over()
          then st.sessions[s].(blockedAt := Coalesce(st.sessions[s].blockedAt, now))
          else st.sessions[s])
  }

  /** Every session a listed lease is on. */
  function SessionsOf(st: Pool, ids: set<nat>): set<nat> {
    set s | s in st.sessions && exists id :: id in ids && id in st.leases && st.leases[id].session == Some(s)
  }

  /** Two-phase release of the listed leases: the host closes each project, and
      no Desktop they are on takes new work meanwhile. */
  function ReleaseLeases(st: Pool, ids: set<nat>, now: int): Pool {
    st.(leases := map id | id in st.leases ::
          if id in ids && (st.leases[id].state.Leased? || st.leases[id].state.Attaching?
                           || st.leases[id].state.Active? || st.leases[id].state.Releasing?)
          then st.leases[id].(state := Releasing, releaseAt := Coalesce(st.leases[id].releaseAt, now))
          else st.leases[id])
  }

  function FailLeases(st: Pool, ids: set<nat>): Pool {
    st.(leases := map id | id in st.leases ::
          if id in ids && st.leases[id].state.Live()
          then st.leases[id].(state := Failed) else st.leases[id])
  }

  /** Leases that own no project yet expire where they stand. */
  function ExpireLeases(st: Pool, ids: set<nat>): Pool {
    st.(leases := map id | id in st.leases ::
          if id in ids && (st.leases[id].state.Queued? || st.leases[id].state.Offered?
                           || st.leases[id].state.Leased?)
          then st.leases[id].(state := Expired) else st.leases[id])
  }

  function FinishReservations(st: Pool, rids: set<nat>, end: ReservationState): Pool {
    st.(reservations := map r | r in st.reservations ::
          if r in rids && st.reservations[r].state.Live()
          then st.reservations[r].(state := end) else st.reservations[r])
  }

  predicate InCohort(rs: Reservations, l: Lease, keys: set<CohortKey>) {
    l.req.pin in rs && rs[l.req.pin].key in keys
  }

  function CohortLeases(st: Pool, keys: set<CohortKey>): set<nat> {
    set id | id in st.leases && InCohort(st.reservations, st.leases[id], keys)
  }

  function CohortReservations(st: Pool, keys: set<CohortKey>): set<nat> {
    set r | r in st.reservations && st.reservations[r].key in keys
  }

  /** Fail whole cohorts. With `settle`, members that own a project go through the
      two-phase release instead of failing at once. */
  function FailCohorts(st: Pool, keys: set<CohortKey>, settle: bool, now: int): Pool {
    var members := CohortLeases(st, keys);
    if !settle then
      FinishReservations(FailLeases(st, members), CohortReservations(st, keys), ResFailed)
    else
      var owners := set id | id in members && OwnsProject(st.leases[id]);
      var released := ReleaseLeases(BlockSessions(st, SessionsOf(st, owners), now), owners, now);
      FinishReservations(FailLeases(released, members - owners), CohortReservations(st, keys), ResFailed)
  }

  /** Expire every member that does not hold a solve permit. */
  function ExpireCohorts(st: Pool, keys: set<CohortKey>, now: int): Pool {
    var members := CohortLeases(st, keys);
    var unpermitted := set id | id in members && st.leases[id].permit.None?;
    var closing := set id | id in unpermitted && OwnsProject(st.leases[id]);
    var blocking := set id | id in members && (id in closing || st.leases[id].state.Releasing?);
    var released := ReleaseLeases(BlockSessions(st, SessionsOf(st, blocking), now), closing, now);
    var expired := ExpireLeases(released, unpermitted);
    var ended := set r | r in CohortReservations(st, keys) && !HasPermit(st.leases, st.reservations[r].lease);
    FinishReservations(expired, ended, ResExpired)
  }

  predicate Unsealed(ss: Sessions, s: nat) {
    s in ss ==> !ss[s].isSealed
  }

  /** A live member whose task is over, on an unsealed Desktop, with a live sibling. */
  predicate HasTerminalSibling(st: Pool, rid: nat)
    requires rid in st.reservations
  {
    var r := st.reservations[rid];
    && r.state.Live() && TaskOver(st.tasks, r.task) && Unsealed(st.sessions, r.session)
    && exists q :: q in st.reservations && q != rid
         && st.reservations[q].key == r.key && st.reservations[q].state.Live()
  }

  predicate CohortExpired(st: Pool, rid: nat, now: int)
    requires rid in st.reservations
  {
    var r := st.reservations[rid];
    r.state.Live() && r.expires <= now && Unsealed(st.sessions, r.session) && !HasPermit(st.leases, r.lease)
  }

  predicate LeaseOver(ls: Leases, lease: Option<nat>) {
    lease.Some? && lease.value in ls && ls[lease.value].state.Terminal()
  }

  /** The member is not attached to the reserved Desktop. */
  predicate Detached(st: Pool, q: Reservation, s: nat) {
    !q.state.Consumed? || q.lease.None? || q.lease.value !in st.leases
    || !st.leases[q.lease.value].state.Holds() || st.leases[q.lease.value].session != Some(s)
  }

  /** A sealed Desktop serves only permitted or still active members. */
  predicate LeftOutOfBatch(st: Pool, q: Reservation) {
    q.state.Held() || q.lease.None? || q.lease.value !in st.leases
    || (st.leases[q.lease.value].permit.None? && !st.leases[q.lease.value].state.Active?)
  }

  predicate StillPending(st: Pool, q: Reservation) {
    q.state.Held() || !HasPermit(st.leases, q.lease)
  }

  predicate ActiveOwner(st: Pool, rid: nat, r: Reservation) {
    && r.state.Consumed? && r.lease.Some? && r.lease.value in st.leases
    && var l := st.leases[r.lease.value];
       l.req.pin == rid && l.session == Some(r.session) && l.state.Active?
  }

  predicate TargetInvalid(st: Pool, rid: nat)
    requires rid in st.reservations
  {
    var r := st.reservations[rid];
    r.session !in st.sessions ||
    var x := st.sessions[r.session];
    || x.generation != r.generation || x.profile != r.profile || !x.state.Assignable()
    || (x.drainAt.Some? &&
        !(x.state.Busy? && !exists q :: q in st.reservations && st.reservations[q].key == r.key
                             && st.reservations[q].state.Live() && Detached(st, st.reservations[q], r.session)))
    || (x.allocation in st.allocations && !st.allocations[x.allocation].Usable() &&
        !(x.isSealed && x.process != "" && x.host != "" && x.token != "" && ActiveOwner(st, rid, r)))
    || (x.isSealed && exists q :: q in st.reservations && st.reservations[q].key == r.key
                        && st.reservations[q].state.Live() && LeftOutOfBatch(st, st.reservations[q]))
  }

  predicate Invalidated(st: Pool, rid: nat)
    requires rid in st.reservations
  {
    && st.reservations[rid].state.Live() && TargetInvalid(st, rid)
    && exists q :: q in st.reservations && st.reservations[q].key == st.reservations[rid].key
         && st.reservations[q].state.Live() && StillPending(st, st.reservations[q])
  }

  function TerminalSiblingKeys(st: Pool): set<CohortKey> {
    set r | r in st.reservations && HasTerminalSibling(st, r) :: st.reservations[r].key
  }

  function ExpiredKeys(st: Pool, now: int): set<CohortKey> {
    set r | r in st.reservations && CohortExpired(st, r, now) :: st.reservations[r].key
  }

  function InvalidKeys(st: Pool): set<CohortKey> {
    set r | r in st.reservations && Invalidated(st, r) :: st.reservations[r].key
  }

  /** Reservations whose task or claimed lease is over give their slot back. */
  function ReleaseFinished(st: Pool): Pool {
    var tasksOver := set r | r in st.reservations && TaskOver(st.tasks, st.reservations[r].task);
    var byTask := FinishReservations(st, tasksOver, ResReleased);
    var leasesOver := set r | r in byTask.reservations && !byTask.reservations[r].state.Reserved?
                            && LeaseOver(byTask.leases, byTask.reservations[r].lease);
    FinishReservations(byTask, leasesOver, ResReleased)
  }

  /** Cohorts whose Desktop became unusable before every member had a permit. */
  function FailInvalidTargets(st: Pool, now: int): Pool {
    var keys := InvalidKeys(st);
    var affected := set r | r in st.reservations && st.reservations[r].key in keys :: st.reservations[r].session;
    RefreshSessions(FailCohorts(st, keys, false, now), affected)
  }

  function RefreshReservations(st: Pool, now: int): Pool {
    var siblings := FailCohorts(st, TerminalSiblingKeys(st), true, now);
    var expired := ExpireCohorts(siblings, ExpiredKeys(siblings, now), now);
    FailInvalidTargets(ReleaseFinished(expired), now)
  }

  /** Every cohort with a live member, or a live lease, on a Desktop that is closing. */
  function FailCohortsOn(st: Pool, s: nat, now: int): Pool {
    var keys := set r | r in st.reservations && st.reservations[r].session == s
                       && (st.reservations[r].state.Live()
                           || (st.reservations[r].lease.Some? && st.reservations[r].lease.value in st.leases
                               && st.leases[st.reservations[r].lease.value].state.Live()))
                     :: st.reservations[r].key;
    FailCohorts(st, keys, false, now)
  }
}
