/** The transactions of session hosts and of the background reconciler. */
module PoolHost {
  import opened PoolRows
  import opened PoolRefresh
  import opened PoolCursor
  import opened PoolClient

  // ----- starting a Desktop -----

  function ClaimStart(st: Pool, s: nat, allocation: nat, node: string, host: string, now: int): Pool {
    if s in st.sessions && host != "" && st.sessions[s].state.Starting?
       && st.sessions[s].allocation == allocation && st.sessions[s].node == node
       && allocation in st.allocations && (st.sessions[s].host == "" || st.sessions[s].host == host)
    then st.(sessions := st.sessions[s := st.sessions[s].(
           host := host, claimedAt := Coalesce(st.sessions[s].claimedAt, now))])
    else st
  }

  /** A rightful owner whose start acknowledgement came after the timeout. */
  predicate LateStart(x: Session) {
    x.state.Unhealthy? && x.fault.StartAckTimeout? && x.started.None? && x.token == ""
  }

  /** Cancel the recycle drain once no sibling is unhealthy or quarantined. */
  function RestoreAllocation(st: Pool, a: nat): Pool {
    if a in st.allocations && st.allocations[a].state.AllocDraining? && st.allocations[a].reason.UnhealthyRecycle?
       && !exists t :: t in st.sessions && st.sessions[t].allocation == a
              && (st.sessions[t].state.Unhealthy? || !st.sessions[t].quarantine.NoQuarantine?)
    then st.(allocations := st.allocations[a := st.allocations[a].(state := InUse, reason := ProjectDemand)])
    else st
  }

  predicate MayRegister(st: Pool, s: nat, host: string, profile: string)
    requires s in st.sessions
  {
    var x := st.sessions[s];
    && (x.profile == "" || x.profile == profile)
    && host != "" && x.host == host
    && (x.state.Starting? ||
        (LateStart(x) && x.allocation in st.allocations && st.allocations[x.allocation].Open()))
  }

  /** The row of a Desktop that its host registers. */
  function RegisteredRow(x: Session, state: SessionState, endpoint: string, process: string, profile: string,
                         token: string, now: int): Session
  {
    x.(state := state, endpoint := endpoint, process := process,
       profile := if profile == "" then x.profile else profile, token := token,
       started := Some(now), heartbeat := Some(now), fault := NoFault, drainAt := None)
  }

  function RegisterSession(st: Pool, s: nat, host: string, endpoint: string, process: string,
                           profile: string, token: string, enabled: bool, now: int): Pool
  {
    if s !in st.sessions || !MayRegister(st, s, host, profile) then st
    else
      var x := st.sessions[s];
      var late := !x.state.Starting?;
      var foreignDrain := late && x.allocation in st.allocations && st.allocations[x.allocation].state.AllocDraining?
                          && !st.allocations[x.allocation].reason.UnhealthyRecycle?;
      var state := if enabled && !foreignDrain then Ready else Draining;
      var su := st.(sessions := st.sessions[s := RegisteredRow(x, state, endpoint, process, profile, token, now)]);
      if late && state.Ready? then RestoreAllocation(su, x.allocation) else su
  }

  /** The host that claimed the start, or nobody when `host` is empty, gives it up. */
  function FailStart(st: Pool, s: nat, host: string): Pool {
    if s in st.sessions && st.sessions[s].state.Starting? && st.sessions[s].host == host
    then st.(sessions := st.sessions[s := st.sessions[s].(state := SessionFailed, fault := OtherFault)])
    else st
  }

  // ----- the life of a Desktop -----

  predicate HostAuthorized(st: Pool, s: nat, token: string) {
    s in st.sessions && st.sessions[s].token != "" && st.sessions[s].token == token
  }

  predicate ClosingOn(ls: Leases, s: nat) {
    exists id :: id in ls && ls[id].session == Some(s) && ls[id].state.Releasing?
  }

  /** The heartbeat proves a later moment than the barrier's, with nothing left to close. */
  predicate BarrierMayClear(st: Pool, s: nat, now: int)
    requires s in st.sessions
  {
    var x := st.sessions[s];
    && x.blockedAt.Some? && x.blockedAt.value < now
    && x.state.Assignable() && x.fault.NoFault? && x.quarantine.NoQuarantine?
    && !ClosingOn(st.leases, s)
  }

  predicate Recoverable(st: Pool, s: nat, operational: bool)
    requires s in st.sessions
  {
    var x := st.sessions[s];
    && operational && x.state.Unhealthy?
    && (x.fault.HeartbeatTimeout? || x.fault.TransportSuspect? || x.fault.NativeSuspect?)
    && x.quarantine.NoQuarantine?
    && x.allocation in st.allocations
    && (st.allocations[x.allocation].Usable()
        || (st.allocations[x.allocation].state.AllocDraining? && st.allocations[x.allocation].reason.UnhealthyRecycle?))
  }

  function Recovered(st: Pool, s: nat, now: int): Pool
    requires s in st.sessions
  {
    var x := st.sessions[s];
    var su := st.(sessions := st.sessions[s := x.(
      state := if NoHolder(st.leases, s) then Ready else Busy,
      fault := NoFault, drainAt := None, heartbeat := Some(now))]);
    RestoreAllocation(su, x.allocation)
  }

  /** `alive` says that the request carries a valid liveness proof. */
  function HeartbeatSession(st: Pool, cfg: Config, s: nat, token: string, alive: bool, now: int): Pool {
    if !HostAuthorized(st, s, token) || !alive || st.sessions[s].state.Starting? || st.sessions[s].state.Over() then st
    else
      var clears := BarrierMayClear(st, s, now);
      var x := st.sessions[s];
      var su := st.(sessions := st.sessions[s := x.(
        blockedAt := if clears then None else x.blockedAt, heartbeat := Some(now))]);
      if Recoverable(st, s, cfg.operational) then Recovered(su, s, now)
      else if clears && cfg.operational then PlaceBatch(RefreshReservations(su, now), cfg, now)
      else su
  }

  /** The session row after the host confirmed a close, or that it could not close. */
  function AfterAck(x: Session, success: bool, now: int): Session {
    if x.state.Over() then x
    else if success then x.(blockedAt := Some(now))
    else x.(blockedAt := Some(now), state := Unhealthy, drainAt := Some(now), quarantineUntil := Some(now),
            quarantine := OtherQuarantine, fault := OtherFault)
  }

  function Acknowledged(st: Pool, s: nat, id: nat, success: bool, now: int): Pool
    requires s in st.sessions && id in st.leases
  {
    st.(leases := st.leases[id := st.leases[id].(state := if success then Released else Failed)],
        sessions := st.sessions[s := AfterAck(st.sessions[s], success, now)])
  }

  predicate MayAcknowledge(st: Pool, s: nat, token: string, id: nat) {
    HostAuthorized(st, s, token) && id in st.leases
    && st.leases[id].session == Some(s) && st.leases[id].state.Releasing?
  }

  function CompleteRelease(st: Pool, cfg: Config, s: nat, token: string, id: nat, success: bool, now: int): Pool {
    if !MayAcknowledge(st, s, token, id) then st
    else
      var su := RefreshReservations(RefreshSessions(Acknowledged(st, s, id, success, now), {s}), now);
      if cfg.operational then PlaceBatch(RefreshReservations(su, now), cfg, now) else su
  }

  /** `seen` is the row that the process probe was made for. */
  function ReapDeadSession(st: Pool, s: nat, seen: Session): Pool {
    if s in st.sessions && st.sessions[s] == seen && (seen.state.Unhealthy? || seen.state.Draining?)
       && (forall id :: id in st.leases && st.leases[id].session == Some(s) ==> !st.leases[id].state.Live())
    then st.(sessions := st.sessions[s := seen.(state := SessionClosed)])
    else st
  }

  /** Owners of a dead Desktop wait again, without the permit and without affinity. */
  function RequeueOwners(st: Pool, cfg: Config, s: nat, now: int): Pool {
    st.(leases := map id | id in st.leases ::
          if Holder(st.leases[id], s) && st.leases[id].req.pin == 0
          then st.leases[id].(state := Queued, session := None, slot := 0, permit := None,
                              wantAllocation := 0, wantNode := "", releaseAt := None,
                              heartbeat := now, expires := now + cfg.leaseTtl)
          else st.leases[id])
  }

  /** Every owner leaves: requeued if the Desktop died and they may try again, failed otherwise. */
  function Vacated(st: Pool, cfg: Config, s: nat, requeue: bool, now: int): Pool {
    if requeue then RequeueOwners(st, cfg, s, now) else FailLeases(st, Holders(st.leases, s))
  }

  function EndDesktop(st: Pool, s: nat, success: bool, fault: Fault): Pool
    requires s in st.sessions
  {
    st.(sessions := st.sessions[s := st.sessions[s].(
      state := if success then SessionClosed else SessionFailed, fault := if success then NoFault else fault)])
  }

  /** A failed Desktop taints its allocation. */
  function Tainted(st: Pool, s: nat, success: bool): Pool
    requires s in st.sessions
  {
    if success then st else DrainAllocation(st, st.sessions[s].allocation, FaultedRecycle)
  }

  function CloseSession(st: Pool, cfg: Config, s: nat, token: string, success: bool, requeue: bool,
                        fault: Fault, now: int): Pool
  {
    if !HostAuthorized(st, s, token) || (success && !NoHolder(st.leases, s)) then st
    else
      var failed := FailCohortsOn(st, s, now);
      if s !in failed.sessions then st
      else
        var vacated := Vacated(Tainted(failed, s, success), cfg, s, !success && requeue, now);
        if s !in vacated.sessions then st else EndDesktop(vacated, s, success, fault)
  }

  predicate SupervisedSolve(st: Pool, s: nat, now: int) {
    exists id :: id in st.leases && Holder(st.leases[id], s) && !st.leases[id].state.Offered?
                 && st.leases[id].expires >= now
  }

  function SessionFault(st: Pool, s: nat, token: string, confirmed: bool, fault: Fault, now: int): Pool {
    if !HostAuthorized(st, s, token) then st
    else
      var x := st.sessions[s];
      if !confirmed then
        if !(x.state.Assignable() || x.state.Unhealthy?) then st
        else
          var supervised := SupervisedSolve(st, s, now);
          st.(sessions := st.sessions[s := x.(
            state := Unhealthy, quarantine := NoQuarantine, fault := NativeSuspect, faultAt := Some(now),
            drainAt := if supervised then None else Coalesce(x.drainAt, now),
            heartbeat := if supervised then Some(now) else x.heartbeat)])
      else
        var su := if x.state.Assignable() || x.state.Draining? || x.state.Unhealthy?
                  then st.(sessions := st.sessions[s := x.(
                         state := Unhealthy, quarantine := ConfirmedDeath, fault := fault, faultAt := Some(now),
                         drainAt := Coalesce(x.drainAt, now))])
                  else st;
        DrainAllocation(su, x.allocation, FaultedRecycle)
  }

  /** Ask the Desktops of the listed allocations, or all of them, to drain. */
  function RequestDrain(st: Pool, which: Option<set<nat>>, now: int): Pool {
    st.(sessions := map s | s in st.sessions ::
          if (which.None? || st.sessions[s].allocation in which.value)
             && (st.sessions[s].state.Assignable()
                 || (st.sessions[s].state.Unhealthy? && st.sessions[s].fault.HeartbeatTimeout?
                     && st.sessions[s].quarantine.NoQuarantine?))
          then st.sessions[s].(state := Draining, fault := OtherFault, drainAt := Coalesce(st.sessions[s].drainAt, now))
          else st.sessions[s])
  }
}
