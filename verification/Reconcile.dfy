/** The reconciler: one transaction that reaps stale ownership, places queued
    leases and applies a capacity plan. */
module PoolReconcile {
  import opened PoolRows
  import opened PoolRefresh
  import opened PoolPlacement
  import opened PoolEntry
  import opened PoolCursor
  import opened PoolClient
  import opened PoolHost

  /** What account routing and the planner decided: unclaimed starts to retire,
      Desktops to drain for storage pressure, for rebalancing and above the cap,
      and Desktops to open. */
  datatype Orders = Orders(
    blockedStarts: set<nat>, pressured: set<nat>, rebalance: set<nat>, surplus: set<nat>, opening: seq<Opening>)

  datatype Opening = Opening(allocation: nat, node: string, slots: nat)

  /** Busy Desktops that should drain and lost their last owner. */
  function RefreshEmptyDrains(st: Pool): Pool {
    RefreshSessions(st, set s | s in st.sessions && st.sessions[s].state.Busy? && st.sessions[s].drainAt.Some?
                                && NoHolder(st.leases, s))
  }

  function RetireStarts(st: Pool, which: set<nat>): Pool {
    st.(sessions := map s | s in st.sessions ::
          if s in which && st.sessions[s].state.Starting? && st.sessions[s].host == ""
          then st.sessions[s].(state := SessionFailed, fault := OtherFault) else st.sessions[s])
  }

  function DrainPressured(st: Pool, which: set<nat>, now: int): Pool {
    st.(sessions := map s | s in st.sessions ::
          if s in which && st.sessions[s].state.Assignable() && st.sessions[s].drainAt.None?
          then st.sessions[s].(state := if st.sessions[s].state.Ready? then Draining else Busy,
                               fault := OtherFault, drainAt := Some(now))
          else st.sessions[s])
  }

  function RotateAllocations(st: Pool, cfg: Config, now: int): Pool {
    if cfg.allocationMaxAge == 0 then st
    else st.(allocations := map a | a in st.allocations ::
               if st.allocations[a].Usable() && st.allocations[a].Dedicated()
                  && st.allocations[a].created <= now - cfg.allocationMaxAge
               then st.allocations[a].(state := AllocDraining, reason := AgeRotation)
               else st.allocations[a])
  }

  function Rotating(st: Pool): set<nat> {
    set a | a in st.allocations && st.allocations[a].state.AllocDraining? && st.allocations[a].reason.AgeRotation?
  }

  // ----- leases whose client is gone -----

  function CancelLeases(st: Pool, ids: set<nat>, end: LeaseState): Pool {
    st.(leases := map id | id in st.leases ::
          if id in ids then st.leases[id].(state := end, session := None, slot := 0) else st.leases[id])
  }

  /** Like ReleaseLeases, with the request time of this pass. */
  function CloseProjects(st: Pool, ids: set<nat>, now: int): Pool {
    st.(leases := map id | id in st.leases ::
          if id in ids then st.leases[id].(state := Releasing, releaseAt := Some(now)) else st.leases[id])
  }

  predicate ClientOver(st: Pool, l: Lease) {
    TaskOver(st.tasks, l.req.task) &&
    (l.state.Queued? || l.state.Offered? || l.state.Leased? || l.state.Attaching? || l.state.Active?)
  }

  function EndOrphans(st: Pool, now: int): Pool {
    var over := set id | id in st.leases && ClientOver(st, st.leases[id]);
    var owners := set id | id in over && OwnsProject(st.leases[id]);
    var others := over - owners;
    var su := CloseProjects(BlockSessions(st, SessionsOf(st, owners), now), owners, now);
    RefreshSessions(CancelLeases(su, others, Cancelled), SessionsOf(st, others))
  }

  function StaleOffers(st: Pool, now: int): set<nat> {
    set id | id in st.leases && st.leases[id].state.Offered? && st.leases[id].req.protocol >= 2
             && st.leases[id].offerExpires < now && st.leases[id].deadline > now && st.leases[id].expires > now
  }

  function RequeueStale(st: Pool, now: int): Pool {
    var ids := StaleOffers(st, now);
    RefreshSessions(RequeueOffers(st, ids), SessionsOf(st, ids))
  }

  predicate Lapsed(cfg: Config, l: Lease, now: int) {
    && (l.state.Queued? || l.state.Offered? || l.state.Leased? || l.state.Attaching? || l.state.Active?)
    && (|| l.expires < now
        || ((l.state.Queued? || l.state.Offered?) && l.deadline < now)
        || (l.state.Queued? && l.req.protocol < 2
            && l.heartbeat < now - (if cfg.leaseTtl < 300 then cfg.leaseTtl else 300))
        || (l.state.Offered? && l.req.protocol < 2 && l.offerExpires < now))
  }

  /** A dead active client may have left a solve running: its Desktop is quarantined. */
  function QuarantineSessions(st: Pool, which: set<nat>, now: int): Pool {
    st.(sessions := map s | s in st.sessions ::
          if s in which && (st.sessions[s].state.Assignable()
                            || (st.sessions[s].state.Unhealthy? && st.sessions[s].fault.HeartbeatTimeout?
                                && st.sessions[s].quarantine.NoQuarantine?))
          then st.sessions[s].(state := Draining, quarantine := OtherQuarantine,
                               quarantineUntil := Coalesce(st.sessions[s].quarantineUntil, now + 900),
                               fault := OtherFault, drainAt := Coalesce(st.sessions[s].drainAt, now))
          else st.sessions[s])
  }

  function ExpireLapsed(st: Pool, cfg: Config, now: int): Pool {
    var lapsed := set id | id in st.leases && Lapsed(cfg, st.leases[id], now);
    var waiting := set id | id in lapsed && (st.leases[id].state.Queued? || st.leases[id].state.Offered?);
    var closing := lapsed - waiting;
    var solving := set id | id in closing && st.leases[id].state.Active?;
    var su := CloseProjects(BlockSessions(st, SessionsOf(st, closing), now), closing, now);
    var sv := RefreshSessions(CancelLeases(su, waiting, Expired), SessionsOf(st, waiting));
    QuarantineSessions(sv, SessionsOf(st, solving), now)
  }

  // ----- Desktops whose host is gone -----

  function LastSeen(x: Session): int {
    if x.heartbeat.Some? then x.heartbeat.value else if x.started.Some? then x.started.value else x.created
  }

  function ExpireSessions(st: Pool, cfg: Config, now: int): Pool {
    st.(sessions := map s | s in st.sessions ::
          if (st.sessions[s].state.Assignable() || st.sessions[s].state.Draining?)
             && LastSeen(st.sessions[s]) < now - cfg.sessionTimeout
          then st.sessions[s].(state := Unhealthy,
                               fault := if st.sessions[s].state.Draining? then OtherFault else HeartbeatTimeout,
                               drainAt := Coalesce(st.sessions[s].drainAt, now))
          else st.sessions[s])
  }

  predicate Silent(x: Session, cutoff: int) {
    x.state.Unhealthy? && LastSeen(x) < cutoff
  }

  predicate ReleaseOld(l: Lease, cutoff: int) {
    l.state.Releasing? && l.releaseAt.Some? && l.releaseAt.value < cutoff
  }

  function CondemnSilent(st: Pool, cutoff: int, now: int): Pool {
    st.(sessions := map s | s in st.sessions ::
          if Silent(st.sessions[s], cutoff)
             && exists id :: id in st.leases && st.leases[id].session == Some(s) && ReleaseOld(st.leases[id], cutoff)
          then st.sessions[s].(fault := OtherFault, quarantine := OtherQuarantine,
                               blockedAt := Coalesce(st.sessions[s].blockedAt, now),
                               drainAt := Coalesce(st.sessions[s].drainAt, now))
          else st.sessions[s])
  }

  /** A host that vanished after the release command: the lease ends, and its Desktop is
      quarantined behind its barrier. */
  function LoseReleases(st: Pool, cfg: Config, now: int): Pool {
    var cutoff := now - cfg.sessionTimeout;
    var su := CondemnSilent(st, cutoff, now);
    FailLeases(su, set id | id in su.leases && ReleaseOld(su.leases[id], cutoff)
      && (su.leases[id].session.None? || su.leases[id].session.value !in su.sessions
          || su.sessions[su.leases[id].session.value].state.Over()
          || Silent(su.sessions[su.leases[id].session.value], cutoff)))
  }

  function ExpireStarts(st: Pool, cfg: Config, now: int): Pool {
    st.(sessions := map s | s in st.sessions ::
          if st.sessions[s].state.Starting?
             && (if st.sessions[s].claimedAt.Some? then st.sessions[s].claimedAt.value else st.sessions[s].created)
                < now - cfg.startTimeout
          then st.sessions[s].(state := Unhealthy, fault := StartAckTimeout,
                               drainAt := Coalesce(st.sessions[s].drainAt, now))
          else st.sessions[s])
  }

  function DrainSince(x: Session): int {
    if x.drainAt.Some? then x.drainAt.value else if x.heartbeat.Some? then x.heartbeat.value else x.created
  }

  function RecycleAllocations(st: Pool, cfg: Config, now: int): Pool {
    var tainted := set s | s in st.sessions
                     && (!st.sessions[s].quarantine.NoQuarantine?
                         || (st.sessions[s].state.Unhealthy? && DrainSince(st.sessions[s]) < now - cfg.recycleGrace))
                   :: st.sessions[s].allocation;
    st.(allocations := map a | a in st.allocations ::
          if a in tainted && st.allocations[a].Open()
          then st.allocations[a].(
                 state := AllocDraining,
                 reason := if st.allocations[a].state.AllocDraining? && !st.allocations[a].reason.BlankReason?
                              && !st.allocations[a].reason.ProjectDemand?
                           then st.allocations[a].reason else UnhealthyRecycle)
          else st.allocations[a])
  }

  function FaultSince(x: Session): int {
    if x.drainAt.Some? then x.drainAt.value
    else if x.faultAt.Some? then x.faultAt.value else LastSeen(x)
  }

  predicate Unreachable(st: Pool, cfg: Config, s: nat, now: int)
    requires s in st.sessions
  {
    var x := st.sessions[s];
    var grace := now - cfg.recycleGrace;
    var reap := now - (if 5 * cfg.sessionTimeout < 900 then 900 else 5 * cfg.sessionTimeout);
    && x.state.Unhealthy?
    && (|| ((x.fault.NativeSuspect? || x.quarantine.ConfirmedDeath?) && FaultSince(x) < grace
            && NoHolder(st.leases, s))
        || (LastSeen(x) < reap && DrainSince(x) < grace))
  }

  /** Nobody can close an unreachable Desktop: its owners fail with it. */
  function ReapUnreachable(st: Pool, cfg: Config, now: int): Pool {
    var dead := set s | s in st.sessions && Unreachable(st, cfg, s, now);
    var su := FailLeases(st, set id | id in st.leases && st.leases[id].state.Holds()
                                      && st.leases[id].session.Some? && st.leases[id].session.value in dead);
    su.(sessions := map s | s in su.sessions ::
          if s in dead then su.sessions[s].(state := SessionFailed) else su.sessions[s])
  }

  predicate Restorable(st: Pool, a: nat)
    requires a in st.allocations
  {
    && st.allocations[a].state.AllocDraining?
    && (st.allocations[a].reason.FaultedRecycle? || st.allocations[a].reason.UnhealthyRecycle?)
    && (exists s :: s in st.sessions && st.sessions[s].allocation == a && st.sessions[s].state.Assignable())
    && !(exists s :: s in st.sessions && st.sessions[s].allocation == a && !st.sessions[s].state.Over()
                     && (st.sessions[s].state.Unhealthy? || !st.sessions[s].quarantine.NoQuarantine?))
  }

  function RestoreAllocations(st: Pool): Pool {
    var good := set a | a in st.allocations && Restorable(st, a);
    st.(allocations := map a | a in st.allocations ::
          if a in good then st.allocations[a].(state := InUse, reason := ProjectDemand) else st.allocations[a],
        sessions := map s | s in st.sessions ::
          if st.sessions[s].allocation in good && st.sessions[s].state.Assignable()
          then st.sessions[s].(drainAt := None) else st.sessions[s])
  }

  function DrainStranded(st: Pool, now: int): Pool {
    st.(sessions := map s | s in st.sessions ::
          if st.sessions[s].state.Ready? && st.sessions[s].allocation in st.allocations
             && !st.allocations[st.sessions[s].allocation].Usable()
          then st.sessions[s].(state := Draining, drainAt := Coalesce(st.sessions[s].drainAt, now))
          else st.sessions[s])
  }

  // ----- applying the plan -----

  predicate NothingHeld(rs: Reservations, s: nat) {
    HeldByOthers(rs, s, 0) == {}
  }

  function DrainRebalanced(st: Pool, which: set<nat>, now: int): Pool {
    st.(sessions := map s | s in st.sessions ::
          if s in which && st.sessions[s].state.Ready? && !st.sessions[s].isSealed
             && st.sessions[s].drainAt.None? && st.sessions[s].blockedAt.None?
             && st.sessions[s].allocation in st.allocations && st.allocations[st.sessions[s].allocation].Usable()
             && NothingHeld(st.reservations, s)
          then st.sessions[s].(state := Draining, drainAt := Some(now)) else st.sessions[s])
  }

  function DrainSurplus(st: Pool, which: set<nat>, now: int): Pool {
    st.(sessions := map s | s in st.sessions ::
          if s in which && st.sessions[s].state.Assignable() && NothingHeld(st.reservations, s)
          then st.sessions[s].(state := Draining, drainAt := Some(now)) else st.sessions[s])
  }

  function Opened(o: Opening, now: int): Session {
    Session(o.allocation, o.node, o.slots, 1, "", Starting, false, 0, None, None,
            NoQuarantine, None, NoFault, None, None, now, None, None, "", "", "", "")
  }

  // ----- the whole pass -----

  function Prepare(st: Pool, cfg: Config, execute: bool, orders: Orders, now: int): Pool {
    var s1 := RefreshEmptyDrains(RefreshReservations(RefreshEmptyDrains(st), now));
    if !(execute && cfg.operational) then s1
    else
      var s2 := RetireStarts(s1, orders.blockedStarts);
      var s3 := DrainPressured(s2, orders.pressured, now);
      if s3 == s2 then s2 else RefreshEmptyDrains(RefreshReservations(s3, now))
  }

  function Rotate(st: Pool, cfg: Config, execute: bool, now: int): Pool {
    if !execute then st
    else
      var s1 := RotateAllocations(st, cfg, now);
      RequestDrain(s1, Some(Rotating(s1)), now)
  }

  function ReapLeases(st: Pool, cfg: Config, now: int): Pool {
    ExpireLapsed(RequeueStale(EndOrphans(st, now), now), cfg, now)
  }

  function ReapSessions(st: Pool, cfg: Config, now: int): Pool {
    var s1 := ExpireStarts(LoseReleases(ExpireSessions(st, cfg, now), cfg, now), cfg, now);
    ReapUnreachable(RecycleAllocations(s1, cfg, now), cfg, now)
  }

  function Restore(st: Pool, execute: bool, now: int): Pool {
    if !execute then st else DrainStranded(RestoreAllocations(st), now)
  }

  function Apply(st: Pool, cfg: Config, orders: Orders, now: int): Pool {
    var drained := DrainSurplus(DrainRebalanced(st, orders.rebalance, now), orders.surplus, now);
    AddSessions(drained, seq(|orders.opening|, i requires 0 <= i < |orders.opening| => Opened(orders.opening[i], now)))
  }

  function Reconcile(st: Pool, cfg: Config, execute: bool, orders: Orders, now: int): Pool {
    var ready := Restore(ReapSessions(ReapLeases(Rotate(Prepare(st, cfg, execute, orders, now), cfg, execute, now),
                                                 cfg, now), cfg, now), execute, now);
    if execute && cfg.operational then Apply(PlaceBatch(ready, cfg, now), cfg, orders, now) else ready
  }
}
