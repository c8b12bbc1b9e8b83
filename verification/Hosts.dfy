/** What a reconcile pass does to Desktops whose host is gone, and to allocations: exactly,
    on rows. */
module PoolHosts {
  import opened PoolRows
  import opened PoolTerms
  import opened PoolReconcile

  /** The last sign of life of the host. */
  function SeenAt(x: Session): int {
    match x.heartbeat
    case Some(t) => t
    case None => if x.started.Some? then x.started.value else x.created
  }

  predicate SilentSince(x: Session, cutoff: int) { SeenAt(x) < cutoff }

  // ----- hosts that fell silent -----

  /** A running Desktop whose host is silent is unhealthy; it may come back unless it was draining. */
  function Silenced(x: Session, cfg: Config, now: int): Session {
    if (Works(x) || x.state.Draining?) && SilentSince(x, now - cfg.sessionTimeout)
    then x.(state := Unhealthy, fault := if x.state.Draining? then OtherFault else HeartbeatTimeout,
            drainAt := Armed(x.drainAt, now))
    else x
  }

  lemma SilencedRows(st: Pool, cfg: Config, now: int)
    ensures
      var su := ExpireSessions(st, cfg, now);
      && su == st.(sessions := su.sessions) && su.sessions.Keys == st.sessions.Keys
      && (forall s :: s in st.sessions ==> su.sessions[s] == Silenced(st.sessions[s], cfg, now))
  {
  }

  // ----- releases that no host will confirm -----

  /** The release was asked for before the cutoff. */
  predicate AskedBefore(l: Lease, cutoff: int) {
    l.state.Releasing? && l.releaseAt.Some? && l.releaseAt.value < cutoff
  }

  /** Nobody can close the project: its Desktop is unknown, over, or unhealthy with a silent host. */
  predicate Unconfirmable(ss: Sessions, l: Lease, cutoff: int) {
    l.session.Some? && l.session.value in ss ==>
      var x := ss[l.session.value];
      x.state.SessionClosed? || x.state.SessionFailed? || (x.state.Unhealthy? && SilentSince(x, cutoff))
  }

  function LeaseLost(ss: Sessions, l: Lease, cutoff: int): Lease {
    if AskedBefore(l, cutoff) && Unconfirmable(ss, l, cutoff) then l.(state := Failed) else l
  }

  predicate OldReleaseOn(ls: Leases, s: nat, cutoff: int) {
    exists id :: id in ls && ls[id].session == Some(s) && AskedBefore(ls[id], cutoff)
  }

  /** The Desktop that lost the project is quarantined behind its barrier. */
  function SessionLost(x: Session, loses: bool, cutoff: int, now: int): Session {
    if x.state.Unhealthy? && SilentSince(x, cutoff) && loses
    then x.(fault := OtherFault, quarantine := OtherQuarantine, blockedAt := Armed(x.blockedAt, now),
            drainAt := Armed(x.drainAt, now))
    else x
  }

  lemma LostSession(st: Pool, cutoff: int, now: int, s: nat)
    requires s in st.sessions
    ensures
      var su := CondemnSilent(st, cutoff, now);
      s in su.sessions && su.sessions[s] == SessionLost(st.sessions[s], OldReleaseOn(st.leases, s, cutoff), cutoff, now)
  {
    assert OldReleaseOn(st.leases, s, cutoff)
      <==> exists id :: id in st.leases && st.leases[id].session == Some(s) && ReleaseOld(st.leases[id], cutoff);
    hide OldReleaseOn, ReleaseOld;
  }

  lemma LostSessions(st: Pool, cutoff: int, now: int)
    ensures
      var su := CondemnSilent(st, cutoff, now);
      && su == st.(sessions := su.sessions) && su.sessions.Keys == st.sessions.Keys
      && (forall s :: s in st.sessions ==>
            su.sessions[s] == SessionLost(st.sessions[s], OldReleaseOn(st.leases, s, cutoff), cutoff, now))
  {
    hide OldReleaseOn, ReleaseOld, Silent, SessionLost;
    forall s | s in st.sessions
      ensures CondemnSilent(st, cutoff, now).sessions[s]
           == SessionLost(st.sessions[s], OldReleaseOn(st.leases, s, cutoff), cutoff, now)
    {
      LostSession(st, cutoff, now, s);
    }
  }

  /** Losing the project changes neither whether a Desktop is over nor whether it is silent. */
  lemma LostLease(st: Pool, mid: Pool, cutoff: int, now: int, l: Lease)
    requires mid.sessions.Keys == st.sessions.Keys
    requires forall s :: s in st.sessions ==>
      mid.sessions[s] == SessionLost(st.sessions[s], OldReleaseOn(st.leases, s, cutoff), cutoff, now)
    ensures Unconfirmable(st.sessions, l, cutoff)
       <==> l.session.None? || l.session.value !in mid.sessions || mid.sessions[l.session.value].state.Over()
            || Silent(mid.sessions[l.session.value], cutoff)
  {
    hide OldReleaseOn;
  }

  lemma LostRows(st: Pool, cfg: Config, now: int)
    ensures
      var su := LoseReleases(st, cfg, now);
      var cutoff := now - cfg.sessionTimeout;
      && su == st.(sessions := su.sessions, leases := su.leases)
      && su.sessions.Keys == st.sessions.Keys && su.leases.Keys == st.leases.Keys
      && (forall s :: s in st.sessions ==>
            su.sessions[s] == SessionLost(st.sessions[s], OldReleaseOn(st.leases, s, cutoff), cutoff, now))
      && (forall id :: id in st.leases ==> su.leases[id] == LeaseLost(st.sessions, st.leases[id], cutoff))
  {
    hide CondemnSilent, OldReleaseOn, SessionLost, Silent, Unconfirmable;
    var cutoff := now - cfg.sessionTimeout;
    var mid := CondemnSilent(st, cutoff, now);
    LostSessions(st, cutoff, now);
    forall id | id in st.leases
      ensures Unconfirmable(st.sessions, st.leases[id], cutoff)
         <==> st.leases[id].session.None? || st.leases[id].session.value !in mid.sessions
              || mid.sessions[st.leases[id].session.value].state.Over()
              || Silent(mid.sessions[st.leases[id].session.value], cutoff)
    {
      LostLease(st, mid, cutoff, now, st.leases[id]);
    }
  }

  // ----- starts that nobody acknowledged -----

  function StartLate(x: Session, cfg: Config, now: int): Session {
    var since := if x.claimedAt.Some? then x.claimedAt.value else x.created;
    if x.state.Starting? && since < now - cfg.startTimeout
    then x.(state := Unhealthy, fault := StartAckTimeout, drainAt := Armed(x.drainAt, now))
    else x
  }

  lemma LateRows(st: Pool, cfg: Config, now: int)
    ensures
      var su := ExpireStarts(st, cfg, now);
      && su == st.(sessions := su.sessions) && su.sessions.Keys == st.sessions.Keys
      && (forall s :: s in st.sessions ==> su.sessions[s] == StartLate(st.sessions[s], cfg, now))
  {
  }

  // ----- allocations with bad Desktops -----

  /** The Desktop is quarantined, or unhealthy for longer than the grace. */
  predicate Taints(x: Session, cfg: Config, now: int) {
    || !x.quarantine.NoQuarantine?
    || (x.state.Unhealthy?
        && (if x.drainAt.Some? then x.drainAt.value
            else if x.heartbeat.Some? then x.heartbeat.value else x.created) < now - cfg.recycleGrace)
  }

  predicate TaintedBy(ss: Sessions, a: nat, cfg: Config, now: int) {
    exists s :: s in ss && ss[s].allocation == a && Taints(ss[s], cfg, now)
  }

  /** It drains for recycling; a drain with another reason keeps that reason. */
  function Recycled(x: Allocation, tainted: bool): Allocation {
    if !tainted then x
    else match x.state
      case Warm => x.(state := AllocDraining, reason := UnhealthyRecycle)
      case InUse => x.(state := AllocDraining, reason := UnhealthyRecycle)
      case AllocDraining =>
        if x.reason.BlankReason? || x.reason.ProjectDemand? then x.(reason := UnhealthyRecycle) else x
      case _ => x
  }

  lemma RecycledRows(st: Pool, cfg: Config, now: int)
    ensures
      var su := RecycleAllocations(st, cfg, now);
      && su == st.(allocations := su.allocations) && su.allocations.Keys == st.allocations.Keys
      && (forall a :: a in st.allocations ==>
            su.allocations[a] == Recycled(st.allocations[a], TaintedBy(st.sessions, a, cfg, now)))
  {
    var tainted := set s | s in st.sessions
                     && (!st.sessions[s].quarantine.NoQuarantine?
                         || (st.sessions[s].state.Unhealthy? && DrainSince(st.sessions[s]) < now - cfg.recycleGrace))
                   :: st.sessions[s].allocation;
    forall a
      ensures a in tainted <==> TaintedBy(st.sessions, a, cfg, now)
    {
      if TaintedBy(st.sessions, a, cfg, now) {
        var s :| s in st.sessions && st.sessions[s].allocation == a && Taints(st.sessions[s], cfg, now);
        assert st.sessions[s].allocation in tainted;
      }
    }
    hide TaintedBy, Taints;
  }

  // ----- Desktops that nobody can reach -----

  /** Unhealthy, and either suspected or confirmed dead and vacant for the grace, or silent for
      five timeouts, and a quarter of an hour at least, after a drain that old. */
  predicate Unreached(x: Session, vacant: bool, cfg: Config, now: int) {
    var grace := now - cfg.recycleGrace;
    && x.state.Unhealthy?
    && (|| (&& vacant && (x.fault.NativeSuspect? || x.quarantine.ConfirmedDeath?)
            && (if x.drainAt.Some? then x.drainAt.value
                else if x.faultAt.Some? then x.faultAt.value else SeenAt(x)) < grace)
        || (&& SeenAt(x) < now - 900 && SeenAt(x) < now - 5 * cfg.sessionTimeout
            && (if x.drainAt.Some? then x.drainAt.value
                else if x.heartbeat.Some? then x.heartbeat.value else x.created) < grace))
  }

  predicate UnreachedAt(st: Pool, s: nat, cfg: Config, now: int) {
    s in st.sessions && Unreached(st.sessions[s], Vacant(st.leases, s), cfg, now)
  }

  predicate OnUnreached(st: Pool, l: Lease, cfg: Config, now: int) {
    l.session.Some? && OwnsSlot(l, l.session.value) && UnreachedAt(st, l.session.value, cfg, now)
  }

  lemma UnreachedRows(st: Pool, cfg: Config, now: int)
    ensures
      var su := ReapUnreachable(st, cfg, now);
      && su == st.(sessions := su.sessions, leases := su.leases)
      && su.sessions.Keys == st.sessions.Keys && su.leases.Keys == st.leases.Keys
      && (forall s :: s in st.sessions ==>
            su.sessions[s] == if UnreachedAt(st, s, cfg, now) then st.sessions[s].(state := SessionFailed) else st.sessions[s])
      && (forall id :: id in st.leases ==>
            su.leases[id] == if OnUnreached(st, st.leases[id], cfg, now) then st.leases[id].(state := Failed)
                             else st.leases[id])
  {
    forall s | s in st.sessions
      ensures Unreachable(st, cfg, s, now) <==> UnreachedAt(st, s, cfg, now)
    {
      SameOwners(st.leases, s);
      hide Vacant, NoHolder;
    }
    hide Unreachable, UnreachedAt;
  }

  // ----- all of it -----

  ghost predicate QuietHosts(st: Pool, su: Pool, cfg: Config, now: int) {
    && su == st.(sessions := su.sessions) && su.sessions.Keys == st.sessions.Keys
    && (forall s :: s in st.sessions ==> su.sessions[s] == Silenced(st.sessions[s], cfg, now))
  }

  ghost predicate ProjectsLost(st: Pool, su: Pool, cutoff: int, now: int) {
    && su == st.(sessions := su.sessions, leases := su.leases)
    && su.sessions.Keys == st.sessions.Keys && su.leases.Keys == st.leases.Keys
    && (forall s :: s in st.sessions ==>
          su.sessions[s] == SessionLost(st.sessions[s], OldReleaseOn(st.leases, s, cutoff), cutoff, now))
    && (forall id :: id in st.leases ==> su.leases[id] == LeaseLost(st.sessions, st.leases[id], cutoff))
  }

  ghost predicate StartsLate(st: Pool, su: Pool, cfg: Config, now: int) {
    && su == st.(sessions := su.sessions) && su.sessions.Keys == st.sessions.Keys
    && (forall s :: s in st.sessions ==> su.sessions[s] == StartLate(st.sessions[s], cfg, now))
  }

  ghost predicate OutOfReach(st: Pool, su: Pool, cfg: Config, now: int) {
    && su == st.(sessions := su.sessions, leases := su.leases, allocations := su.allocations)
    && su.sessions.Keys == st.sessions.Keys && su.leases.Keys == st.leases.Keys
    && su.allocations.Keys == st.allocations.Keys
    && (forall a :: a in st.allocations ==>
          su.allocations[a] == Recycled(st.allocations[a], TaintedBy(st.sessions, a, cfg, now)))
    && (forall s :: s in st.sessions ==>
          su.sessions[s] == if UnreachedAt(st, s, cfg, now) then st.sessions[s].(state := SessionFailed) else st.sessions[s])
    && (forall id :: id in st.leases ==>
          su.leases[id] == if OnUnreached(st, st.leases[id], cfg, now) then st.leases[id].(state := Failed)
                           else st.leases[id])
  }

  /** Desktops, leases and allocations after the pass looked at the hosts: silence first, then
      lost releases, late starts, and last recycled allocations and Desktops out of reach. */
  ghost predicate HostsReaped(st: Pool, su: Pool, cfg: Config, now: int) {
    exists quiet: Pool, lost: Pool, late: Pool ::
      QuietHosts(st, quiet, cfg, now) && ProjectsLost(quiet, lost, now - cfg.sessionTimeout, now)
      && StartsLate(lost, late, cfg, now) && OutOfReach(late, su, cfg, now)
  }

  lemma OutOfReachRows(st: Pool, cfg: Config, now: int)
    ensures OutOfReach(st, ReapUnreachable(RecycleAllocations(st, cfg, now), cfg, now), cfg, now)
  {
    hide RecycleAllocations, ReapUnreachable, Recycled, TaintedBy, Unreached, Vacant, OwnsSlot;
    RecycledRows(st, cfg, now);
    UnreachedRows(RecycleAllocations(st, cfg, now), cfg, now);
  }

  lemma HostsAreReaped(st: Pool, cfg: Config, now: int)
    ensures HostsReaped(st, ReapSessions(st, cfg, now), cfg, now)
  {
    hide ExpireSessions, LoseReleases, ExpireStarts, RecycleAllocations, ReapUnreachable;
    hide QuietHosts, ProjectsLost, StartsLate, OutOfReach;
    var quiet := ExpireSessions(st, cfg, now);
    var lost := LoseReleases(quiet, cfg, now);
    var late := ExpireStarts(lost, cfg, now);
    EachPhase(st, quiet, lost, cfg, now);
    OutOfReachRows(late, cfg, now);
  }

  lemma EachPhase(st: Pool, quiet: Pool, lost: Pool, cfg: Config, now: int)
    ensures QuietHosts(st, ExpireSessions(st, cfg, now), cfg, now)
    ensures ProjectsLost(quiet, LoseReleases(quiet, cfg, now), now - cfg.sessionTimeout, now)
    ensures StartsLate(lost, ExpireStarts(lost, cfg, now), cfg, now)
  {
    hide ExpireSessions, LoseReleases, ExpireStarts, Silenced, SessionLost, LeaseLost, StartLate;
    SilencedRows(st, cfg, now);
    LostRows(quiet, cfg, now);
    LateRows(lost, cfg, now);
  }
}
