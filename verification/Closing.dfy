/** What closing a Desktop does, row by row. */
module PoolClosing {
  import opened PoolRows
  import opened PoolTerms
  import opened PoolInvariant
  import opened PoolRefresh
  import opened PoolCohortLoops
  import opened PoolPlacementProofs
  import opened PoolHost
  import opened PoolHostProofs

  /** A reservation of the key on `s`, or its lease, is still unfinished. */
  predicate Needs(st: Pool, key: CohortKey, s: nat) {
    exists r :: r in st.reservations && st.reservations[r].session == s && st.reservations[r].key == key
      && (Stands(st.reservations[r])
          || (st.reservations[r].lease.Some? && st.reservations[r].lease.value in st.leases
              && !LeaseEnded(st.leases[st.reservations[r].lease.value])))
  }

  /** The lease is pinned by a cohort that needs `s`. */
  predicate Bound(st: Pool, l: Lease, s: nat) {
    l.req.pin in st.reservations && Needs(st, st.reservations[l.req.pin].key, s)
  }

  /** The request is the host's own, and a successful close finds the Desktop empty. */
  predicate MayClose(st: Pool, s: nat, token: string, success: bool) {
    s in st.sessions && token != "" && st.sessions[s].token == token && (success ==> Vacant(st.leases, s))
  }

  /** The lease after the close: with its cohort failed, waiting again, failed, or untouched. */
  predicate LeaseAfterClose(st: Pool, l: Lease, m: Lease, s: nat, requeue: bool, ttl: int, now: int) {
    if Bound(st, l, s) then m == (if LeaseEnded(l) then l else l.(state := Failed))
    else if !OwnsSlot(l, s) then m == l
    else if requeue then
      && m.state.Queued? && m.session.None? && m.slot == 0 && m.permit.None? && m.releaseAt.None?
      && m.wantAllocation == 0 && m.wantNode == "" && m.heartbeat == now && m.expires == now + ttl
      && m == l.(state := m.state, session := m.session, slot := m.slot, permit := m.permit, releaseAt := m.releaseAt,
                 wantAllocation := m.wantAllocation, wantNode := m.wantNode, heartbeat := m.heartbeat, expires := m.expires)
    else m == l.(state := Failed)
  }

  predicate SessionAfterClose(x: Session, y: Session, success: bool, fault: Fault) {
    && (if success then y.state.SessionClosed? && y.fault.NoFault? else y.state.SessionFailed? && y.fault == fault)
    && y == x.(state := y.state, fault := y.fault)
  }

  /** A failed Desktop drains its allocation for recycling. */
  predicate AllocationAfterClose(a: nat, x: Allocation, y: Allocation, of: nat, success: bool) {
    if !success && a == of && (x.state.Warm? || x.state.InUse? || x.state.AllocDraining?)
    then y.state.AllocDraining? && y.reason.FaultedRecycle? && y.created == x.created
    else y == x
  }

  ghost predicate Closed(st: Pool, su: Pool, s: nat, success: bool, requeue: bool, fault: Fault, ttl: int, now: int)
    requires s in st.sessions
  {
    && su == st.(leases := su.leases, reservations := su.reservations, sessions := su.sessions, allocations := su.allocations)
    && su.leases.Keys == st.leases.Keys && su.reservations.Keys == st.reservations.Keys
    && su.sessions.Keys == st.sessions.Keys && su.allocations.Keys == st.allocations.Keys
    && (forall id :: id in st.leases ==>
          LeaseAfterClose(st, st.leases[id], su.leases[id], s, !success && requeue, ttl, now))
    && (forall r :: r in st.reservations ==>
          su.reservations[r] == if Stands(st.reservations[r]) && Needs(st, st.reservations[r].key, s)
                                then st.reservations[r].(state := ResFailed) else st.reservations[r])
    && SessionAfterClose(st.sessions[s], su.sessions[s], success, fault)
    && (forall t :: t in st.sessions && t != s ==> su.sessions[t] == st.sessions[t])
    && (forall a :: a in st.allocations ==>
          AllocationAfterClose(a, st.allocations[a], su.allocations[a], st.sessions[s].allocation, success))
  }

  /** The keys of the cohorts that need `s`. */
  function NeedingKeys(st: Pool, s: nat): set<CohortKey> {
    set r | r in st.reservations && Needs(st, st.reservations[r].key, s) :: st.reservations[r].key
  }

  lemma CohortsThatNeed(st: Pool, s: nat, now: int)
    ensures FailCohortsOn(st, s, now) == FailCohorts(st, NeedingKeys(st, s), false, now)
  {
    hide FailCohorts;
    var keys := set r | r in st.reservations && st.reservations[r].session == s
                       && (st.reservations[r].state.Live()
                           || (st.reservations[r].lease.Some? && st.reservations[r].lease.value in st.leases
                               && st.leases[st.reservations[r].lease.value].state.Live()))
                     :: st.reservations[r].key;
    assert keys == NeedingKeys(st, s);
  }

  lemma BoundIsMember(st: Pool, l: Lease, s: nat)
    ensures Bound(st, l, s) <==> InCohort(st.reservations, l, NeedingKeys(st, s))
  {
    hide Needs;
  }

  lemma LeaseCloses(st: Pool, cfg: Config, s: nat, success: bool, requeue: bool, now: int, id: nat)
    requires id in st.leases && s in st.sessions
    requires Bound(st, st.leases[id], s) || st.leases[id].req.pin == 0 || !OwnsSlot(st.leases[id], s)
    ensures
      var su := Vacated(Tainted(FailCohortsOn(st, s, now), s, success), cfg, s, requeue, now);
      id in su.leases && LeaseAfterClose(st, st.leases[id], su.leases[id], s, requeue, cfg.leaseTtl, now)
  {
    hide FailCohortsOn, FailCohorts, Bound, NeedingKeys, InCohort;
    CohortsThatNeed(st, s, now);
    BoundIsMember(st, st.leases[id], s);
    FailLease(st, NeedingKeys(st, s), false, now, id);
    var su := FailCohortsOn(st, s, now);
    assert s in su.sessions by { FailCohortsSessions(st, s, now); }
    TaintedRows(su, s, success);
    hide Tainted;
  }

  /** Under the invariant the cohort of a pinned owner needs the Desktop it is on. */
  lemma PinnedOwnersBound(safe: set<string>, st: Pool, s: nat, id: nat)
    requires Inv(safe, st) && id in st.leases && OwnsSlot(st.leases[id], s) && st.leases[id].req.pin != 0
    ensures Bound(st, st.leases[id], s)
  {
    hide Sharing, Cohorts, Capacity, WaveOrder, SessionRows, Rooted, Permitted, Marked, Settled;
    assert LeaseRow(st.sessions, st.leases[id]);
    PinTarget(st.sessions, st.leases, st.reservations, id);
    hide LeaseRows, ReservationRows, Pins;
    var r := st.leases[id].req.pin;
    assert st.reservations[r].session == s && !LeaseEnded(st.leases[id]);
  }

  lemma AllocationsClose(st: Pool, s: nat, success: bool)
    requires s in st.sessions
    ensures
      var su := Tainted(st, s, success);
      && su == st.(allocations := su.allocations) && su.allocations.Keys == st.allocations.Keys
      && (forall a :: a in st.allocations ==>
            AllocationAfterClose(a, st.allocations[a], su.allocations[a], st.sessions[s].allocation, success))
  {
  }

  lemma RestCloses(st: Pool, cfg: Config, s: nat, success: bool, requeue: bool, now: int)
    requires s in st.sessions
    ensures
      var failed := FailCohortsOn(st, s, now);
      && failed == st.(leases := failed.leases, reservations := failed.reservations)
      && failed.leases.Keys == st.leases.Keys && failed.reservations.Keys == st.reservations.Keys
      && var su := Vacated(Tainted(failed, s, success), cfg, s, requeue, now);
         && su == st.(leases := su.leases, reservations := su.reservations, allocations := su.allocations)
         && su.leases.Keys == st.leases.Keys && su.reservations.Keys == st.reservations.Keys
         && su.allocations == Tainted(failed, s, success).allocations
  {
    hide FailCohorts, FailCohortsOn, Vacated, Tainted, NeedingKeys;
    var failed := FailCohortsOn(st, s, now);
    CohortsThatNeed(st, s, now);
    FailRows(st, NeedingKeys(st, s), false, now);
    FailCohortsSessions(st, s, now);
    AllocationsClose(failed, s, success);
    VacatedRest(Tainted(failed, s, success), cfg, s, requeue, now);
    VacatedLeasesOnly(Tainted(failed, s, success), cfg, s, requeue, now);
  }

  lemma VacatedLeasesOnly(st: Pool, cfg: Config, s: nat, requeue: bool, now: int)
    ensures Vacated(st, cfg, s, requeue, now) == st.(leases := Vacated(st, cfg, s, requeue, now).leases)
  {
  }

  lemma ReservationCloses(st: Pool, cfg: Config, s: nat, success: bool, requeue: bool, now: int, r: nat)
    requires r in st.reservations && s in st.sessions
    ensures
      var su := Vacated(Tainted(FailCohortsOn(st, s, now), s, success), cfg, s, requeue, now);
      && r in su.reservations
      && su.reservations[r] == if Stands(st.reservations[r]) && Needs(st, st.reservations[r].key, s)
                               then st.reservations[r].(state := ResFailed) else st.reservations[r]
  {
    FailCohortsSessions(st, s, now);
    hide FailCohorts, FailCohortsOn, Needs;
    CohortsThatNeed(st, s, now);
    FailReservation(st, NeedingKeys(st, s), false, now, r);
  }

  /** The database before the Desktop itself is marked as over. */
  function Emptied(st: Pool, cfg: Config, s: nat, success: bool, requeue: bool, now: int): Pool
    requires s in st.sessions
  {
    FailCohortsSessions(st, s, now);
    Vacated(Tainted(FailCohortsOn(st, s, now), s, success), cfg, s, !success && requeue, now)
  }

  lemma EmptiedThenEnds(st: Pool, cfg: Config, s: nat, token: string, success: bool, requeue: bool, fault: Fault, now: int)
    ensures
      var su := CloseSession(st, cfg, s, token, success, requeue, fault, now);
      if MayClose(st, s, token, success) then
        var mid := Emptied(st, cfg, s, success, requeue, now);
        s in mid.sessions && su == EndDesktop(mid, s, success, fault)
      else su == st
  {
    hide FailCohortsOn, Vacated, Tainted;
    if s in st.sessions {
      FailCohortsSessions(st, s, now);
      TaintedRows(FailCohortsOn(st, s, now), s, success);
      VacatedRest(Tainted(FailCohortsOn(st, s, now), s, success), cfg, s, !success && requeue, now);
    }
  }

  ghost predicate OwnersGone(st: Pool, mid: Pool, s: nat, success: bool, requeue: bool, ttl: int, now: int)
    requires s in st.sessions
  {
    && mid == st.(leases := mid.leases, reservations := mid.reservations, allocations := mid.allocations)
    && mid.leases.Keys == st.leases.Keys && mid.reservations.Keys == st.reservations.Keys
    && mid.allocations.Keys == st.allocations.Keys
    && (forall id :: id in st.leases ==>
          LeaseAfterClose(st, st.leases[id], mid.leases[id], s, !success && requeue, ttl, now))
    && (forall r :: r in st.reservations ==>
          mid.reservations[r] == if Stands(st.reservations[r]) && Needs(st, st.reservations[r].key, s)
                                 then st.reservations[r].(state := ResFailed) else st.reservations[r])
    && (forall a :: a in st.allocations ==>
          AllocationAfterClose(a, st.allocations[a], mid.allocations[a], st.sessions[s].allocation, success))
  }

  lemma EmptiedRows(safe: set<string>, st: Pool, cfg: Config, s: nat, success: bool, requeue: bool, now: int)
    requires Inv(safe, st) && s in st.sessions
    ensures OwnersGone(st, Emptied(st, cfg, s, success, requeue, now), s, success, requeue, cfg.leaseTtl, now)
  {
    hide Inv, FailCohortsOn, Vacated, Tainted, LeaseAfterClose, AllocationAfterClose, Needs, Stands, Bound, OwnsSlot;
    RestCloses(st, cfg, s, success, !success && requeue, now);
    AllocationsClose(FailCohortsOn(st, s, now), s, success);
    var mid := Emptied(st, cfg, s, success, requeue, now);
    forall id | id in st.leases
      ensures LeaseAfterClose(st, st.leases[id], mid.leases[id], s, !success && requeue, cfg.leaseTtl, now)
    {
      if OwnsSlot(st.leases[id], s) && st.leases[id].req.pin != 0 {
        PinnedOwnersBound(safe, st, s, id);
      }
      LeaseCloses(st, cfg, s, success, !success && requeue, now, id);
    }
    forall r | r in st.reservations
      ensures mid.reservations[r] == if Stands(st.reservations[r]) && Needs(st, st.reservations[r].key, s)
                                     then st.reservations[r].(state := ResFailed) else st.reservations[r]
    {
      ReservationCloses(st, cfg, s, success, !success && requeue, now, r);
    }
  }

  /** Closing a Desktop: cohorts that need it fail; every other owner waits again, without
      permit and affinity, if the Desktop died and a retry was asked for, and fails
      otherwise; nothing else changes. A request that may not close changes nothing. */
  ghost predicate DesktopClosed(st: Pool, su: Pool, cfg: Config, s: nat, token: string, success: bool, requeue: bool,
                                fault: Fault, now: int)
  {
    if MayClose(st, s, token, success) then Closed(st, su, s, success, requeue, fault, cfg.leaseTtl, now) else su == st
  }

  lemma CloseSettles(safe: set<string>, st: Pool, cfg: Config, s: nat, token: string, success: bool, requeue: bool,
                     fault: Fault, now: int)
    requires Inv(safe, st)
    ensures DesktopClosed(st, CloseSession(st, cfg, s, token, success, requeue, fault, now), cfg, s, token, success, requeue, fault, now)
  {
    hide Inv, CloseSession, Emptied, MayClose, LeaseAfterClose, AllocationAfterClose, Needs, Stands;
    EmptiedThenEnds(st, cfg, s, token, success, requeue, fault, now);
    if MayClose(st, s, token, success) {
      assert s in st.sessions by { MayCloseHere(st, s, token, success); }
      EmptiedRows(safe, st, cfg, s, success, requeue, now);
    }
  }

  lemma MayCloseHere(st: Pool, s: nat, token: string, success: bool)
    requires MayClose(st, s, token, success)
    ensures s in st.sessions
  {
  }

  /** An owner of the Desktop waits again exactly when it has no pin, the Desktop died and a
      retry was asked for; any other owner has failed. */
  lemma OwnersAfterClose(safe: set<string>, st: Pool, cfg: Config, s: nat, token: string, success: bool, requeue: bool,
                         fault: Fault, now: int, id: nat)
    requires Inv(safe, st) && MayClose(st, s, token, success) && id in st.leases && OwnsSlot(st.leases[id], s)
    ensures
      var su := CloseSession(st, cfg, s, token, success, requeue, fault, now);
      && id in su.leases
      && (su.leases[id].state.Queued? <==> st.leases[id].req.pin == 0 && !success && requeue)
      && (!su.leases[id].state.Queued? ==> su.leases[id].state.Failed?)
      && (su.leases[id].state.Queued? ==>
            su.leases[id].session.None? && su.leases[id].permit.None? && su.leases[id].expires == now + cfg.leaseTtl)
  {
    hide Inv, CloseSession, Needs;
    CloseSettles(safe, st, cfg, s, token, success, requeue, fault, now);
    hide Closed;
    if st.leases[id].req.pin != 0 {
      PinnedOwnersBound(safe, st, s, id);
    } else {
      NoPinZero(safe, st);
    }
    ClosedLease(st, CloseSession(st, cfg, s, token, success, requeue, fault, now), s, success, requeue, fault,
                cfg.leaseTtl, now, id);
  }

  lemma ClosedLease(st: Pool, su: Pool, s: nat, success: bool, requeue: bool, fault: Fault, ttl: int, now: int, id: nat)
    requires s in st.sessions && id in st.leases && Closed(st, su, s, success, requeue, fault, ttl, now)
    ensures id in su.leases && LeaseAfterClose(st, st.leases[id], su.leases[id], s, !success && requeue, ttl, now)
  {
    hide LeaseAfterClose, AllocationAfterClose;
  }

  lemma NoPinZero(safe: set<string>, st: Pool)
    requires Inv(safe, st)
    ensures 0 !in st.reservations
  {
  }
}
